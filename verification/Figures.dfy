/** What the records of a state add up to, and what every reachable state keeps. */
module Figures {
  import opened Sums
  import opened Rows
  import opened Rules

  // ---------------------------------------------------------------- figures read off the records

  function Bought(t: Id): Purchase -> real {
    (p: Purchase) => if p.tankId == t && p.status.Approved? && !p.rev.isReversed then p.quantity else 0.0
  }

  function Sold(nozzles: seq<Nozzle>, t: Id): FuelSale -> real {
    (x: FuelSale) =>
      if x.nozzleId < |nozzles| && nozzles[x.nozzleId].tankId == t && !x.rev.isReversed then x.quantity else 0.0
  }

  function LossGain(t: Id): TankDip -> real {
    (d: TankDip) => if d.tankId == t then d.lossGain else 0.0
  }

  function CreditSale(c: Id): FuelSale -> real {
    (x: FuelSale) => if x.customerId == Some(c) && x.saleType.Credit? && !x.rev.isReversed then x.totalAmount else 0.0
  }

  /** A sale that named the customer without charging them, and was reversed. */
  function RefundedUncharged(c: Id): FuelSale -> real {
    (x: FuelSale) => if x.customerId == Some(c) && !x.saleType.Credit? && x.rev.isReversed then x.totalAmount else 0.0
  }

  function PaidBy(c: Id): CustomerPayment -> real {
    (p: CustomerPayment) => if p.customerId == c && !p.rev.isReversed then p.amount else 0.0
  }

  function Delivered(c: Id): Delivery -> real {
    (d: Delivery) => if d.customerId == Some(c) && d.saleType.Credit? then d.outstandingAmount else 0.0
  }

  function DeliveredByTrip(c: Id): Trip -> real {
    (t: Trip) => if t.status.Completed? && !t.tripType.SupplierToStation? then Sum(t.deliveries, Delivered(c)) else 0.0
  }

  function Owed(p: Id): Purchase -> real {
    (x: Purchase) => if x.supplierId == p && x.status.Approved? && !x.rev.isReversed then x.totalAmount else 0.0
  }

  function PaidTo(p: Id): SupplierPayment -> real {
    (x: SupplierPayment) => if x.supplierId == p && !x.rev.isReversed then x.amount else 0.0
  }

  function Dispensed(n: Id): FuelSale -> real {
    (x: FuelSale) => if x.nozzleId == n && !x.rev.isReversed then x.quantity else 0.0
  }

  function Shifted(n: Id): MeterAdjustment -> real {
    (a: MeterAdjustment) => if a.nozzleId == n then a.newReading - a.oldReading else 0.0
  }

  /** Sales of the nozzle's current segment that stand. */
  function DispensedSince(n: Id, start: nat): FuelSale -> real {
    (x: FuelSale) => if x.nozzleId == n && !x.rev.isReversed && x.createdAt >= start then x.quantity else 0.0
  }

  /** Sales of earlier segments that were reversed during the current one. */
  function TakenBackSince(n: Id, start: nat): FuelSale -> real {
    (x: FuelSale) =>
      if x.nozzleId == n && x.createdAt < start && x.rev.reversedAt.Some? && x.rev.reversedAt.value >= start
                     then x.quantity else 0.0
  }

  /** What the customer ledger adds up to. */
  function CustomerLedger(s: State, c: Id): real {
    Sum(s.sales, CreditSale(c)) - Sum(s.customerPayments, PaidBy(c))
  }

  function SupplierLedger(s: State, p: Id): real {
    Sum(s.purchases, Owed(p)) - Sum(s.supplierPayments, PaidTo(p))
  }

  // ---------------------------------------------------------------- invariants

  /** No records yet, nothing owed; tanks and meters may start anywhere. */
  ghost predicate Initial(s: State) {
    && s.sales == [] && s.readings == map[] && s.purchases == [] && s.customerPayments == [] && s.supplierPayments == []
    && s.dips == [] && s.adjustments == [] && s.trips == [] && s.shifts == []
    && (forall c :: 0 <= c < |s.customers| ==>
          && s.customers[c].outstandingBalance == 0.0
          && s.customers[c].overrideAmount == 0.0 && s.customers[c].overrideRequested == 0.0)
    && (forall p :: 0 <= p < |s.suppliers| ==> s.suppliers[p].payableBalance == 0.0)
    && (forall n :: 0 <= n < |s.nozzles| ==> s.nozzles[n].segmentStart == s.nozzles[n].meterReading
                                             && s.nozzles[n].segmentStartedAt <= s.clock)
  }

  predicate SameTank(a: Tank, b: Tank) { a.(currentVolume := 0.0) == b.(currentVolume := 0.0) }

  predicate SameNozzle(a: Nozzle, b: Nozzle) {
    a.stationId == b.stationId && a.tankId == b.tankId && a.fuelTypeId == b.fuelTypeId
  }

  predicate SameCustomer(a: Customer, b: Customer) {
    a.stationId == b.stationId && a.creditLimit == b.creditLimit
  }

  /** The master data of the site does not change. */
  ghost predicate SameSite(s0: State, s: State) {
    && s.stations == s0.stations && s.fuelTypes == s0.fuelTypes
    && |s.tanks| == |s0.tanks| && (forall t :: 0 <= t < |s.tanks| ==> SameTank(s.tanks[t], s0.tanks[t]))
    && |s.nozzles| == |s0.nozzles| && (forall n :: 0 <= n < |s.nozzles| ==> SameNozzle(s.nozzles[n], s0.nozzles[n]))
    && |s.customers| == |s0.customers|
    && (forall c :: 0 <= c < |s.customers| ==> SameCustomer(s.customers[c], s0.customers[c]))
    && |s.suppliers| == |s0.suppliers| && |s.tankers| == |s0.tankers|
    && s.clock >= s0.clock
  }

  /** A committed approval is a committed reversal, and the dates are in the past. */
  predicate GoodReversal(r: Reversal, clock: nat) {
    && (r.isReversed <==> r.reversedAt.Some?)
    && (r.reversedAt.Some? ==> r.reversedAt.value < clock)
    && (r.review.Approved? ==> r.isReversed)
  }

  predicate GoodSale(s0: State, clock: nat, x: FuelSale) {
    && x.nozzleId < |s0.nozzles|
    && (x.customerId.Some? ==> x.customerId.value < |s0.customers|)
    && (x.saleType.Credit? ==> x.customerId.Some?)
    && x.quantity == x.closingMeter - x.openingMeter && x.quantity >= 0.0
    && x.totalAmount >= 0.0 && (x.totalAmount == 0.0 <==> x.quantity == 0.0)
    && x.createdAt < clock && GoodReversal(x.rev, clock)
  }

  predicate GoodPurchase(s0: State, clock: nat, p: Purchase) {
    && p.tankId < |s0.tanks| && p.supplierId < |s0.suppliers|
    && p.quantity >= 0.0 && p.totalAmount >= 0.0
    && GoodReversal(p.rev, clock)
    && (p.rev.isReversed || p.rev.review.Pending? ==> p.status.Approved?)
  }

  predicate GoodCustomerPayment(s0: State, clock: nat, p: CustomerPayment) {
    p.customerId < |s0.customers| && p.amount > 0.0 && GoodReversal(p.rev, clock)
  }

  predicate GoodSupplierPayment(s0: State, clock: nat, p: SupplierPayment) {
    p.supplierId < |s0.suppliers| && p.stationId < s0.stations && p.amount > 0.0 && GoodReversal(p.rev, clock)
  }

  predicate GoodDelivery(s0: State, d: Delivery) {
    && (d.customerId.Some? ==> d.customerId.value < |s0.customers|)
    && d.quantity > 0.0 && d.fuelAmount >= 0.0 && d.outstandingAmount >= 0.0
  }

  predicate GoodTrip(s0: State, t: Trip) {
    && !t.tripType.OtherTrip?
    && (forall i :: 0 <= i < |t.deliveries| ==> GoodDelivery(s0, t.deliveries[i]))
  }

  ghost predicate GoodSales(s0: State, sales: seq<FuelSale>, clock: nat) {
    forall i :: 0 <= i < |sales| ==> GoodSale(s0, clock, sales[i])
  }

  ghost predicate GoodPurchases(s0: State, purchases: seq<Purchase>, clock: nat) {
    forall i :: 0 <= i < |purchases| ==> GoodPurchase(s0, clock, purchases[i])
  }

  ghost predicate GoodCustomerPayments(s0: State, payments: seq<CustomerPayment>, clock: nat) {
    forall i :: 0 <= i < |payments| ==> GoodCustomerPayment(s0, clock, payments[i])
  }

  ghost predicate GoodSupplierPayments(s0: State, payments: seq<SupplierPayment>, clock: nat) {
    forall i :: 0 <= i < |payments| ==> GoodSupplierPayment(s0, clock, payments[i])
  }

  ghost predicate GoodTrips(s0: State, trips: seq<Trip>) {
    forall i :: 0 <= i < |trips| ==> GoodTrip(s0, trips[i])
  }

  ghost predicate GoodRecords(s0: State, s: State) {
    && GoodSales(s0, s.sales, s.clock)
    && GoodPurchases(s0, s.purchases, s.clock)
    && GoodCustomerPayments(s0, s.customerPayments, s.clock)
    && GoodSupplierPayments(s0, s.supplierPayments, s.clock)
    && GoodTrips(s0, s.trips)
  }

  /** Tank volume: opening volume, plus purchases, minus sales, plus what the dips found. */
  ghost predicate TanksConserved(s0: State, s: State)
    requires |s.tanks| == |s0.tanks|
  {
    forall t :: 0 <= t < |s.tanks| ==>
      s.tanks[t].currentVolume ==
        s0.tanks[t].currentVolume + Sum(s.purchases, Bought(t)) - Sum(s.sales, Sold(s0.nozzles, t))
          + Sum(s.dips, LossGain(t))
  }

  ghost predicate CustomersConserved(s: State) {
    forall c :: 0 <= c < |s.customers| ==>
      s.customers[c].outstandingBalance ==
        Sum(s.sales, CreditSale(c)) - Sum(s.customerPayments, PaidBy(c)) + Sum(s.trips, DeliveredByTrip(c))
          - Sum(s.sales, RefundedUncharged(c))
  }

  ghost predicate SuppliersConserved(s: State) {
    forall p :: 0 <= p < |s.suppliers| ==> s.suppliers[p].payableBalance == SupplierLedger(s, p)
  }

  ghost predicate BalancesNonNegative(s: State) {
    && (forall c :: 0 <= c < |s.customers| ==> s.customers[c].outstandingBalance >= 0.0)
    && (forall p :: 0 <= p < |s.suppliers| ==> s.suppliers[p].payableBalance >= 0.0)
  }

  ghost predicate MetersTelescope(s0: State, s: State)
    requires |s.nozzles| == |s0.nozzles|
  {
    forall n :: 0 <= n < |s.nozzles| ==>
      s.nozzles[n].meterReading
        == s0.nozzles[n].meterReading + Sum(s.sales, Dispensed(n)) + Sum(s.adjustments, Shifted(n))
  }

  ghost predicate SegmentsTelescope(s: State) {
    forall n :: 0 <= n < |s.nozzles| ==>
      && s.nozzles[n].segmentStartedAt <= s.clock
      && s.nozzles[n].meterReading - s.nozzles[n].segmentStart ==
           Sum(s.sales, DispensedSince(n, s.nozzles[n].segmentStartedAt))
             - Sum(s.sales, TakenBackSince(n, s.nozzles[n].segmentStartedAt))
  }

  /** One nozzle reading per sale that stands, and none for a reversed one. */
  ghost predicate ReadingsMatch(s: State) {
    && (forall i :: i in s.readings <==> 0 <= i < |s.sales| && !s.sales[i].rev.isReversed)
    && (forall i :: 0 <= i < |s.sales| && i in s.readings ==>
          s.readings[i] == NozzleReading(s.sales[i].nozzleId, s.sales[i].closingMeter))
  }

  // ---------------------------------------------------------------- shapes of a step

  /** A step of the reversal workflow either only marks the record or takes its effects back. */
  lemma ReversalShape(s: State, u: Caller, op: ReversalOp) returns (rev: Reversal)
    requires ReversalStep(s, u, op).Ok?
    ensures Exists(s, op.record) && !Rev(s, op.record).isReversed
    ensures op.RequestReversal? || op.RejectReversal? ==>
      && ReversalStep(s, u, op).state == Mark(s, op.record, rev)
      && rev.isReversed == Rev(s, op.record).isReversed && rev.reversedAt == Rev(s, op.record).reversedAt
      && (rev.review.Pending? || rev.review.Rejected?)
      && (rev.review.Pending? ==> op.RequestReversal? && InForce(s, op.record))
    ensures op.Reverse? || op.ApproveReversal? ==>
      && InForce(s, op.record) && UndoFault(s, op.record).None?
      && ReversalStep(s, u, op).state == TakeBack(s, op.record, rev)
      && rev.isReversed && rev.reversedAt == Some(s.clock)
  {
    var before := Rev(s, op.record);
    match op
    case RequestReversal(r) => rev := before.(review := Pending, requestedBy := Some(u.userId), reviewedBy := None);
    case RejectReversal(r) => rev := before.(review := Rejected, reviewedBy := Some(u.userId));
    case Reverse(r) => rev := Reversed(s, u, before);
    case ApproveReversal(r) => rev := Reversed(s, u, before).(review := Approved, reviewedBy := Some(u.userId));
  }

  // Which tables each kind of call can touch.

  lemma ForecourtFrame(s: State, u: Caller, op: ForecourtOp)
    requires ForecourtStep(s, u, op).Ok?
    ensures var t := ForecourtStep(s, u, op).state;
      t == s.(tanks := t.tanks, nozzles := t.nozzles, customers := t.customers, sales := t.sales,
              readings := t.readings, dips := t.dips, adjustments := t.adjustments, clock := s.clock + 1)
  {
  }

  lemma PurchaseFrame(s: State, u: Caller, op: PurchaseOp)
    requires PurchaseStep(s, u, op).Ok?
    ensures var t := PurchaseStep(s, u, op).state;
      t == s.(tanks := t.tanks, suppliers := t.suppliers, tankers := t.tankers, purchases := t.purchases,
              clock := s.clock + 1)
  {
  }

  lemma PaymentFrame(s: State, u: Caller, op: PaymentOp)
    requires PaymentStep(s, u, op).Ok?
    ensures var t := PaymentStep(s, u, op).state;
      t == s.(customers := t.customers, suppliers := t.suppliers, customerPayments := t.customerPayments,
              supplierPayments := t.supplierPayments, clock := s.clock + 1)
  {
  }

  lemma ReversalFrame(s: State, u: Caller, op: ReversalOp)
    requires ReversalStep(s, u, op).Ok?
    ensures var t := ReversalStep(s, u, op).state;
      t == s.(tanks := t.tanks, nozzles := t.nozzles, customers := t.customers, suppliers := t.suppliers,
              sales := t.sales, readings := t.readings, purchases := t.purchases,
              customerPayments := t.customerPayments, supplierPayments := t.supplierPayments, clock := s.clock + 1)
  {
  }

  lemma TripFrame(s: State, u: Caller, op: TripOp)
    requires TripStep(s, u, op).Ok?
    ensures var t := TripStep(s, u, op).state;
      t == s.(tanks := t.tanks, customers := t.customers, suppliers := t.suppliers, purchases := t.purchases,
              trips := t.trips, clock := s.clock + 1)
  {
  }

  lemma ShiftFrame(s: State, u: Caller, op: ShiftOp)
    requires ShiftStep(s, u, op).Ok?
    ensures var t := ShiftStep(s, u, op).state; t == s.(shifts := t.shifts, clock := s.clock + 1)
  {
  }

  lemma OverrideFrame(s: State, u: Caller, op: OverrideOp)
    requires OverrideStep(s, u, op).Ok?
    ensures var t := OverrideStep(s, u, op).state;
      && t == s.(customers := t.customers, clock := s.clock + 1)
      && |t.customers| == |s.customers|
      && forall c :: 0 <= c < |s.customers| ==> t.customers[c].outstandingBalance == s.customers[c].outstandingBalance
  {
  }

  lemma Frame(s: State, call: Call)
    requires Perform(s, call).Ok?
    ensures var t, op := Perform(s, call).state, call.op;
      && t.stations == s.stations && t.fuelTypes == s.fuelTypes && t.clock == s.clock + 1
      && (op.Paying? || op.Staffing? || op.Lending? ==> t.tanks == s.tanks)
      && (!op.Forecourt? && !op.Reversing? ==> t.nozzles == s.nozzles && t.sales == s.sales && t.readings == s.readings)
      && (op.Purchasing? || op.Staffing? ==> t.customers == s.customers)
      && (op.Forecourt? || op.Staffing? || op.Lending? ==> t.suppliers == s.suppliers)
      && (!op.Purchasing? && !op.Reversing? && !op.Hauling? ==> t.purchases == s.purchases)
      && (!op.Paying? && !op.Reversing? ==>
        t.customerPayments == s.customerPayments && t.supplierPayments == s.supplierPayments)
      && (!op.Forecourt? ==> t.dips == s.dips && t.adjustments == s.adjustments)
      && (!op.Hauling? ==> t.trips == s.trips)
      && (!op.Staffing? ==> t.shifts == s.shifts)
  {
    match call.op
    case Forecourt(op) => ForecourtFrame(s, call.caller, op);
    case Purchasing(op) => PurchaseFrame(s, call.caller, op);
    case Paying(op) => PaymentFrame(s, call.caller, op);
    case Reversing(op) => ReversalFrame(s, call.caller, op);
    case Hauling(op) => TripFrame(s, call.caller, op);
    case Staffing(op) => ShiftFrame(s, call.caller, op);
    case Lending(op) => OverrideFrame(s, call.caller, op);
  }
}
