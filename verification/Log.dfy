/** The tables as a log of the accepted calls: which call each row comes from, and what of the call
    it keeps. */
module Log {
  import opened Money
  import opened Rows
  import opened Rules
  import opened Figures
  import Records
  import History
  import Trips

  /** The tables that accepted calls add rows to, one row a call. */
  datatype Table =
    | Sales | Purchases | CustomerPayments | SupplierPayments | Dips | Adjustments | TripRows | ShiftRows
    | DeliveriesOf(trip: Id) | ExpensesOf(trip: Id)

  function Size(s: State, table: Table): nat {
    match table
    case Sales => |s.sales|
    case Purchases => |s.purchases|
    case CustomerPayments => |s.customerPayments|
    case SupplierPayments => |s.supplierPayments|
    case Dips => |s.dips|
    case Adjustments => |s.adjustments|
    case TripRows => |s.trips|
    case ShiftRows => |s.shifts|
    case DeliveriesOf(t) => if t < |s.trips| then |s.trips[t].deliveries| else 0
    case ExpensesOf(t) => if t < |s.trips| then |s.trips[t].expenses| else 0
  }

  /** The call is accepted and is one that adds to the table. */
  predicate Adds(s: State, call: Call, table: Table) {
    && Perform(s, call).Ok?
    && match table
       case Sales => call.op.Forecourt? && call.op.forecourt.CreateSale?
       case Purchases =>
         || (call.op.Purchasing? && call.op.purchasing.CreatePurchase?)
         || (call.op.Hauling? && call.op.hauling.CompleteTrip? && ToStation(s, call.op.hauling.tripId))
       case CustomerPayments => call.op.Paying? && call.op.paying.PayCustomer?
       case SupplierPayments => call.op.Paying? && call.op.paying.PaySupplier?
       case Dips => call.op.Forecourt? && call.op.forecourt.DipTank?
       case Adjustments => call.op.Forecourt? && call.op.forecourt.AdjustMeter?
       case TripRows => call.op.Hauling? && call.op.hauling.CreateTrip?
       case ShiftRows => call.op.Staffing? && call.op.staffing.OpenShift?
       case DeliveriesOf(t) => call.op.Hauling? && call.op.hauling.AddDelivery? && call.op.hauling.tripId == t
       case ExpensesOf(t) => call.op.Hauling? && call.op.hauling.AddExpense? && call.op.hauling.tripId == t
  }

  predicate ToStation(s: State, t: Id) { t < |s.trips| && s.trips[t].tripType == SupplierToStation }

  /** The positions, in the run, of the calls that added to the table. */
  function Makers(s0: State, calls: seq<Call>, table: Table): seq<nat> {
    if calls == [] then []
    else
      var last := |calls| - 1;
      Makers(s0, calls[..last], table) + if Adds(Run(s0, calls[..last]), calls[last], table) then [last] else []
  }

  // ---------------------------------------------------------------- one row per accepted call

  lemma ForecourtSize(s: State, u: Caller, op: ForecourtOp, table: Table)
    requires ForecourtStep(s, u, op).Ok?
    ensures Size(ForecourtStep(s, u, op).state, table)
         == Size(s, table) + if Adds(s, Call(u, Forecourt(op)), table) then 1 else 0
  {
  }

  lemma PurchaseSize(s: State, u: Caller, op: PurchaseOp, table: Table)
    requires PurchaseStep(s, u, op).Ok?
    ensures Size(PurchaseStep(s, u, op).state, table)
         == Size(s, table) + if Adds(s, Call(u, Purchasing(op)), table) then 1 else 0
  {
  }

  lemma PaymentSize(s: State, u: Caller, op: PaymentOp, table: Table)
    requires PaymentStep(s, u, op).Ok?
    ensures Size(PaymentStep(s, u, op).state, table)
         == Size(s, table) + if Adds(s, Call(u, Paying(op)), table) then 1 else 0
  {
  }

  lemma ReversalSize(s: State, u: Caller, op: ReversalOp, table: Table)
    requires ReversalStep(s, u, op).Ok?
    ensures Size(ReversalStep(s, u, op).state, table) == Size(s, table)
  {
    var rev := ReversalShape(s, u, op);
    ReversalFrame(s, u, op);
  }

  lemma TripSize(s: State, u: Caller, op: TripOp, table: Table)
    requires TripStep(s, u, op).Ok?
    ensures Size(TripStep(s, u, op).state, table)
         == Size(s, table) + if Adds(s, Call(u, Hauling(op)), table) then 1 else 0
  {
  }

  lemma StepSize(s: State, call: Call, table: Table)
    ensures Size(Step(s, call), table) == Size(s, table) + if Adds(s, call, table) then 1 else 0
  {
    if Perform(s, call).Ok? {
      match call.op
      case Forecourt(op) => ForecourtSize(s, call.caller, op, table);
      case Purchasing(op) => PurchaseSize(s, call.caller, op, table);
      case Paying(op) => PaymentSize(s, call.caller, op, table);
      case Reversing(op) => ReversalSize(s, call.caller, op, table);
      case Hauling(op) => TripSize(s, call.caller, op, table);
      case Staffing(op) => ShiftFrame(s, call.caller, op);
      case Lending(op) => OverrideFrame(s, call.caller, op);
    }
  }

  /** Call `k` of the run added row `i` of the table. */
  ghost predicate Made(s0: State, calls: seq<Call>, table: Table, k: nat, i: nat) {
    k < |calls| && Adds(Run(s0, calls[..k]), calls[k], table) && Size(Run(s0, calls[..k]), table) == i
  }

  /** Every table has one row per accepted call that adds to it, in the order of the calls. */
  lemma {:induction false} OneRowPerCall(s0: State, calls: seq<Call>, table: Table)
    requires Initial(s0)
    ensures |Makers(s0, calls, table)| == Size(Run(s0, calls), table)
    ensures forall i :: 0 <= i < |Makers(s0, calls, table)| ==> Made(s0, calls, table, Makers(s0, calls, table)[i], i)
  {
    if calls != [] {
      var last := |calls| - 1;
      var before := Makers(s0, calls[..last], table);
      OneRowPerCall(s0, calls[..last], table);
      StepSize(Run(s0, calls[..last]), calls[last], table);
      forall i | 0 <= i < |before| ensures Made(s0, calls, table, before[i], i) {
        assert Made(s0, calls[..last], table, before[i], i);
        assert calls[..last][..before[i]] == calls[..before[i]];
      }
    }
  }

  lemma {:induction false} MakersInRange(s0: State, calls: seq<Call>, table: Table, k: nat)
    requires k in Makers(s0, calls, table)
    ensures k < |calls|
  {
    if k != |calls| - 1 {
      MakersInRange(s0, calls[..|calls| - 1], table, k);
    }
  }

  /** And no accepted call that adds to the table is without its row. */
  lemma {:induction false} EveryCallHasARow(s0: State, calls: seq<Call>, table: Table, k: nat)
    requires k < |calls|
    ensures k in Makers(s0, calls, table) <==> Adds(Run(s0, calls[..k]), calls[k], table)
  {
    var last := |calls| - 1;
    if k < last {
      EveryCallHasARow(s0, calls[..last], table, k);
      assert calls[..last][..k] == calls[..k];
    } else if last in Makers(s0, calls[..last], table) {
      MakersInRange(s0, calls[..last], table, last);
    }
  }

  // ---------------------------------------------------------------- what a row keeps of its call

  predicate OpenFor(shift: Shift, user: Id, station: Id) {
    shift.status == Open && shift.userId == user && shift.stationId == station
  }

  /** A sale that names a shift is booked on it; one that names none is booked on the caller's open
      shift at the station, if there is one. */
  ghost predicate Booked(s: State, user: Id, d: SaleData, shift: Option<Id>) {
    match d.shiftId
    case Some(k) => shift == Some(k)
    case None =>
      && (shift.Some? <==> exists k :: 0 <= k < |s.shifts| && OpenFor(s.shifts[k], user, d.stationId))
      && (shift.Some? ==> shift.value < |s.shifts| && OpenFor(s.shifts[shift.value], user, d.stationId))
  }

  ghost predicate SaleFrom(s: State, call: Call, x: FuelSale) {
    && call.op.Forecourt? && call.op.forecourt.CreateSale?
    && var d := call.op.forecourt.sale;
    && d.nozzleId < |s.nozzles|
    && x.nozzleId == d.nozzleId && x.stationId == d.stationId && x.fuelTypeId == d.fuelTypeId
    && x.customerId == d.customerId && x.saleType == d.saleType && x.rate == d.rate && x.createdAt == s.clock
    && x.openingMeter == s.nozzles[d.nozzleId].meterReading && x.closingMeter == d.closingMeter
    && x.quantity == x.closingMeter - x.openingMeter && x.totalAmount == x.quantity * d.rate
    && Booked(s, call.caller.userId, d, x.shiftId)
  }

  predicate AtRate(p: Purchase) {
    p.quantity != 0.0 ==> p.rate * p.quantity == p.totalAmount
  }

  ghost predicate PurchaseFrom(s: State, call: Call, p: Purchase) {
    && p.submittedBy == call.caller.userId && p.createdAt == s.clock
    && if call.op.Purchasing? then
         && call.op.purchasing.CreatePurchase?
         && var d := call.op.purchasing.purchase;
         && p.supplierId == d.supplierId && p.tankId == d.tankId && p.fuelTypeId == d.fuelTypeId
         && p.tankerId == d.tankerId && p.quantity == d.quantity && p.rate == d.rate
         && p.totalAmount == d.quantity * d.rate
       else
         && call.op.Hauling? && call.op.hauling.CompleteTrip? && call.op.hauling.tripId < |s.trips|
         && var trip := s.trips[call.op.hauling.tripId];
         && Some(p.supplierId) == trip.supplierId && Some(p.tankId) == trip.linkedTankId
         && p.fuelTypeId == trip.fuelTypeId && p.tankerId == Some(trip.tankerId)
         && p.quantity == RoundCents(Trips.Litres(trip.deliveries))
         && p.totalAmount == Trips.FuelWorth(trip.deliveries)
         && AtRate(p)
  }

  predicate CustomerPaymentFrom(s: State, call: Call, p: CustomerPayment) {
    && call.op.Paying? && call.op.paying.PayCustomer? && p.createdAt == s.clock
    && p.customerId == call.op.paying.customerId && p.stationId == call.op.paying.stationId
    && p.amount == call.op.paying.amount
  }

  predicate SupplierPaymentFrom(s: State, call: Call, p: SupplierPayment) {
    && call.op.Paying? && call.op.paying.PaySupplier? && p.createdAt == s.clock
    && p.supplierId == call.op.paying.supplierId && p.stationId == call.op.paying.stationId
    && p.amount == call.op.paying.amount
  }

  predicate DipFrom(s: State, call: Call, dip: TankDip) {
    && call.op.Forecourt? && call.op.forecourt.DipTank? && dip.tankId == call.op.forecourt.tankId < |s.tanks|
    && dip.calculatedVolume == call.op.forecourt.calculatedVolume
    && dip.systemVolume == s.tanks[dip.tankId].currentVolume
    && dip.lossGain == dip.calculatedVolume - dip.systemVolume
  }

  predicate AdjustmentFrom(s: State, call: Call, a: MeterAdjustment) {
    && call.op.Forecourt? && call.op.forecourt.AdjustMeter? && a.nozzleId == call.op.forecourt.nozzleId < |s.nozzles|
    && a.stationId == s.nozzles[a.nozzleId].stationId && a.oldReading == s.nozzles[a.nozzleId].meterReading
    && a.newReading == call.op.forecourt.newReading && a.adjustedBy == call.caller.userId
  }

  predicate TripFrom(s: State, call: Call, t: Trip) {
    && call.op.Hauling? && call.op.hauling.CreateTrip?
    && var d := call.op.hauling.trip;
    && d.tankerId < |s.tankers| && t.tankerId == d.tankerId && t.stationId == s.tankers[d.tankerId].stationId
    && t.supplierId == d.supplierId && t.fuelTypeId == d.fuelTypeId && t.tripType == d.tripType
    && t.linkedTankId == d.linkedTankId
  }

  predicate ShiftFrom(call: Call, shift: Shift) {
    && call.op.Staffing? && call.op.staffing.OpenShift?
    && shift.stationId == call.op.staffing.stationId && shift.userId == call.caller.userId
    && shift.initialCash == call.op.staffing.initialCash
  }

  function FuelValue(d: DeliveryData): real { d.quantity * d.fuelRate }

  /** Fuel and outstanding amount are in whole cents, each rounded once from what it is worth. */
  predicate DeliveryFrom(call: Call, row: Delivery) {
    && call.op.Hauling? && call.op.hauling.AddDelivery?
    && var d := call.op.hauling.delivery;
    && row.customerId == d.customerId && row.quantity == d.quantity && row.fuelRate == d.fuelRate
    && row.deliveryCharge == d.deliveryCharge && row.saleType == d.saleType && row.paidAmount == d.paidAmount
    && row.fuelAmount == RoundCents(FuelValue(d))
    && row.outstandingAmount == RoundCents(RoundCents(FuelValue(d) + d.deliveryCharge) - d.paidAmount)
  }

  /** Row `i` of the table now is one that this call, made in state `s`, would leave. */
  ghost predicate From(s: State, call: Call, table: Table, now: State, i: nat) {
    i < Size(now, table) &&
    match table
    case Sales => SaleFrom(s, call, now.sales[i])
    case Purchases => PurchaseFrom(s, call, now.purchases[i])
    case CustomerPayments => CustomerPaymentFrom(s, call, now.customerPayments[i])
    case SupplierPayments => SupplierPaymentFrom(s, call, now.supplierPayments[i])
    case Dips => DipFrom(s, call, now.dips[i])
    case Adjustments => AdjustmentFrom(s, call, now.adjustments[i])
    case TripRows => TripFrom(s, call, now.trips[i])
    case ShiftRows => ShiftFrom(call, now.shifts[i])
    case DeliveriesOf(t) => DeliveryFrom(call, now.trips[t].deliveries[i])
    case ExpensesOf(t) =>
      call.op.Hauling? && call.op.hauling.AddExpense? && now.trips[t].expenses[i] == call.op.hauling.amount
  }

  // ---------------------------------------------------------------- when the row is written

  lemma SaleWritten(s: State, u: Caller, d: SaleData)
    requires CreateSaleFault(s, u, d).None?
    ensures SaleFrom(s, Call(u, Forecourt(CreateSale(d))), SaleRow(s, u, d))
  {
    var shift := SaleRow(s, u, d).shiftId;
    if d.shiftId.None? && shift.None? {
      forall k | 0 <= k < |s.shifts| ensures !OpenFor(s.shifts[k], u.userId, d.stationId) {
        assert !IsOpenFor(s.shifts[k], u.userId, d.stationId);
      }
    }
  }

  lemma ForecourtWritten(s: State, u: Caller, op: ForecourtOp, table: Table)
    requires Adds(s, Call(u, Forecourt(op)), table)
    ensures From(s, Call(u, Forecourt(op)), table, ForecourtStep(s, u, op).state, Size(s, table))
  {
    if op.CreateSale? {
      SaleWritten(s, u, op.sale);
    }
  }

  lemma PurchaseWritten(s: State, u: Caller, op: PurchaseOp, table: Table)
    requires Adds(s, Call(u, Purchasing(op)), table)
    ensures From(s, Call(u, Purchasing(op)), table, PurchaseStep(s, u, op).state, Size(s, table))
  {
  }

  lemma PaymentWritten(s: State, u: Caller, op: PaymentOp, table: Table)
    requires Adds(s, Call(u, Paying(op)), table)
    ensures From(s, Call(u, Paying(op)), table, PaymentStep(s, u, op).state, Size(s, table))
  {
  }

  lemma TripPurchaseWritten(s: State, u: Caller, t: Id)
    requires Trips.TripsOk(s) && CompleteTripFault(s, u, t).None? && ToStation(s, t)
    ensures |CompleteTripEffect(s, u, t).purchases| == |s.purchases| + 1
    ensures PurchaseFrom(s, Call(u, Hauling(CompleteTrip(t))), CompleteTripEffect(s, u, t).purchases[|s.purchases|])
  {
    assert Trips.TripOk(s.trips[t], s.purchases);
    Trips.RecomputedTotals(s.trips[t]);
    RateFits(CompleteTripEffect(s, u, t).purchases[|s.purchases|]);
  }

  lemma RateFits(p: Purchase)
    requires p.rate == if p.quantity != 0.0 then p.totalAmount / p.quantity else 0.0
    ensures AtRate(p)
  {
  }

  lemma DeliveryWritten(s: State, u: Caller, t: Id, d: DeliveryData)
    requires AddDeliveryFault(s, u, t, d).None?
    ensures From(s, Call(u, Hauling(AddDelivery(t, d))), DeliveriesOf(t), AddDeliveryEffect(s, t, d),
                 |s.trips[t].deliveries|)
  {
    assert Gross(d) == FuelValue(d);
    assert DeliveryFrom(Call(u, Hauling(AddDelivery(t, d))), DeliveryRow(d));
  }

  lemma TripWritten(s: State, u: Caller, op: TripOp, table: Table)
    requires Trips.TripsOk(s) && Adds(s, Call(u, Hauling(op)), table)
    ensures From(s, Call(u, Hauling(op)), table, TripStep(s, u, op).state, Size(s, table))
  {
    match op
    case CompleteTrip(t) => TripPurchaseWritten(s, u, t);
    case AddDelivery(t, d) => DeliveryWritten(s, u, t, d);
    case _ =>
  }

  lemma RowWritten(s: State, call: Call, table: Table)
    requires Trips.TripsOk(s) && Adds(s, call, table)
    ensures From(s, call, table, Step(s, call), Size(s, table))
  {
    match call.op
    case Forecourt(op) => ForecourtWritten(s, call.caller, op, table);
    case Purchasing(op) => PurchaseWritten(s, call.caller, op, table);
    case Paying(op) => PaymentWritten(s, call.caller, op, table);
    case Hauling(op) => TripWritten(s, call.caller, op, table);
    case Staffing(op) =>
  }

  // ---------------------------------------------------------------- and afterwards

  /** A trip keeps what it was created with, and its deliveries and expenses are only ever added to. */
  predicate TripEvolves(a: Trip, b: Trip) {
    && b.tankerId == a.tankerId && b.stationId == a.stationId && b.supplierId == a.supplierId
    && b.fuelTypeId == a.fuelTypeId && b.tripType == a.tripType && b.linkedTankId == a.linkedTankId
    && a.deliveries <= b.deliveries && a.expenses <= b.expenses
  }

  ghost predicate TripsEvolve(s: State, t: State) {
    |s.trips| <= |t.trips| && forall i :: 0 <= i < |s.trips| ==> TripEvolves(s.trips[i], t.trips[i])
  }

  lemma StepKeepsTrips(s: State, call: Call)
    ensures TripsEvolve(s, Step(s, call))
  {
    if Perform(s, call).Ok? {
      Frame(s, call);
      if call.op.Hauling? {
        HaulingKeepsTrips(s, call.caller, call.op.hauling);
      }
    }
  }

  lemma HaulingKeepsTrips(s: State, u: Caller, op: TripOp)
    requires TripStep(s, u, op).Ok?
    ensures TripsEvolve(s, TripStep(s, u, op).state)
  {
  }

  lemma {:induction false} RunKeepsTrips(s: State, calls: seq<Call>)
    ensures TripsEvolve(s, Run(s, calls))
  {
    if calls != [] {
      var mid := Run(s, calls[..|calls| - 1]);
      RunKeepsTrips(s, calls[..|calls| - 1]);
      StepKeepsTrips(mid, calls[|calls| - 1]);
      assert forall i :: 0 <= i < |s.trips| ==> TripEvolves(s.trips[i], mid.trips[i]);
    }
  }

  lemma FromKept(s: State, call: Call, table: Table, a: State, b: State, i: nat)
    requires From(s, call, table, a, i) && History.Evolves(a, b) && TripsEvolve(a, b)
    ensures From(s, call, table, b, i)
  {
    match table
    case Sales => assert History.SaleEvolves(a.sales[i], b.sales[i]);
    case Purchases => assert History.PurchaseEvolves(a.purchases[i], b.purchases[i]);
    case CustomerPayments => assert History.CustomerPaymentEvolves(a.customerPayments[i], b.customerPayments[i]);
    case SupplierPayments => assert History.SupplierPaymentEvolves(a.supplierPayments[i], b.supplierPayments[i]);
    case TripRows => assert TripEvolves(a.trips[i], b.trips[i]);
    case ShiftRows => assert History.ShiftEvolves(a.shifts[i], b.shifts[i]);
    case DeliveriesOf(t) => assert TripEvolves(a.trips[t], b.trips[t]);
    case ExpensesOf(t) => assert TripEvolves(a.trips[t], b.trips[t]);
    case _ =>
  }

  /** The state after call `k` of a run leads on to the state at the end of it. */
  lemma RunFrom(s0: State, calls: seq<Call>, k: nat)
    requires k < |calls|
    ensures Run(s0, calls[..k + 1]) == Step(Run(s0, calls[..k]), calls[k])
    ensures Run(s0, calls) == Run(Run(s0, calls[..k + 1]), calls[k + 1..])
  {
    assert calls[..k + 1][..k] == calls[..k];
    assert calls == calls[..k + 1] + calls[k + 1..];
    History.RunsCompose(s0, calls[..k + 1], calls[k + 1..]);
  }

  /** In every reachable state, row `i` of a table was added by the `i`-th accepted call that adds to
      it, and still says what that call asked for in the state it was made in. */
  lemma RowsComeFromCalls(s0: State, calls: seq<Call>, table: Table, i: nat)
    requires Initial(s0) && i < Size(Run(s0, calls), table)
    ensures |Makers(s0, calls, table)| == Size(Run(s0, calls), table)
    ensures
      var k := Makers(s0, calls, table)[i];
      Made(s0, calls, table, k, i) && From(Run(s0, calls[..k]), calls[k], table, Run(s0, calls), i)
  {
    OneRowPerCall(s0, calls, table);
    var k := Makers(s0, calls, table)[i];
    assert Made(s0, calls, table, k, i);
    var s, after := Run(s0, calls[..k]), Run(s0, calls[..k + 1]);
    Trips.TripPosting(s0, calls[..k]);
    RowWritten(s, calls[k], table);
    RunFrom(s0, calls, k);
    History.RunEvolves(after, calls[k + 1..]);
    RunKeepsTrips(after, calls[k + 1..]);
    FromKept(s, calls[k], table, after, Run(s0, calls), i);
  }
}
