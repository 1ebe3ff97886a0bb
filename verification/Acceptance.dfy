/** When each call is accepted, stated as conditions on the state and the call that all have to hold -
    in whatever order the services check them. */
module Acceptance {
  import opened Money
  import opened Rows
  import opened Rules
  import Approvals
  import Trips

  // ---------------------------------------------------------------- forecourt

  /** A sale: the nozzle, its tank, the shift and the customer belong to the station and the fuel; the
      meter moves forward by no more than the tank holds; and credit stays within limit and override,
      where a limit of zero is none. */
  predicate MaySell(s: State, u: Caller, d: SaleData) {
    && u.authorised && d.stationId < s.stations && d.fuelTypeId < s.fuelTypes && d.rate > 0.0
    && d.nozzleId < |s.nozzles|
    && var nozzle := s.nozzles[d.nozzleId];
    && nozzle.stationId == d.stationId && nozzle.fuelTypeId == d.fuelTypeId
    && nozzle.meterReading <= d.closingMeter
    && var litres := d.closingMeter - nozzle.meterReading;
    && (nozzle.tankId < |s.tanks| ==>
          s.tanks[nozzle.tankId].fuelTypeId == d.fuelTypeId && litres <= s.tanks[nozzle.tankId].currentVolume)
    && (d.shiftId.Some? ==>
          && d.shiftId.value < |s.shifts| && s.shifts[d.shiftId.value].stationId == d.stationId
          && s.shifts[d.shiftId.value].status == Open)
    && (d.customerId.Some? ==>
          d.customerId.value < |s.customers| && s.customers[d.customerId.value].stationId == d.stationId)
    && (d.saleType == Credit ==>
          && d.customerId.Some?
          && var c := s.customers[d.customerId.value];
          c.creditLimit <= 0.0 || c.outstandingBalance + litres * d.rate <= c.creditLimit + c.overrideAmount)
  }

  predicate MayForecourt(s: State, u: Caller, op: ForecourtOp) {
    match op
    case CreateSale(d) => MaySell(s, u, d)
    case DipTank(t, _) => t < |s.tanks| && u.authorised
    case AdjustMeter(n, reading) =>
      n < |s.nozzles| && u.isAdmin && u.moduleEnabled && s.nozzles[n].meterReading != reading
  }

  // ---------------------------------------------------------------- purchases and payments

  /** Fuel can go into the tank. */
  predicate Fits(s: State, tank: Id, litres: real) {
    tank < |s.tanks| && s.tanks[tank].currentVolume + litres <= s.tanks[tank].capacity
  }

  predicate Undecided(s: State, u: Caller, i: Id) {
    i < |s.purchases| && u.authorised && s.purchases[i].status != Approved && s.purchases[i].status != Rejected
  }

  predicate MayPurchase(s: State, u: Caller, op: PurchaseOp) {
    match op
    case CreatePurchase(d) =>
      && u.authorised && d.quantity > 0.0 && d.rate > 0.0
      && d.supplierId < |s.suppliers| && d.fuelTypeId < s.fuelTypes
      && (d.tankerId.Some? ==> d.tankerId.value < |s.tankers|)
      && Fits(s, d.tankId, d.quantity) && s.tanks[d.tankId].fuelTypeId == d.fuelTypeId
    case ApprovePurchase(i) =>
      && Undecided(s, u, i) && s.purchases[i].supplierId < |s.suppliers|
      && Fits(s, s.purchases[i].tankId, s.purchases[i].quantity)
    case RejectPurchase(i) => Undecided(s, u, i)
  }

  predicate MayPay(s: State, u: Caller, op: PaymentOp) {
    match op
    case PayCustomer(c, st, amount) =>
      && u.authorised && c < |s.customers| && st < s.stations && s.customers[c].stationId == st
      && 0.0 < amount <= s.customers[c].outstandingBalance
    case PaySupplier(p, st, amount) =>
      && u.authorised && p < |s.suppliers| && st < s.stations && 0.0 < amount <= s.suppliers[p].payableBalance
  }

  // ---------------------------------------------------------------- reversals

  /** An authorised call on a record that has effects, not yet taken back; only a purchase may have none. */
  predicate Standing(s: State, u: Caller, r: Record) {
    && Exists(s, r) && u.authorised && !Rev(s, r).isReversed
  }

  predicate HasEffects(s: State, r: Record)
    requires Exists(s, r)
  {
    r.PurchaseRecord? ==> s.purchases[r.id].status == Approved
  }

  predicate MayReverse(s: State, u: Caller, op: ReversalOp) {
    var r := op.record;
    && Standing(s, u, r)
    && match op
       case RequestReversal(_) => HasEffects(s, r) && Rev(s, r).review != Pending
       case RejectReversal(_) => Rev(s, r).review == Pending
       case ApproveReversal(_) =>
         HasEffects(s, r) && (Rev(s, r).review == Pending || Rev(s, r).review == Approved) && Approvals.CanUndo(s, r)
       case Reverse(_) =>
         HasEffects(s, r) && (Rev(s, r).review == Approved || u.isAdmin) && Approvals.CanUndo(s, r)
  }

  // ---------------------------------------------------------------- trips, shifts, overrides

  /** What a delivery is worth: its fuel and its charge. */
  function WorthOf(d: DeliveryData): real { d.quantity * d.fuelRate + d.deliveryCharge }

  predicate MayHaul(s: State, u: Caller, op: TripOp) {
    && u.authorised && u.moduleEnabled
    && match op
       case CreateTrip(d) =>
         && d.tankerId < |s.tankers| && (d.supplierId.Some? ==> d.supplierId.value < |s.suppliers|)
         && ((d.tripType == SupplierToStation && d.linkedTankId.Some?)
             || (d.tripType == SupplierToCustomer && d.hasDestination))
         && (d.linkedTankId.Some? ==>
               && d.linkedTankId.value < |s.tanks|
               && s.tanks[d.linkedTankId.value].stationId == s.tankers[d.tankerId].stationId
               && s.tanks[d.linkedTankId.value].fuelTypeId == d.fuelTypeId)
       case AddDelivery(t, d) =>
         && t < |s.trips| && s.trips[t].status == InProgress
         && d.quantity > 0.0 && d.fuelRate > 0.0 && d.deliveryCharge >= 0.0
         && (d.saleType == Cash || (d.saleType == Credit && d.customerId.Some?))
         && (d.customerId.Some? ==>
               d.customerId.value < |s.customers| && s.customers[d.customerId.value].stationId == s.trips[t].stationId)
         && 0.0 <= d.paidAmount <= RoundCents(WorthOf(d))
       case AddExpense(t, amount) => t < |s.trips| && amount > 0.0
       case CompleteTrip(t) =>
         && t < |s.trips| && s.trips[t].status != Completed && s.trips[t].deliveries != []
         && (s.trips[t].tripType == SupplierToStation ==>
               && s.trips[t].supplierId.Some? && s.trips[t].supplierId.value < |s.suppliers|
               && s.trips[t].linkedTankId.Some?
               && Fits(s, s.trips[t].linkedTankId.value, RoundCents(Trips.Litres(s.trips[t].deliveries))))
  }

  predicate MayStaff(s: State, u: Caller, op: ShiftOp) {
    match op
    case OpenShift(st, _) =>
      && u.authorised && st < s.stations
      && forall k :: 0 <= k < |s.shifts| ==>
           !(s.shifts[k].status == Open && s.shifts[k].userId == u.userId && s.shifts[k].stationId == st)
    case CloseShift(k, _) => k < |s.shifts| && s.shifts[k].status == Open && s.shifts[k].userId == u.userId
  }

  predicate MayLend(s: State, u: Caller, op: OverrideOp) {
    && u.authorised && op.customerId < |s.customers|
    && if op.RequestOverride? then op.amount > 0.0 else s.customers[op.customerId].overrideStatus == Pending
  }

  predicate MayGoAhead(s: State, call: Call) {
    match call.op
    case Forecourt(op) => MayForecourt(s, call.caller, op)
    case Purchasing(op) => MayPurchase(s, call.caller, op)
    case Paying(op) => MayPay(s, call.caller, op)
    case Reversing(op) => MayReverse(s, call.caller, op)
    case Hauling(op) => MayHaul(s, call.caller, op)
    case Staffing(op) => MayStaff(s, call.caller, op)
    case Lending(op) => MayLend(s, call.caller, op)
  }

  // ---------------------------------------------------------------- exactly then

  lemma ForecourtAccepted(s: State, u: Caller, op: ForecourtOp)
    ensures ForecourtStep(s, u, op).Ok? <==> MayForecourt(s, u, op)
  {
  }

  lemma PurchaseAccepted(s: State, u: Caller, op: PurchaseOp)
    ensures PurchaseStep(s, u, op).Ok? <==> MayPurchase(s, u, op)
  {
  }

  lemma ReversalAccepted(s: State, u: Caller, op: ReversalOp)
    ensures ReversalStep(s, u, op).Ok? <==> MayReverse(s, u, op)
  {
    if Exists(s, op.record) {
      Approvals.UndoneWhenPossible(s, op.record);
    }
  }

  lemma ValueOfDelivery(d: DeliveryData)
    ensures TotalValue(d) == RoundCents(WorthOf(d))
  {
    assert Gross(d) + d.deliveryCharge == WorthOf(d);
  }

  lemma DeliveryAccepted(s: State, u: Caller, t: Id, d: DeliveryData)
    ensures AddDeliveryFault(s, u, t, d).None? <==> MayHaul(s, u, AddDelivery(t, d))
  {
    ValueOfDelivery(d);
  }

  lemma CompletionAccepted(s: State, u: Caller, t: Id)
    ensures CompleteTripFault(s, u, t).None? <==> MayHaul(s, u, CompleteTrip(t))
  {
    if t < |s.trips| {
      Trips.ColumnsAddUp(s.trips[t].deliveries);
    }
  }

  lemma TripAccepted(s: State, u: Caller, op: TripOp)
    ensures TripStep(s, u, op).Ok? <==> MayHaul(s, u, op)
  {
    match op
    case CreateTrip(d) =>
    case AddDelivery(t, d) => DeliveryAccepted(s, u, t, d);
    case AddExpense(t, amount) =>
    case CompleteTrip(t) => CompletionAccepted(s, u, t);
  }

  lemma ShiftAccepted(s: State, u: Caller, op: ShiftOp)
    ensures ShiftStep(s, u, op).Ok? <==> MayStaff(s, u, op)
  {
    if op.OpenShift? {
      assert forall k :: 0 <= k < |s.shifts| ==>
        (IsOpenFor(s.shifts[k], u.userId, op.stationId) <==>
           s.shifts[k].status == Open && s.shifts[k].userId == u.userId && s.shifts[k].stationId == op.stationId);
    }
  }

  /** In any state at all, a call is accepted exactly when its conditions hold. */
  lemma AcceptedExactlyWhen(s: State, call: Call)
    ensures Perform(s, call).Ok? <==> MayGoAhead(s, call)
  {
    match call.op
    case Forecourt(op) => ForecourtAccepted(s, call.caller, op);
    case Purchasing(op) => PurchaseAccepted(s, call.caller, op);
    case Paying(op) =>
    case Reversing(op) => ReversalAccepted(s, call.caller, op);
    case Hauling(op) => TripAccepted(s, call.caller, op);
    case Staffing(op) => ShiftAccepted(s, call.caller, op);
    case Lending(op) =>
  }
}
