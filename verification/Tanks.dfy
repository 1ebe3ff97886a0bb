/** Tank volumes agree with the purchases, sales and dips on record. */
module Tanks {
  import opened Sums
  import opened Rows
  import opened Rules
  import opened Figures
  import opened Records

  lemma ForecourtTanks(s0: State, s: State, u: Caller, op: ForecourtOp)
    requires SameSite(s0, s) && TanksConserved(s0, s) && ForecourtStep(s, u, op).Ok?
    ensures TanksConserved(s0, ForecourtStep(s, u, op).state)
  {
    match op
    case CreateSale(d) =>
      SumsAppend(s.sales, SaleRow(s, u, d));
      assert SameNozzle(s.nozzles[d.nozzleId], s0.nozzles[d.nozzleId]);
    case DipTank(t, v) =>
      SumsAppend(s.dips, TankDip(t, v, s.tanks[t].currentVolume, v - s.tanks[t].currentVolume));
    case AdjustMeter(n, reading) =>
  }

  lemma PurchaseTanks(s0: State, s: State, u: Caller, op: PurchaseOp)
    requires SameSite(s0, s) && TanksConserved(s0, s) && PurchaseStep(s, u, op).Ok?
    requires GoodPurchases(s0, s.purchases, s.clock)
    ensures TanksConserved(s0, PurchaseStep(s, u, op).state)
  {
    match op
    case CreatePurchase(d) =>
      SumsAppend(s.purchases, PurchaseRow(s, u, d));
    case ApprovePurchase(i) =>
      SumsUpdate(s.purchases, i, s.purchases[i].(status := Approved, approvedBy := Some(u.userId)));
    case RejectPurchase(i) =>
      SumsUpdate(s.purchases, i, s.purchases[i].(status := Rejected, approvedBy := None));
  }

  lemma MarkTanks(s0: State, s: State, r: Record, rev: Reversal)
    requires SameSite(s0, s) && TanksConserved(s0, s)
    requires Exists(s, r) && rev.isReversed == Rev(s, r).isReversed
    ensures TanksConserved(s0, Mark(s, r, rev))
  {
    match r
    case SaleRecord(i) => SumsUpdate(s.sales, i, s.sales[i].(rev := rev));
    case PurchaseRecord(i) => SumsUpdate(s.purchases, i, s.purchases[i].(rev := rev));
    case CustomerPaymentRecord(i) =>
    case SupplierPaymentRecord(i) =>
  }

  lemma TakeBackTanks(s0: State, s: State, r: Record, rev: Reversal)
    requires SameSite(s0, s) && TanksConserved(s0, s)
    requires Exists(s, r) && InForce(s, r) && UndoFault(s, r).None? && !Rev(s, r).isReversed && rev.isReversed
    ensures TanksConserved(s0, TakeBack(s, r, rev))
  {
    match r
    case SaleRecord(i) =>
      SumsUpdate(s.sales, i, s.sales[i].(rev := rev));
      assert SameNozzle(s.nozzles[s.sales[i].nozzleId], s0.nozzles[s.sales[i].nozzleId]);
    case PurchaseRecord(i) => SumsUpdate(s.purchases, i, s.purchases[i].(rev := rev));
    case CustomerPaymentRecord(i) =>
    case SupplierPaymentRecord(i) =>
  }

  lemma TripTanks(s0: State, s: State, u: Caller, op: TripOp)
    requires SameSite(s0, s) && TanksConserved(s0, s) && TripStep(s, u, op).Ok?
    ensures TanksConserved(s0, TripStep(s, u, op).state)
  {
    if op.CompleteTrip? && s.trips[op.tripId].tripType.SupplierToStation? {
      var trip := Recomputed(s.trips[op.tripId]).(status := Completed, completedAt := Some(s.clock));
      SumsAppend(s.purchases, TripPurchase(s, u, trip));
    }
  }

  lemma ReversalTanks(s0: State, s: State, u: Caller, op: ReversalOp)
    requires SameSite(s0, s) && TanksConserved(s0, s) && ReversalStep(s, u, op).Ok?
    ensures TanksConserved(s0, ReversalStep(s, u, op).state)
  {
    var rev := ReversalShape(s, u, op);
    if op.RequestReversal? || op.RejectReversal? {
      MarkTanks(s0, s, op.record, rev);
    } else {
      TakeBackTanks(s0, s, op.record, rev);
    }
  }

  lemma TanksStep(s0: State, s: State, call: Call)
    requires SameSite(s0, s) && TanksConserved(s0, s) && GoodPurchases(s0, s.purchases, s.clock)
    requires Perform(s, call).Ok? && |Perform(s, call).state.tanks| == |s0.tanks|
    ensures TanksConserved(s0, Perform(s, call).state)
  {
    match call.op
    case Forecourt(op) => ForecourtTanks(s0, s, call.caller, op);
    case Purchasing(op) => PurchaseTanks(s0, s, call.caller, op);
    case Reversing(op) => ReversalTanks(s0, s, call.caller, op);
    case Hauling(op) => TripTanks(s0, s, call.caller, op);
    case _ => Frame(s, call);
  }

  /** Tank conservation over whole runs: whatever was sold, bought, reversed, hauled or dipped,
      in whatever order, the volume is the opening volume plus what the records add up to. */
  lemma {:induction false} TankConservation(s0: State, calls: seq<Call>)
    requires Initial(s0)
    ensures var s := Run(s0, calls); |s.tanks| == |s0.tanks| && TanksConserved(s0, s)
  {
    if calls != [] {
      var last := |calls| - 1;
      var s := Run(s0, calls[..last]);
      TankConservation(s0, calls[..last]);
      RunKeepsRecords(s0, calls[..last]);
      if Perform(s, calls[last]).Ok? {
        SiteStep(s0, s, calls[last]);
        TanksStep(s0, s, calls[last]);
      }
    }
  }

  // ---------------------------------------------------------------- bounds

  ghost predicate WithinCapacity(s: State) {
    forall t :: 0 <= t < |s.tanks| ==> 0.0 <= s.tanks[t].currentVolume <= s.tanks[t].capacity
  }

  /** The dips on record all read a volume the tank can hold. */
  ghost predicate DipsInRange(s0: State, s: State) {
    forall i :: 0 <= i < |s.dips| && s.dips[i].tankId < |s0.tanks| ==>
      0.0 <= s.dips[i].calculatedVolume <= s0.tanks[s.dips[i].tankId].capacity
  }

  lemma ForecourtBounds(s0: State, s: State, u: Caller, op: ForecourtOp)
    requires SameSite(s0, s) && WithinCapacity(s) && ForecourtStep(s, u, op).Ok?
    requires DipsInRange(s0, ForecourtStep(s, u, op).state)
    ensures DipsInRange(s0, s) && WithinCapacity(ForecourtStep(s, u, op).state)
  {
    var s' := ForecourtStep(s, u, op).state;
    assert forall i :: 0 <= i < |s.dips| ==> s'.dips[i] == s.dips[i];
    if op.DipTank? {
      assert s'.dips[|s.dips|].tankId == op.tankId;
      assert SameTank(s.tanks[op.tankId], s0.tanks[op.tankId]);
    }
  }

  lemma PurchaseBounds(s0: State, s: State, u: Caller, op: PurchaseOp)
    requires WithinCapacity(s) && GoodPurchases(s0, s.purchases, s.clock) && PurchaseStep(s, u, op).Ok?
    ensures WithinCapacity(PurchaseStep(s, u, op).state)
  {
  }

  lemma ReversalBounds(s0: State, s: State, u: Caller, op: ReversalOp)
    requires WithinCapacity(s) && ReversalStep(s, u, op).Ok?
    requires GoodSales(s0, s.sales, s.clock) && GoodPurchases(s0, s.purchases, s.clock)
    ensures WithinCapacity(ReversalStep(s, u, op).state)
  {
    var rev := ReversalShape(s, u, op);
  }

  lemma TripBounds(s0: State, s: State, u: Caller, op: TripOp)
    requires WithinCapacity(s) && GoodTrips(s0, s.trips) && TripStep(s, u, op).Ok?
    ensures WithinCapacity(TripStep(s, u, op).state)
  {
    if op.CompleteTrip? {
      TotalsNonNegative(s0, s.trips[op.tripId]);
    }
  }

  lemma BoundsStep(s0: State, s: State, call: Call)
    requires SameSite(s0, s) && GoodRecords(s0, s) && Perform(s, call).Ok?
    requires DipsInRange(s0, s) ==> WithinCapacity(s)
    ensures DipsInRange(s0, Perform(s, call).state) ==> WithinCapacity(Perform(s, call).state)
  {
    if DipsInRange(s0, Perform(s, call).state) {
      Frame(s, call);
      match call.op
      case Forecourt(op) =>
        DipsOnlyGrow(s0, s, call.caller, op);
        ForecourtBounds(s0, s, call.caller, op);
      case Purchasing(op) => PurchaseBounds(s0, s, call.caller, op);
      case Reversing(op) => ReversalBounds(s0, s, call.caller, op);
      case Hauling(op) => TripBounds(s0, s, call.caller, op);
      case _ =>
    }
  }

  lemma DipsOnlyGrow(s0: State, s: State, u: Caller, op: ForecourtOp)
    requires ForecourtStep(s, u, op).Ok? && DipsInRange(s0, ForecourtStep(s, u, op).state)
    ensures DipsInRange(s0, s)
  {
    var s' := ForecourtStep(s, u, op).state;
    assert forall i :: 0 <= i < |s.dips| ==> s'.dips[i] == s.dips[i];
  }

  /** From a start within bounds, a tank stays between empty and full as long as no dip ever read
      otherwise: purchases approved long after their capacity was checked are no exception. */
  lemma {:induction false} TankBounds(s0: State, calls: seq<Call>)
    requires Initial(s0) && WithinCapacity(s0)
    ensures DipsInRange(s0, Run(s0, calls)) ==> WithinCapacity(Run(s0, calls))
  {
    if calls != [] {
      var last := |calls| - 1;
      var s := Run(s0, calls[..last]);
      TankBounds(s0, calls[..last]);
      RunKeepsRecords(s0, calls[..last]);
      if Perform(s, calls[last]).Ok? {
        BoundsStep(s0, s, calls[last]);
      }
    }
  }
}
