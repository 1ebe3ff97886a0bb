/** What no run can do to a record once it is written: the reversal workflow is safe, and
    reversed records, reviewed purchases and closed shifts stay as they are. */
module History {
  import opened Rows
  import opened Rules
  import opened Figures
  import opened Records

  // ---------------------------------------------------------------- records only move forward

  predicate RevEvolves(a: Reversal, b: Reversal) {
    a.isReversed ==> b == a
  }

  predicate SaleEvolves(a: FuelSale, b: FuelSale) {
    b == a.(rev := b.rev) && RevEvolves(a.rev, b.rev)
  }

  predicate PurchaseEvolves(a: Purchase, b: Purchase) {
    && b == a.(rev := b.rev, status := b.status, approvedBy := b.approvedBy) && RevEvolves(a.rev, b.rev)
    && (a.status.Approved? || a.status.Rejected? ==> b.status == a.status && b.approvedBy == a.approvedBy)
  }

  predicate CustomerPaymentEvolves(a: CustomerPayment, b: CustomerPayment) {
    b == a.(rev := b.rev) && RevEvolves(a.rev, b.rev)
  }

  predicate SupplierPaymentEvolves(a: SupplierPayment, b: SupplierPayment) {
    b == a.(rev := b.rev) && RevEvolves(a.rev, b.rev)
  }

  predicate ShiftEvolves(a: Shift, b: Shift) {
    && b.stationId == a.stationId && b.userId == a.userId && b.initialCash == a.initialCash
    && (a.status.Closed? ==> b == a)
  }

  ghost predicate SalesEvolve(s: State, t: State) {
    |s.sales| <= |t.sales| && forall i :: 0 <= i < |s.sales| ==> SaleEvolves(s.sales[i], t.sales[i])
  }

  ghost predicate PurchasesEvolve(s: State, t: State) {
    |s.purchases| <= |t.purchases| && forall i :: 0 <= i < |s.purchases| ==>
      PurchaseEvolves(s.purchases[i], t.purchases[i])
  }

  ghost predicate PaymentsEvolve(s: State, t: State) {
    && |s.customerPayments| <= |t.customerPayments| && |s.supplierPayments| <= |t.supplierPayments|
    && (forall i :: 0 <= i < |s.customerPayments| ==>
      CustomerPaymentEvolves(s.customerPayments[i], t.customerPayments[i]))
    && (forall i :: 0 <= i < |s.supplierPayments| ==>
      SupplierPaymentEvolves(s.supplierPayments[i], t.supplierPayments[i]))
  }

  ghost predicate ShiftsEvolve(s: State, t: State) {
    |s.shifts| <= |t.shifts| && forall k :: 0 <= k < |s.shifts| ==> ShiftEvolves(s.shifts[k], t.shifts[k])
  }

  ghost predicate EventsKept(s: State, t: State) {
    s.dips <= t.dips && s.adjustments <= t.adjustments
  }

  ghost predicate Evolves(s: State, t: State) {
    SalesEvolve(s, t) && PurchasesEvolve(s, t) && PaymentsEvolve(s, t) && ShiftsEvolve(s, t) && EventsKept(s, t)
  }

  lemma ForecourtEvolves(s: State, u: Caller, op: ForecourtOp)
    requires ForecourtStep(s, u, op).Ok?
    ensures SalesEvolve(s, ForecourtStep(s, u, op).state) && EventsKept(s, ForecourtStep(s, u, op).state)
  {
  }

  lemma PurchaseOpEvolves(s: State, u: Caller, op: PurchaseOp)
    requires PurchaseStep(s, u, op).Ok?
    ensures PurchasesEvolve(s, PurchaseStep(s, u, op).state)
  {
  }

  lemma SetRevEvolves(s: State, t: State, r: Record, rev: Reversal)
    requires Exists(s, r) && !Rev(s, r).isReversed
    requires t.sales == SetRev(s, r, rev).sales && t.purchases == SetRev(s, r, rev).purchases
    requires t.customerPayments == SetRev(s, r, rev).customerPayments
    requires t.supplierPayments == SetRev(s, r, rev).supplierPayments
    ensures SalesEvolve(s, t) && PurchasesEvolve(s, t) && PaymentsEvolve(s, t)
  {
  }

  lemma ReversalEvolves(s: State, u: Caller, op: ReversalOp)
    requires ReversalStep(s, u, op).Ok?
    ensures var t := ReversalStep(s, u, op).state;
      SalesEvolve(s, t) && PurchasesEvolve(s, t) && PaymentsEvolve(s, t)
  {
    var rev := ReversalShape(s, u, op);
    SetRevEvolves(s, ReversalStep(s, u, op).state, op.record, rev);
  }

  lemma PaymentOpEvolves(s: State, u: Caller, op: PaymentOp)
    requires PaymentStep(s, u, op).Ok?
    ensures PaymentsEvolve(s, PaymentStep(s, u, op).state)
  {
  }

  lemma TripOpEvolves(s: State, u: Caller, op: TripOp)
    requires TripStep(s, u, op).Ok?
    ensures PurchasesEvolve(s, TripStep(s, u, op).state)
  {
  }

  lemma ShiftOpEvolves(s: State, u: Caller, op: ShiftOp)
    requires ShiftStep(s, u, op).Ok?
    ensures ShiftsEvolve(s, ShiftStep(s, u, op).state)
  {
  }

  lemma StepEvolves(s: State, call: Call)
    requires Perform(s, call).Ok?
    ensures Evolves(s, Perform(s, call).state)
  {
    Frame(s, call);
    match call.op
    case Forecourt(op) => ForecourtEvolves(s, call.caller, op);
    case Purchasing(op) => PurchaseOpEvolves(s, call.caller, op);
    case Paying(op) => PaymentOpEvolves(s, call.caller, op);
    case Reversing(op) => ReversalEvolves(s, call.caller, op);
    case Hauling(op) => TripOpEvolves(s, call.caller, op);
    case Staffing(op) => ShiftOpEvolves(s, call.caller, op);
    case Lending(op) =>
  }

  lemma EvolvesChains(a: State, b: State, c: State)
    requires Evolves(a, b) && Evolves(b, c)
    ensures Evolves(a, c)
  {
    assert forall i :: 0 <= i < |a.sales| ==>
      SaleEvolves(a.sales[i], b.sales[i]) && SaleEvolves(b.sales[i], c.sales[i]);
    assert forall i :: 0 <= i < |a.purchases| ==>
      PurchaseEvolves(a.purchases[i], b.purchases[i]) && PurchaseEvolves(b.purchases[i], c.purchases[i]);
    assert forall k :: 0 <= k < |a.shifts| ==>
      ShiftEvolves(a.shifts[k], b.shifts[k]) && ShiftEvolves(b.shifts[k], c.shifts[k]);
  }

  /** Through any run from any state, records are never lost or rewritten: a sale or payment keeps
      all but its reversal columns, a reversed record and a closed shift keep everything, a purchase
      once approved or rejected stays so, and dips and meter adjustments are only ever added. */
  lemma {:induction false} RunEvolves(s: State, calls: seq<Call>)
    ensures Evolves(s, Run(s, calls))
  {
    if calls != [] {
      var last := |calls| - 1;
      var mid := Run(s, calls[..last]);
      RunEvolves(s, calls[..last]);
      if Perform(mid, calls[last]).Ok? {
        StepEvolves(mid, calls[last]);
        EvolvesChains(s, mid, Run(s, calls));
      }
    }
  }

  lemma {:induction false} RunsCompose(s: State, first: seq<Call>, second: seq<Call>)
    ensures Run(s, first + second) == Run(Run(s, first), second)
  {
    if second == [] {
      assert first + second == first;
    } else {
      var last := |second| - 1;
      assert (first + second)[..|first| + last] == first + second[..last];
      RunsCompose(s, first, second[..last]);
    }
  }

  // ---------------------------------------------------------------- the reversal workflow

  /** This call takes back the effects of this record. */
  predicate TakesBack(s: State, call: Call, r: Record) {
    && call.op.Reversing? && call.op.reversing.record == r
    && (call.op.reversing.Reverse? || call.op.reversing.ApproveReversal?)
    && Perform(s, call).Ok?
  }

  /** How often a run takes back the effects of a record. */
  function TimesTakenBack(s: State, calls: seq<Call>, r: Record): nat {
    if calls == [] then 0
    else
      var last := |calls| - 1;
      TimesTakenBack(s, calls[..last], r) + (if TakesBack(Run(s, calls[..last]), calls[last], r) then 1 else 0)
  }

  predicate IsReversed(s: State, r: Record) {
    Exists(s, r) && Rev(s, r).isReversed
  }

  lemma AppendedNotReversed(s: State, call: Call, r: Record)
    requires Perform(s, call).Ok? && !Exists(s, r) && !call.op.Reversing?
    ensures !IsReversed(Perform(s, call).state, r)
  {
    Frame(s, call);
    match call.op
    case Forecourt(op) =>
    case Purchasing(op) =>
    case Paying(op) =>
    case Hauling(op) =>
    case _ =>
  }

  lemma OtherCallsKeepReversal(s: State, call: Call, r: Record)
    requires Perform(s, call).Ok? && Exists(s, r) && !call.op.Reversing?
    ensures Exists(Perform(s, call).state, r) && Rev(Perform(s, call).state, r) == Rev(s, r)
  {
    Frame(s, call);
    match call.op
    case Forecourt(op) =>
    case Purchasing(op) =>
    case Paying(op) =>
    case Hauling(op) =>
    case _ =>
  }

  lemma SetRevChangesOne(s: State, t: State, r: Record, rev: Reversal, q: Record)
    requires Exists(s, r) && t.sales == SetRev(s, r, rev).sales && t.purchases == SetRev(s, r, rev).purchases
    requires t.customerPayments == SetRev(s, r, rev).customerPayments
    requires t.supplierPayments == SetRev(s, r, rev).supplierPayments
    ensures IsReversed(t, q) <==> if q == r then rev.isReversed else IsReversed(s, q)
  {
    match r
    case SaleRecord(i) =>
    case PurchaseRecord(i) =>
    case CustomerPaymentRecord(i) =>
    case SupplierPaymentRecord(i) =>
  }

  lemma ReversingChangesOne(s: State, u: Caller, op: ReversalOp, r: Record)
    requires ReversalStep(s, u, op).Ok?
    ensures IsReversed(ReversalStep(s, u, op).state, r) <==>
            IsReversed(s, r) || (r == op.record && (op.Reverse? || op.ApproveReversal?))
    ensures r == op.record && (op.Reverse? || op.ApproveReversal?) ==> !IsReversed(s, r)
  {
    var rev := ReversalShape(s, u, op);
    ReversalSetsRev(s, u, op, rev);
    SetRevChangesOne(s, ReversalStep(s, u, op).state, op.record, rev, r);
  }

  lemma ReversalSetsRev(s: State, u: Caller, op: ReversalOp, rev: Reversal)
    requires ReversalStep(s, u, op).Ok? && Exists(s, op.record)
    requires ReversalStep(s, u, op).state == Mark(s, op.record, rev)
          || (UndoFault(s, op.record).None? && ReversalStep(s, u, op).state == TakeBack(s, op.record, rev))
    ensures var t := ReversalStep(s, u, op).state;
      && t.sales == SetRev(s, op.record, rev).sales && t.purchases == SetRev(s, op.record, rev).purchases
      && t.customerPayments == SetRev(s, op.record, rev).customerPayments
      && t.supplierPayments == SetRev(s, op.record, rev).supplierPayments
  {
    match op.record
    case SaleRecord(i) =>
    case PurchaseRecord(i) =>
    case CustomerPaymentRecord(i) =>
    case SupplierPaymentRecord(i) =>
  }

  lemma ReversedByTakingBack(s: State, call: Call, r: Record)
    requires Perform(s, call).Ok?
    ensures IsReversed(Perform(s, call).state, r) <==> IsReversed(s, r) || TakesBack(s, call, r)
    ensures TakesBack(s, call, r) ==> !IsReversed(s, r)
  {
    if call.op.Reversing? {
      ReversingChangesOne(s, call.caller, call.op.reversing, r);
    } else if Exists(s, r) {
      OtherCallsKeepReversal(s, call, r);
    } else {
      AppendedNotReversed(s, call, r);
    }
  }

  /** Over any run the effects of any record - sale, purchase, customer or supplier payment - are
      taken back exactly once if it ends up reversed, and never if it does not. */
  lemma {:induction false} TakenBackAtMostOnce(s0: State, calls: seq<Call>, r: Record)
    requires Initial(s0)
    ensures TimesTakenBack(s0, calls, r) == if IsReversed(Run(s0, calls), r) then 1 else 0
  {
    if calls != [] {
      var last := |calls| - 1;
      TakenBackAtMostOnce(s0, calls[..last], r);
      if Perform(Run(s0, calls[..last]), calls[last]).Ok? {
        ReversedByTakingBack(Run(s0, calls[..last]), calls[last], r);
      }
    }
  }

  /** No committed state holds an approved request whose record is not reversed, so without the
      administrator's right a direct reversal is always refused. */
  lemma ApprovalsAreCarriedOut(s0: State, calls: seq<Call>, r: Record, u: Caller)
    requires Initial(s0) && Exists(Run(s0, calls), r)
    ensures Rev(Run(s0, calls), r).review.Approved? ==> Rev(Run(s0, calls), r).isReversed
    ensures !u.isAdmin ==> ReversalStep(Run(s0, calls), u, Reverse(r)).Err?
  {
    RunKeepsRecords(s0, calls);
  }
}
