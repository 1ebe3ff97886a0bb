/** Who decided what: the status of every purchase and every reversal request, told from the accepted
    calls of the run, and what a decision moves. */
module Approvals {
  import opened Rows
  import opened Rules
  import opened Figures
  import Records
  import History
  import Log
  import Trips

  // ---------------------------------------------------------------- purchases

  /** Some call of the run is accepted and is this decision on a purchase. */
  ghost predicate Decided(s0: State, calls: seq<Call>, op: PurchaseOp) {
    exists j :: 0 <= j < |calls| && DecidedAt(s0, calls, op, j)
  }

  predicate DecidedAt(s0: State, calls: seq<Call>, op: PurchaseOp, j: nat)
    requires j < |calls|
  {
    calls[j].op == Purchasing(op) && Perform(Run(s0, calls[..j]), calls[j]).Ok?
  }

  lemma DecidedBefore(s0: State, calls: seq<Call>, op: PurchaseOp)
    requires calls != []
    ensures var last := |calls| - 1;
      Decided(s0, calls, op) <==> Decided(s0, calls[..last], op) || DecidedAt(s0, calls, op, last)
  {
    var last := |calls| - 1;
    forall j | 0 <= j < last ensures DecidedAt(s0, calls, op, j) == DecidedAt(s0, calls[..last], op, j) {
      assert calls[..last][..j] == calls[..j];
    }
  }

  /** An administrator's purchase needs no approval, and neither does a trip's. */
  predicate NeedsNone(call: Call) {
    call.op.Purchasing? ==> call.caller.isAdmin
  }

  ghost function StatusByCalls(s0: State, calls: seq<Call>, i: Id): Review
    requires i < |Log.Makers(s0, calls, Log.Purchases)|
  {
    Log.MakersInRange(s0, calls, Log.Purchases, Log.Makers(s0, calls, Log.Purchases)[i]);
    if NeedsNone(calls[Log.Makers(s0, calls, Log.Purchases)[i]]) || Decided(s0, calls, ApprovePurchase(i)) then Approved
    else if Decided(s0, calls, RejectPurchase(i)) then Rejected
    else Pending
  }

  lemma PurchaseStatusStep(s: State, call: Call, i: Id)
    requires Perform(s, call).Ok? && i < |s.purchases|
    ensures |s.purchases| <= |Perform(s, call).state.purchases|
    ensures
      var was, now := s.purchases[i].status, Perform(s, call).state.purchases[i].status;
      if call.op == Purchasing(ApprovePurchase(i)) then now == Approved && was != Approved && was != Rejected
      else if call.op == Purchasing(RejectPurchase(i)) then now == Rejected && was != Approved && was != Rejected
      else now == was
  {
    if call.op.Reversing? {
      var rev := ReversalShape(s, call.caller, call.op.reversing);
    } else {
      Frame(s, call);
    }
  }

  lemma NewPurchaseStatus(s: State, call: Call)
    requires Log.Adds(s, call, Log.Purchases)
    ensures |Perform(s, call).state.purchases| == |s.purchases| + 1
    ensures Perform(s, call).state.purchases[|s.purchases|].status == if NeedsNone(call) then Approved else Pending
  {
  }

  /** In every reachable state: a purchase is approved exactly when an administrator's accepted call or
      a completed trip created it, or an accepted call approved it; rejected exactly when it needed
      approval and an accepted call rejected it; and otherwise pending. */
  lemma {:induction false} PurchaseStatus(s0: State, calls: seq<Call>, i: Id)
    requires Initial(s0) && i < |Run(s0, calls).purchases|
    ensures |Log.Makers(s0, calls, Log.Purchases)| == |Run(s0, calls).purchases|
    ensures Run(s0, calls).purchases[i].status == StatusByCalls(s0, calls, i)
    ensures !(Decided(s0, calls, ApprovePurchase(i)) && Decided(s0, calls, RejectPurchase(i)))
  {
    Log.OneRowPerCall(s0, calls, Log.Purchases);
    var last := |calls| - 1;
    var s := Run(s0, calls[..last]);
    Log.OneRowPerCall(s0, calls[..last], Log.Purchases);
    Log.StepSize(s, calls[last], Log.Purchases);
    DecidedBefore(s0, calls, ApprovePurchase(i));
    DecidedBefore(s0, calls, RejectPurchase(i));
    if i < |s.purchases| {
      PurchaseStatus(s0, calls[..last], i);
      OldMaker(s0, calls, i);
      if Perform(s, calls[last]).Ok? {
        PurchaseStatusStep(s, calls[last], i);
      }
    } else {
      NewPurchaseStatus(s, calls[last]);
      NotDecidedYet(s0, calls[..last], i);
    }
  }

  lemma OldMaker(s0: State, calls: seq<Call>, i: Id)
    requires calls != [] && i < |Log.Makers(s0, calls[..|calls| - 1], Log.Purchases)|
    ensures i < |Log.Makers(s0, calls, Log.Purchases)|
    ensures Log.Makers(s0, calls, Log.Purchases)[i]
      == Log.Makers(s0, calls[..|calls| - 1], Log.Purchases)[i] < |calls| - 1
  {
    Log.MakersInRange(s0, calls[..|calls| - 1], Log.Purchases, Log.Makers(s0, calls[..|calls| - 1], Log.Purchases)[i]);
  }

  /** No purchase is decided before it exists. */
  lemma {:induction false} NotDecidedYet(s0: State, calls: seq<Call>, i: Id)
    requires |Run(s0, calls).purchases| <= i
    ensures !Decided(s0, calls, ApprovePurchase(i)) && !Decided(s0, calls, RejectPurchase(i))
  {
    if calls != [] {
      var last := |calls| - 1;
      Log.StepSize(Run(s0, calls[..last]), calls[last], Log.Purchases);
      NotDecidedYet(s0, calls[..last], i);
      DecidedBefore(s0, calls, ApprovePurchase(i));
      DecidedBefore(s0, calls, RejectPurchase(i));
    }
  }

  /** The tanker that brought a purchase is back in service. */
  ghost predicate TankerBack(s: State, after: State, tanker: Option<Id>) {
    && |after.tankers| == |s.tankers|
    && forall k :: 0 <= k < |s.tankers| ==>
         after.tankers[k] == if tanker == Some(k) then s.tankers[k].(status := "active") else s.tankers[k]
  }

  ghost predicate NothingSupplied(s: State, after: State) {
    after.tanks == s.tanks && after.suppliers == s.suppliers && after.tankers == s.tankers
  }

  lemma CreationMoves(s: State, u: Caller, d: PurchaseData)
    requires Perform(s, Call(u, Purchasing(CreatePurchase(d)))).Ok?
    ensures
      var after := Perform(s, Call(u, Purchasing(CreatePurchase(d)))).state;
      if u.isAdmin then
        && Trips.Supplied(s, after, d.tankId, d.quantity, d.supplierId, d.quantity * d.rate)
        && TankerBack(s, after, d.tankerId)
      else NothingSupplied(s, after)
  {
  }

  lemma ApprovalMoves(s: State, u: Caller, i: Id)
    requires Perform(s, Call(u, Purchasing(ApprovePurchase(i)))).Ok?
    ensures i < |s.purchases|
    ensures
      var after, p := Perform(s, Call(u, Purchasing(ApprovePurchase(i)))).state, s.purchases[i];
      && after.purchases == s.purchases[i := p.(status := Approved, approvedBy := Some(u.userId))]
      && Trips.Supplied(s, after, p.tankId, p.quantity, p.supplierId, p.totalAmount)
      && TankerBack(s, after, p.tankerId)
  {
  }

  /** What an accepted purchase call moves: nothing when someone without administrator rights submits
      it or when it is rejected; when it is approved, or submitted by an administrator, exactly the
      fuel of its tank, the debt to its supplier and the tanker that brought it. */
  lemma PurchaseMoves(s: State, u: Caller, op: PurchaseOp)
    requires Perform(s, Call(u, Purchasing(op))).Ok?
    ensures
      var after := Perform(s, Call(u, Purchasing(op))).state;
      match op
      case CreatePurchase(d) =>
        if u.isAdmin then
          && Trips.Supplied(s, after, d.tankId, d.quantity, d.supplierId, d.quantity * d.rate)
          && TankerBack(s, after, d.tankerId)
        else NothingSupplied(s, after)
      case ApprovePurchase(i) =>
        && i < |s.purchases|
        && var p := s.purchases[i];
        && after.purchases == s.purchases[i := p.(status := Approved, approvedBy := Some(u.userId))]
        && Trips.Supplied(s, after, p.tankId, p.quantity, p.supplierId, p.totalAmount)
        && TankerBack(s, after, p.tankerId)
      case RejectPurchase(i) =>
        && i < |s.purchases|
        && after.purchases == s.purchases[i := s.purchases[i].(status := Rejected, approvedBy := None)]
        && NothingSupplied(s, after)
  {
    match op
    case CreatePurchase(d) => CreationMoves(s, u, d);
    case ApprovePurchase(i) => ApprovalMoves(s, u, i);
    case RejectPurchase(i) =>
  }

  // ---------------------------------------------------------------- reversal requests

  datatype Kind = Requests | Decides | Reviews | Undoes | Any

  predicate IsOf(op: ReversalOp, kind: Kind) {
    match kind
    case Requests => op.RequestReversal?
    case Decides => op.ApproveReversal? || op.RejectReversal?
    case Reviews => !op.Reverse?
    case Undoes => op.Reverse? || op.ApproveReversal?
    case Any => true
  }

  /** The call is accepted, about the record, and of the kind. */
  predicate Concerns(s: State, call: Call, r: Record, kind: Kind) {
    call.op.Reversing? && call.op.reversing.record == r && IsOf(call.op.reversing, kind) && Perform(s, call).Ok?
  }

  /** The last accepted reversal call of the kind about the record. */
  function LastCall(s0: State, calls: seq<Call>, r: Record, kind: Kind): (last: Option<Call>)
    ensures last.Some? ==>
      last.value.op.Reversing? && last.value.op.reversing.record == r && IsOf(last.value.op.reversing, kind)
  {
    if calls == [] then None
    else
      var last := |calls| - 1;
      if Concerns(Run(s0, calls[..last]), calls[last], r, kind) then Some(calls[last])
      else LastCall(s0, calls[..last], r, kind)
  }

  function UserOf(call: Option<Call>): Option<Id> {
    if call.Some? then Some(call.value.caller.userId) else None
  }

  /** What a review call makes of the request: asked, approved or rejected. */
  function Outcome(call: Option<Call>): Review {
    match call
    case None => NotRequested
    case Some(c) =>
      if !c.op.Reversing? then NotRequested
      else if c.op.reversing.RequestReversal? then Pending
      else if c.op.reversing.ApproveReversal? then Approved
      else Rejected
  }

  /** The reversal columns of a record say who last did what about it. */
  ghost predicate TellsCalls(s0: State, calls: seq<Call>, r: Record, rev: Reversal) {
    && rev.review == Outcome(LastCall(s0, calls, r, Reviews))
    && (rev.isReversed <==> LastCall(s0, calls, r, Undoes).Some?)
    && rev.requestedBy == UserOf(LastCall(s0, calls, r, Requests))
    && rev.reversedBy == UserOf(LastCall(s0, calls, r, Undoes))
    && (rev.reviewedBy.Some? <==> rev.review == Approved || rev.review == Rejected)
    && (rev.reviewedBy.Some? ==> rev.reviewedBy == UserOf(LastCall(s0, calls, r, Decides)))
  }

  /** The columns after an accepted call about the record. */
  predicate ColumnsAfter(was: Reversal, now: Reversal, u: Caller, op: ReversalOp) {
    !was.isReversed &&
    match op
    case RequestReversal(_) =>
      && now.review == Pending && !now.isReversed && now.requestedBy == Some(u.userId) && now.reviewedBy == None
      && now.reversedBy == was.reversedBy
    case RejectReversal(_) =>
      && now.review == Rejected && !now.isReversed && now.requestedBy == was.requestedBy
      && now.reviewedBy == Some(u.userId) && now.reversedBy == was.reversedBy
    case ApproveReversal(_) =>
      && now.review == Approved && now.isReversed && now.requestedBy == was.requestedBy
      && now.reviewedBy == Some(u.userId) && now.reversedBy == Some(u.userId)
    case Reverse(_) =>
      && now.review == was.review && now.isReversed && now.requestedBy == was.requestedBy
      && now.reviewedBy == was.reviewedBy && now.reversedBy == Some(u.userId)
  }

  lemma ReversalColumns(s: State, u: Caller, op: ReversalOp)
    requires Perform(s, Call(u, Reversing(op))).Ok?
    ensures Exists(s, op.record) && Exists(Perform(s, Call(u, Reversing(op))).state, op.record)
    ensures ColumnsAfter(Rev(s, op.record), Rev(Perform(s, Call(u, Reversing(op))).state, op.record), u, op)
  {
    match op.record
    case SaleRecord(i) =>
    case PurchaseRecord(i) =>
    case CustomerPaymentRecord(i) =>
    case SupplierPaymentRecord(i) =>
  }

  lemma SetRevKeepsOthers(s: State, t: State, r: Record, rev: Reversal, q: Record)
    requires Exists(s, r) && q != r && t.sales == SetRev(s, r, rev).sales && t.purchases == SetRev(s, r, rev).purchases
    requires t.customerPayments == SetRev(s, r, rev).customerPayments
    requires t.supplierPayments == SetRev(s, r, rev).supplierPayments
    ensures Exists(t, q) == Exists(s, q) && (Exists(s, q) ==> Rev(t, q) == Rev(s, q))
  {
    match r
    case SaleRecord(i) =>
    case PurchaseRecord(i) =>
    case CustomerPaymentRecord(i) =>
    case SupplierPaymentRecord(i) =>
  }

  /** A call that is not about the record leaves its reversal columns alone. */
  lemma OtherReversals(s: State, u: Caller, op: ReversalOp, r: Record)
    requires Perform(s, Call(u, Reversing(op))).Ok? && op.record != r
    ensures var after := Perform(s, Call(u, Reversing(op))).state;
      Exists(after, r) == Exists(s, r) && (Exists(s, r) ==> Rev(after, r) == Rev(s, r))
  {
    var rev := ReversalShape(s, u, op);
    History.ReversalSetsRev(s, u, op, rev);
    SetRevKeepsOthers(s, ReversalStep(s, u, op).state, op.record, rev, r);
  }

  /** A record starts out unreversed, with no request. */
  lemma NewRecordIsFresh(s: State, call: Call, r: Record)
    requires Perform(s, call).Ok? && !call.op.Reversing? && !Exists(s, r) && Exists(Perform(s, call).state, r)
    ensures Rev(Perform(s, call).state, r) == Reversal(false, NotRequested, None, None, None, None)
  {
    Frame(s, call);
    match call.op
    case Forecourt(op) =>
    case Purchasing(op) =>
    case Paying(op) =>
    case Hauling(op) =>
    case _ =>
  }

  ghost predicate Unconcerned(s0: State, calls: seq<Call>, r: Record) {
    && LastCall(s0, calls, r, Requests).None? && LastCall(s0, calls, r, Decides).None?
    && LastCall(s0, calls, r, Reviews).None? && LastCall(s0, calls, r, Undoes).None?
    && LastCall(s0, calls, r, Any).None?
  }

  lemma ColumnsTellLast(s0: State, calls: seq<Call>, r: Record)
    requires calls != [] && Perform(Run(s0, calls[..|calls| - 1]), calls[|calls| - 1]).Ok?
    requires calls[|calls| - 1].op.Reversing? && calls[|calls| - 1].op.reversing.record == r
    requires Exists(Run(s0, calls[..|calls| - 1]), r)
    requires TellsCalls(s0, calls[..|calls| - 1], r, Rev(Run(s0, calls[..|calls| - 1]), r))
    ensures Exists(Run(s0, calls), r) && TellsCalls(s0, calls, r, Rev(Run(s0, calls), r))
  {
    var last := |calls| - 1;
    ReversalColumns(Run(s0, calls[..last]), calls[last].caller, calls[last].op.reversing);
    LastCallNow(s0, calls, r, Requests);
    LastCallNow(s0, calls, r, Decides);
    LastCallNow(s0, calls, r, Reviews);
    LastCallNow(s0, calls, r, Undoes);
  }

  lemma LastCallNow(s0: State, calls: seq<Call>, r: Record, kind: Kind)
    requires calls != [] && Concerns(Run(s0, calls[..|calls| - 1]), calls[|calls| - 1], r, Any)
    ensures LastCall(s0, calls, r, kind) ==
      if IsOf(calls[|calls| - 1].op.reversing, kind) then Some(calls[|calls| - 1])
      else LastCall(s0, calls[..|calls| - 1], r, kind)
  {
  }

  lemma LastCallKept(s0: State, calls: seq<Call>, r: Record, kind: Kind)
    requires calls != [] && !Concerns(Run(s0, calls[..|calls| - 1]), calls[|calls| - 1], r, Any)
    ensures LastCall(s0, calls, r, kind) == LastCall(s0, calls[..|calls| - 1], r, kind)
  {
  }

  /** In every reachable state the reversal columns of every record - sale, purchase, customer or
      supplier payment - are those its accepted reversal calls left. */
  lemma {:induction false} ReversalsTellCalls(s0: State, calls: seq<Call>, r: Record)
    requires Initial(s0)
    ensures if Exists(Run(s0, calls), r) then TellsCalls(s0, calls, r, Rev(Run(s0, calls), r))
      else Unconcerned(s0, calls, r)
  {
    if calls != [] {
      var last := |calls| - 1;
      var s, call := Run(s0, calls[..last]), calls[last];
      ReversalsTellCalls(s0, calls[..last], r);
      if Concerns(s, call, r, Any) {
        ReversalColumns(s, call.caller, call.op.reversing);
        ColumnsTellLast(s0, calls, r);
      } else {
        forall kind ensures LastCall(s0, calls, r, kind) == LastCall(s0, calls[..last], r, kind) {
          LastCallKept(s0, calls, r, kind);
        }
        if Perform(s, call).Ok? {
          RecordKept(s, call, r);
        }
      }
    }
  }

  lemma RecordKept(s: State, call: Call, r: Record)
    requires Perform(s, call).Ok? && !(call.op.Reversing? && call.op.reversing.record == r)
    ensures var after := Perform(s, call).state;
      && (Exists(s, r) ==> Exists(after, r) && Rev(after, r) == Rev(s, r))
      && (!Exists(s, r) && Exists(after, r) ==> Rev(after, r) == Reversal(false, NotRequested, None, None, None, None))
  {
    if call.op.Reversing? {
      OtherReversals(s, call.caller, call.op.reversing, r);
    } else if Exists(s, r) {
      History.OtherCallsKeepReversal(s, call, r);
    } else if Exists(Perform(s, call).state, r) {
      NewRecordIsFresh(s, call, r);
    }
  }

  lemma {:induction false} LastOfAll(s0: State, calls: seq<Call>, r: Record)
    ensures
      var last := LastCall(s0, calls, r, Any);
      && (last.Some? && !last.value.op.reversing.Reverse? ==> LastCall(s0, calls, r, Reviews) == last)
      && (last.None? ==> LastCall(s0, calls, r, Reviews).None?)
      && (LastCall(s0, calls, r, Undoes).None? ==>
            last == LastCall(s0, calls, r, Reviews) && (last.Some? ==> !IsOf(last.value.op.reversing, Undoes)))
  {
    if calls != [] {
      LastOfAll(s0, calls[..|calls| - 1], r);
    }
  }

  /** How a record stands after the last accepted reversal call about it. */
  predicate StandsAfter(rev: Reversal, last: Option<Call>)
    requires last.Some? ==> last.value.op.Reversing?
  {
    && (rev.isReversed <==>
          last.Some? && (last.value.op.reversing.Reverse? || last.value.op.reversing.ApproveReversal?))
    && (!rev.isReversed && rev.review == Pending <==> last.Some? && last.value.op.reversing.RequestReversal?)
    && (!rev.isReversed && rev.review == Rejected <==> last.Some? && last.value.op.reversing.RejectReversal?)
    && (!rev.isReversed && rev.review == NotRequested <==> last.None?)
  }

  lemma StandsByLast(rev: Reversal, any: Option<Call>, reviewed: Option<Call>, undone: Option<Call>)
    requires any.Some? ==> any.value.op.Reversing?
    requires undone.Some? ==> undone.value.op.Reversing? && IsOf(undone.value.op.reversing, Undoes) && any == undone
    requires undone.None? ==> any == reviewed && (any.Some? ==> !IsOf(any.value.op.reversing, Undoes))
    requires rev.review == Outcome(reviewed) && (rev.isReversed <==> undone.Some?)
    ensures StandsAfter(rev, any)
  {
  }

  /** A record that is not reversed is pending exactly when the last accepted reversal call about it is
      a request, and rejected exactly when it is a rejection; a direct reversal leaves a pending
      request pending. */
  lemma PendingAfterRequest(s0: State, calls: seq<Call>, r: Record)
    requires Initial(s0) && Exists(Run(s0, calls), r)
    ensures StandsAfter(Rev(Run(s0, calls), r), LastCall(s0, calls, r, Any))
  {
    ReversalsTellCalls(s0, calls, r);
    LastOfAll(s0, calls, r);
    ReversedStays(s0, calls, r);
    StandsByLast(Rev(Run(s0, calls), r), LastCall(s0, calls, r, Any), LastCall(s0, calls, r, Reviews),
                 LastCall(s0, calls, r, Undoes));
  }

  /** Nothing is accepted about a record once its effects are taken back. */
  lemma {:induction false} ReversedStays(s0: State, calls: seq<Call>, r: Record)
    requires Initial(s0)
    ensures LastCall(s0, calls, r, Undoes).Some? ==> LastCall(s0, calls, r, Any) == LastCall(s0, calls, r, Undoes)
  {
    if calls != [] {
      var last := |calls| - 1;
      var s, call := Run(s0, calls[..last]), calls[last];
      ReversedStays(s0, calls[..last], r);
      ReversalsTellCalls(s0, calls[..last], r);
      if Concerns(s, call, r, Any) {
        ReversalColumns(s, call.caller, call.op.reversing);
      }
    }
  }

  // ---------------------------------------------------------------- approving a request

  /** What taking the record back needs of the state. */
  predicate CanUndo(s: State, r: Record)
    requires Exists(s, r)
  {
    match r
    case SaleRecord(i) =>
      var x := s.sales[i];
      && x.nozzleId < |s.nozzles| && s.nozzles[x.nozzleId].meterReading == x.closingMeter
      && (s.nozzles[x.nozzleId].tankId < |s.tanks| ==>
            var tank := s.tanks[s.nozzles[x.nozzleId].tankId];
            tank.currentVolume + x.quantity <= tank.capacity)
      && (x.customerId.Some? ==>
            x.customerId.value < |s.customers| && x.totalAmount <= s.customers[x.customerId.value].outstandingBalance)
    case PurchaseRecord(i) =>
      var p := s.purchases[i];
      && p.tankId < |s.tanks| && p.quantity <= s.tanks[p.tankId].currentVolume
      && p.supplierId < |s.suppliers| && p.totalAmount <= s.suppliers[p.supplierId].payableBalance
    case CustomerPaymentRecord(i) => s.customerPayments[i].customerId < |s.customers|
    case SupplierPaymentRecord(i) => s.supplierPayments[i].supplierId < |s.suppliers|
  }

  lemma UndoneWhenPossible(s: State, r: Record)
    requires Exists(s, r)
    ensures UndoFault(s, r).None? <==> CanUndo(s, r)
  {
    match r
    case SaleRecord(i) =>
    case PurchaseRecord(i) =>
    case CustomerPaymentRecord(i) =>
    case SupplierPaymentRecord(i) =>
  }

  /** In every reachable state an authorised approval of a pending, unreversed record is accepted
      exactly when its effects can be taken back, for a payment always; and then the record is
      approved and reversed. */
  lemma PendingCanBeApproved(s0: State, calls: seq<Call>, r: Record, u: Caller)
    requires Initial(s0) && Exists(Run(s0, calls), r) && u.authorised
    requires Rev(Run(s0, calls), r).review == Pending && !Rev(Run(s0, calls), r).isReversed
    ensures
      var s := Run(s0, calls);
      var result := Perform(s, Call(u, Reversing(ApproveReversal(r))));
      && (result.Ok? <==> CanUndo(s, r))
      && (r.CustomerPaymentRecord? || r.SupplierPaymentRecord? ==> result.Ok?)
      && (result.Ok? ==> Exists(result.state, r) && Rev(result.state, r).isReversed
                         && Rev(result.state, r).review == Approved)
  {
    var s := Run(s0, calls);
    Records.RunKeepsRecords(s0, calls);
    UndoneWhenPossible(s, r);
    if Perform(s, Call(u, Reversing(ApproveReversal(r)))).Ok? {
      ReversalColumns(s, u, ApproveReversal(r));
    }
  }
}
