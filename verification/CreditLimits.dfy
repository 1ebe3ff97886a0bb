/** Credit limits and the one-off overrides that may be granted above them. */
module CreditLimits {
  import opened Rows
  import opened Rules
  import opened Figures
  import opened Records
  import Balances
  import History

  /** An accepted credit sale to the customer. */
  predicate SellsTo(s: State, call: Call, c: Id) {
    && call.op.Forecourt? && call.op.forecourt.CreateSale?
    && call.op.forecourt.sale.saleType.Credit? && call.op.forecourt.sale.customerId == Some(c)
    && Perform(s, call).Ok?
  }

  /** A call about the customer's override, accepted or not. */
  predicate AboutOverride(call: Call, c: Id) {
    call.op.Lending? && call.op.lending.customerId == c
  }

  predicate ReviewsOverride(call: Call, c: Id) {
    AboutOverride(call, c) && !call.op.lending.RequestOverride?
  }

  /** By how much the balance after an accepted credit sale exceeds the limit. */
  function Excess(s: State, call: Call, c: Id): real
    requires c < |s.customers|
  {
    if SellsTo(s, call, c) && c < |Perform(s, call).state.customers| then
      Max(Perform(s, call).state.customers[c].outstandingBalance - s.customers[c].creditLimit, 0.0)
    else 0.0
  }

  // ---------------------------------------------------------------- what one call does to one customer

  lemma SaleCharges(s: State, call: Call, c: Id)
    requires SellsTo(s, call, c)
    ensures c < |s.customers| && |Perform(s, call).state.customers| == |s.customers|
    ensures var amount := SaleRow(s, call.caller, call.op.forecourt.sale).totalAmount;
      && amount >= 0.0 && !OverLimit(s.customers[c], amount)
      && Perform(s, call).state.customers[c] == Charge(s.customers[c], amount)
  {
    AmountSign(Quantity(s, call.op.forecourt.sale), call.op.forecourt.sale.rate);
  }

  /** Only the balance moves. */
  predicate OnlyBalance(a: Customer, b: Customer) {
    b == a.(outstandingBalance := b.outstandingBalance)
  }

  lemma ForecourtOther(s: State, u: Caller, op: ForecourtOp, c: Id)
    requires ForecourtStep(s, u, op).Ok? && c < |s.customers|
    requires !(op.CreateSale? && op.sale.saleType.Credit? && op.sale.customerId == Some(c))
    ensures |ForecourtStep(s, u, op).state.customers| == |s.customers|
    ensures ForecourtStep(s, u, op).state.customers[c] == s.customers[c]
  {
  }

  lemma ReversingOther(s0: State, s: State, u: Caller, op: ReversalOp, c: Id)
    requires ReversalStep(s, u, op).Ok? && c < |s.customers| && GoodSales(s0, s.sales, s.clock)
    ensures |ReversalStep(s, u, op).state.customers| == |s.customers|
    ensures OnlyBalance(s.customers[c], ReversalStep(s, u, op).state.customers[c])
    ensures !op.record.CustomerPaymentRecord? ==>
      ReversalStep(s, u, op).state.customers[c].outstandingBalance <= s.customers[c].outstandingBalance
  {
    var rev := ReversalShape(s, u, op);
  }

  lemma HaulingOther(s: State, u: Caller, op: TripOp, c: Id)
    requires TripStep(s, u, op).Ok? && c < |s.customers|
    ensures |TripStep(s, u, op).state.customers| == |s.customers|
    ensures OnlyBalance(s.customers[c], TripStep(s, u, op).state.customers[c])
    ensures !op.CompleteTrip? ==> TripStep(s, u, op).state.customers == s.customers
  {
    if op.CompleteTrip? {
      Balances.PostedDeliveries(s.customers, s.trips[op.tripId].deliveries, c);
    }
  }

  lemma LendingOther(s: State, u: Caller, op: OverrideOp, c: Id)
    requires OverrideStep(s, u, op).Ok? && c < |s.customers| && op.customerId != c
    ensures |OverrideStep(s, u, op).state.customers| == |s.customers|
    ensures OverrideStep(s, u, op).state.customers[c] == s.customers[c]
  {
  }

  /** Reversed payments and trip deliveries raise a balance without asking about the limit. */
  predicate RaisesUnchecked(call: Call) {
    || (call.op.Reversing? && call.op.reversing.record.CustomerPaymentRecord?)
    || (call.op.Hauling? && call.op.hauling.CompleteTrip?)
  }

  lemma OtherCalls(s0: State, s: State, call: Call, c: Id)
    requires Perform(s, call).Ok? && c < |s.customers| && GoodSales(s0, s.sales, s.clock)
    requires !SellsTo(s, call, c) && !AboutOverride(call, c)
    ensures |Perform(s, call).state.customers| == |s.customers|
    ensures OnlyBalance(s.customers[c], Perform(s, call).state.customers[c])
    ensures !RaisesUnchecked(call) ==>
      Perform(s, call).state.customers[c].outstandingBalance <= s.customers[c].outstandingBalance
  {
    Frame(s, call);
    match call.op
    case Forecourt(op) => ForecourtOther(s, call.caller, op, c);
    case Purchasing(op) =>
    case Paying(op) =>
    case Reversing(op) => ReversingOther(s0, s, call.caller, op, c);
    case Hauling(op) => HaulingOther(s, call.caller, op, c);
    case Staffing(op) =>
    case Lending(op) => LendingOther(s, call.caller, op, c);
  }

  // ---------------------------------------------------------------- overrides are never negative

  ghost predicate OverridesNonNegative(s: State) {
    forall c :: 0 <= c < |s.customers| ==>
      s.customers[c].overrideAmount >= 0.0 && s.customers[c].overrideRequested >= 0.0
  }

  lemma LendingNonNegative(s: State, u: Caller, op: OverrideOp)
    requires OverridesNonNegative(s) && OverrideStep(s, u, op).Ok?
    ensures OverridesNonNegative(OverrideStep(s, u, op).state)
  {
  }

  lemma OverridesStep(s0: State, s: State, call: Call)
    requires SameSite(s0, s) && OverridesNonNegative(s) && GoodSales(s0, s.sales, s.clock) && Perform(s, call).Ok?
    ensures OverridesNonNegative(Perform(s, call).state)
  {
    if call.op.Lending? {
      LendingNonNegative(s, call.caller, call.op.lending);
    } else {
      SiteStep(s0, s, call);
      forall c | 0 <= c < |s.customers|
        ensures Perform(s, call).state.customers[c].overrideAmount >= 0.0
          && Perform(s, call).state.customers[c].overrideRequested >= 0.0
      {
        if SellsTo(s, call, c) {
          SaleCharges(s, call, c);
        } else {
          OtherCalls(s0, s, call, c);
        }
      }
    }
  }

  lemma {:induction false} RunKeepsOverrides(s0: State, calls: seq<Call>)
    requires Initial(s0)
    ensures OverridesNonNegative(Run(s0, calls))
  {
    if calls != [] {
      var last := |calls| - 1;
      RunKeepsOverrides(s0, calls[..last]);
      RunKeepsRecords(s0, calls[..last]);
      if Perform(Run(s0, calls[..last]), calls[last]).Ok? {
        OverridesStep(s0, Run(s0, calls[..last]), calls[last]);
      }
    }
  }

  // ---------------------------------------------------------------- what an override is spent on

  /** All the excess a run of calls, starting after `before`, charged to the customer. */
  ghost function TotalExcess(s0: State, before: seq<Call>, after: seq<Call>, c: Id): real
    requires Initial(s0) && c < |s0.customers|
  {
    if after == [] then 0.0
    else
      var last := |after| - 1;
      RunKeepsRecords(s0, before + after[..last]);
      TotalExcess(s0, before, after[..last], c) + Excess(Run(s0, before + after[..last]), after[last], c)
  }

  lemma OverrideSpent(s0: State, s: State, call: Call, c: Id)
    requires SameSite(s0, s) && GoodSales(s0, s.sales, s.clock) && OverridesNonNegative(s)
    requires c < |s0.customers| && s0.customers[c].creditLimit > 0.0 && !ReviewsOverride(call, c)
    ensures |Step(s, call).customers| == |s.customers|
    ensures Step(s, call).customers[c].overrideAmount + Excess(s, call, c) == s.customers[c].overrideAmount
  {
    assert SameCustomer(s.customers[c], s0.customers[c]);
    if Perform(s, call).Ok? {
      SiteStep(s0, s, call);
      if SellsTo(s, call, c) {
        SaleCharges(s, call, c);
      } else if !AboutOverride(call, c) {
        OtherCalls(s0, s, call, c);
      }
    }
  }

  /** Conservation of an override, for a customer with a positive limit: as long as no approval or
      rejection intervenes, what is left of it plus the excess of every accepted over-limit sale is
      what there was. */
  lemma {:induction false} OverrideConservation(s0: State, before: seq<Call>, after: seq<Call>, c: Id)
    requires Initial(s0) && c < |s0.customers| && s0.customers[c].creditLimit > 0.0
    requires forall i :: 0 <= i < |after| ==> !ReviewsOverride(after[i], c)
    ensures |Run(s0, before).customers| == |Run(s0, before + after).customers| == |s0.customers|
    ensures Run(s0, before + after).customers[c].overrideAmount + TotalExcess(s0, before, after, c)
         == Run(s0, before).customers[c].overrideAmount
  {
    RunKeepsRecords(s0, before);
    RunKeepsRecords(s0, before + after);
    if after == [] {
      assert before + after == before;
    } else {
      var last := |after| - 1;
      var earlier := before + after[..last];
      assert (before + after)[..|before| + last] == earlier;
      OverrideConservation(s0, before, after[..last], c);
      RunKeepsRecords(s0, earlier);
      RunKeepsOverrides(s0, earlier);
      OverrideSpent(s0, Run(s0, earlier), after[last], c);
    }
  }

  // ---------------------------------------------------------------- what calls have granted

  /** The amount the customer's open request holds: that of the last accepted request, or nothing once
      a sale has drawn on an override. */
  function Held(s0: State, calls: seq<Call>, c: Id): real {
    if calls == [] then 0.0
    else
      var last := |calls| - 1;
      var s, call := Run(s0, calls[..last]), calls[last];
      if AboutOverride(call, c) && call.op.lending.RequestOverride? && Perform(s, call).Ok? then call.op.lending.amount
      else if DrawsOnOverride(s, call, c) then 0.0
      else Held(s0, calls[..last], c)
  }

  /** What the last accepted review granted: the amount held if it is an approval, nothing if it is a
      rejection, and nothing before the first. */
  function GrantedLast(s0: State, calls: seq<Call>, c: Id): real {
    if calls == [] then 0.0
    else
      var last := |calls| - 1;
      var s, call := Run(s0, calls[..last]), calls[last];
      if ReviewsOverride(call, c) && Perform(s, call).Ok? then
        if call.op.lending.ApproveOverride? then Held(s0, calls[..last], c) else 0.0
      else GrantedLast(s0, calls[..last], c)
  }

  /** After an accepted rejection the override is nothing; after an accepted approval it is the amount
      the request held. */
  lemma ReviewGrants(s: State, u: Caller, op: OverrideOp)
    requires OverrideStep(s, u, op).Ok?
    ensures
      var c, after := op.customerId, OverrideStep(s, u, op).state;
      && c < |s.customers| && |after.customers| == |s.customers|
      && match op
         case RequestOverride(_, amount) =>
           after.customers[c] == s.customers[c].(overrideStatus := Pending, overrideRequested := amount,
                                                 overrideRequestedBy := Some(u.userId), overrideReviewedBy := None)
         case ApproveOverride(_) =>
           && s.customers[c].overrideStatus == Pending
           && after.customers[c] == s.customers[c].(overrideStatus := Approved,
                overrideAmount := s.customers[c].overrideRequested, overrideReviewedBy := Some(u.userId))
         case RejectOverride(_) =>
           && s.customers[c].overrideStatus == Pending
           && after.customers[c] == s.customers[c].(overrideStatus := Rejected, overrideAmount := 0.0,
                overrideReviewedBy := Some(u.userId))
  {
  }

  /** What a call leaves of a request and an override it is not about. */
  lemma OverrideAfterCall(s0: State, s: State, call: Call, c: Id)
    requires SameSite(s0, s) && GoodSales(s0, s.sales, s.clock) && OverridesNonNegative(s)
    requires c < |s.customers| && !AboutOverride(call, c)
    ensures |Step(s, call).customers| == |s.customers|
    ensures
      var was, now := s.customers[c], Step(s, call).customers[c];
      && now.overrideAmount <= was.overrideAmount
      && now.overrideRequested == if DrawsOnOverride(s, call, c) then 0.0 else was.overrideRequested
  {
    if Perform(s, call).Ok? {
      if SellsTo(s, call, c) {
        SaleCharges(s, call, c);
      } else {
        OtherCalls(s0, s, call, c);
      }
    }
  }

  /** In every reachable state a customer's request holds what the calls make it hold, and their
      override is at most what the last accepted review granted: nothing unless it was an approval. */
  lemma {:induction false} GrantsComeFromCalls(s0: State, calls: seq<Call>, c: Id)
    requires Initial(s0) && c < |s0.customers|
    ensures |Run(s0, calls).customers| == |s0.customers|
    ensures Run(s0, calls).customers[c].overrideRequested == Held(s0, calls, c)
    ensures 0.0 <= Run(s0, calls).customers[c].overrideAmount <= GrantedLast(s0, calls, c)
  {
    RunKeepsRecords(s0, calls);
    RunKeepsOverrides(s0, calls);
    if calls != [] {
      var last := |calls| - 1;
      var s, call := Run(s0, calls[..last]), calls[last];
      GrantsComeFromCalls(s0, calls[..last], c);
      RunKeepsRecords(s0, calls[..last]);
      RunKeepsOverrides(s0, calls[..last]);
      if !AboutOverride(call, c) {
        OverrideAfterCall(s0, s, call, c);
      } else if Perform(s, call).Ok? {
        ReviewGrants(s, call.caller, call.op.lending);
      }
    }
  }

  /** The largest amount any accepted approval of the run granted the customer. */
  function PeakGrant(s0: State, calls: seq<Call>, c: Id): real {
    if calls == [] then 0.0
    else Max(PeakGrant(s0, calls[..|calls| - 1], c), GrantedLast(s0, calls, c))
  }

  lemma {:induction false} PeakWasGranted(s0: State, calls: seq<Call>, c: Id)
    requires Initial(s0) && c < |s0.customers|
    ensures PeakOverride(s0, calls, c) <= PeakGrant(s0, calls, c)
  {
    GrantsComeFromCalls(s0, calls, c);
    if calls != [] {
      PeakWasGranted(s0, calls[..|calls| - 1], c);
    }
  }

  // ---------------------------------------------------------------- how far a balance can go

  /** The largest override the customer had at any point of the run. */
  ghost function PeakOverride(s0: State, calls: seq<Call>, c: Id): real
    requires Initial(s0) && c < |s0.customers|
  {
    RunKeepsRecords(s0, calls);
    var now := Run(s0, calls).customers[c].overrideAmount;
    if calls == [] then now else Max(PeakOverride(s0, calls[..|calls| - 1], c), now)
  }

  /** All that payment reversals and trip deliveries added to the balance. */
  ghost function RaisedUnchecked(s0: State, calls: seq<Call>, c: Id): real
    requires Initial(s0) && c < |s0.customers|
  {
    if calls == [] then 0.0
    else
      var last := |calls| - 1;
      RunKeepsRecords(s0, calls[..last]);
      RunKeepsRecords(s0, calls);
      RaisedUnchecked(s0, calls[..last], c)
      + (if RaisesUnchecked(calls[last])
         then Max(Run(s0, calls).customers[c].outstandingBalance
           - Run(s0, calls[..last]).customers[c].outstandingBalance, 0.0)
         else 0.0)
  }

  lemma BalanceMove(s0: State, s: State, call: Call, c: Id)
    requires SameSite(s0, s) && GoodSales(s0, s.sales, s.clock) && OverridesNonNegative(s)
    requires c < |s0.customers| && s0.customers[c].creditLimit > 0.0
    ensures |Step(s, call).customers| == |s.customers|
    ensures var now, was := Step(s, call).customers[c].outstandingBalance, s.customers[c].outstandingBalance;
      now <= was || RaisesUnchecked(call) || now <= s0.customers[c].creditLimit + s.customers[c].overrideAmount
  {
    assert SameCustomer(s.customers[c], s0.customers[c]);
    if Perform(s, call).Ok? {
      SiteStep(s0, s, call);
      if SellsTo(s, call, c) {
        SaleCharges(s, call, c);
      } else if AboutOverride(call, c) {
        OverrideFrame(s, call.caller, call.op.lending);
      } else {
        OtherCalls(s0, s, call, c);
      }
    }
  }

  /** The balance of a customer with a positive limit never exceeds the limit plus the largest
      override they ever had, hence plus the largest an approval ever granted, and what reversed payments
      and trip deliveries added unchecked; so in runs without those it never exceeds limit plus grant. */
  lemma {:induction false} BalanceCeiling(s0: State, calls: seq<Call>, c: Id)
    requires Initial(s0) && c < |s0.customers| && s0.customers[c].creditLimit > 0.0
    ensures |Run(s0, calls).customers| == |s0.customers|
    ensures Run(s0, calls).customers[c].outstandingBalance
         <= s0.customers[c].creditLimit + PeakOverride(s0, calls, c) + RaisedUnchecked(s0, calls, c)
         <= s0.customers[c].creditLimit + PeakGrant(s0, calls, c) + RaisedUnchecked(s0, calls, c)
    ensures RaisedUnchecked(s0, calls, c) >= 0.0
    ensures (forall i :: 0 <= i < |calls| ==> !RaisesUnchecked(calls[i])) ==> RaisedUnchecked(s0, calls, c) == 0.0
  {
    RunKeepsRecords(s0, calls);
    PeakWasGranted(s0, calls, c);
    if calls != [] {
      var last := |calls| - 1;
      var s := Run(s0, calls[..last]);
      BalanceCeiling(s0, calls[..last], c);
      RunKeepsRecords(s0, calls[..last]);
      RunKeepsOverrides(s0, calls[..last]);
      BalanceMove(s0, s, calls[last], c);
      PeakIsAtLeast(s0, calls[..last], c);
    }
  }

  lemma PeakIsAtLeast(s0: State, calls: seq<Call>, c: Id)
    requires Initial(s0) && c < |s0.customers|
    ensures |Run(s0, calls).customers| == |s0.customers|
    ensures Run(s0, calls).customers[c].overrideAmount <= PeakOverride(s0, calls, c)
  {
    RunKeepsRecords(s0, calls);
  }

  // ---------------------------------------------------------------- pending requests

  /** An accepted credit sale that goes over the limit while some override is left. */
  predicate DrawsOnOverride(s: State, call: Call, c: Id) {
    && SellsTo(s, call, c) && c < |s.customers| && s.customers[c].overrideAmount > 0.0
    && s.customers[c].outstandingBalance + SaleAmount(s, call) > s.customers[c].creditLimit
  }

  function SaleAmount(s: State, call: Call): real
    requires call.op.Forecourt? && call.op.forecourt.CreateSale? && Perform(s, call).Ok?
  {
    SaleRow(s, call.caller, call.op.forecourt.sale).totalAmount
  }

  ghost predicate DrawnOn(s: State, calls: seq<Call>, c: Id) {
    exists i :: 0 <= i < |calls| && DrawsAt(s, calls, i, c)
  }

  ghost predicate DrawsAt(s: State, calls: seq<Call>, i: nat, c: Id)
    requires i < |calls|
  {
    DrawsOnOverride(Run(s, calls[..i]), calls[i], c)
  }

  lemma RequestAfterCall(s0: State, s: State, call: Call, c: Id)
    requires SameSite(s0, s) && GoodSales(s0, s.sales, s.clock) && c < |s.customers| && !AboutOverride(call, c)
    ensures |Step(s, call).customers| == |s.customers|
    ensures
      var was, now := s.customers[c], Step(s, call).customers[c];
      if DrawsOnOverride(s, call, c) then
        now.overrideRequested == 0.0 && now.overrideAmount >= 0.0
        && now.overrideStatus == if now.overrideAmount == 0.0 then NotRequested else was.overrideStatus
      else
        now.overrideRequested == was.overrideRequested && now.overrideAmount == was.overrideAmount
        && now.overrideStatus == was.overrideStatus
  {
    if Perform(s, call).Ok? {
      if SellsTo(s, call, c) {
        SaleCharges(s, call, c);
      } else {
        OtherCalls(s0, s, call, c);
      }
    }
  }

  lemma LaterRecords(s0: State, before: seq<Call>, after: seq<Call>)
    requires Initial(s0)
    ensures var s := Run(Run(s0, before), after); SameSite(s0, s) && GoodSales(s0, s.sales, s.clock)
  {
    RunKeepsRecords(s0, before + after);
    History.RunsCompose(s0, before, after);
  }

  /** The amount asked for is still pending after further calls exactly when none of them was a
      sale that drew on an override granted earlier: such a sale silently wipes the amount, and the
      request stays open as long as some of the old override is left. */
  lemma {:induction false} RequestSurvives(s0: State, before: seq<Call>, after: seq<Call>, c: Id)
    requires Initial(s0) && c < |s0.customers| && |Run(s0, before).customers| == |s0.customers|
    requires Run(s0, before).customers[c].overrideStatus.Pending?
    requires Run(s0, before).customers[c].overrideRequested > 0.0
    requires forall i :: 0 <= i < |after| ==> !AboutOverride(after[i], c)
    ensures |Run(Run(s0, before), after).customers| == |s0.customers|
    ensures
      var now := Run(Run(s0, before), after).customers[c];
      && now.overrideRequested
        == (if DrawnOn(Run(s0, before), after, c) then 0.0 else Run(s0, before).customers[c].overrideRequested)
      && (now.overrideStatus.Pending? <==> !DrawnOn(Run(s0, before), after, c) || now.overrideAmount > 0.0)
  {
    if after != [] {
      var last := |after| - 1;
      var s := Run(s0, before);
      RequestSurvives(s0, before, after[..last], c);
      LaterRecords(s0, before, after[..last]);
      RequestAfterCall(s0, Run(s, after[..last]), after[last], c);
      DrawnOnExtends(s, after, c);
    }
  }

  lemma DrawsAtPrefix(s: State, calls: seq<Call>, i: nat, n: nat, c: Id)
    requires i < n <= |calls|
    ensures DrawsAt(s, calls[..n], i, c) == DrawsAt(s, calls, i, c)
  {
    assert calls[..n][..i] == calls[..i];
  }

  lemma DrawnOnExtends(s: State, calls: seq<Call>, c: Id)
    requires calls != []
    ensures DrawnOn(s, calls, c) <==> DrawnOn(s, calls[..|calls| - 1], c) || DrawsAt(s, calls, |calls| - 1, c)
  {
    var last := |calls| - 1;
    forall i | 0 <= i < last ensures DrawsAt(s, calls[..last], i, c) == DrawsAt(s, calls, i, c) {
      DrawsAtPrefix(s, calls, i, last, c);
    }
  }

  /** An accepted request for an amount, any calls that are not about the override, and a review by an
      authorised user: the approval is refused exactly when sales meanwhile used an earlier override up,
      it grants the amount asked for when they drew nothing on it, and otherwise it grants nothing and
      wipes what was left of the earlier override. */
  lemma ApprovalGrants(s0: State, before: seq<Call>, u: Caller, amount: real, after: seq<Call>, reviewer: Caller, c: Id)
    requires Initial(s0) && c < |s0.customers| && reviewer.authorised
    requires Perform(Run(s0, before), Requesting(u, c, amount)).Ok?
    requires forall i :: 0 <= i < |after| ==> !AboutOverride(after[i], c)
    ensures
      var asked := Run(s0, before + [Requesting(u, c, amount)]);
      var open := Run(asked, after);
      var review := Perform(open, Call(reviewer, Lending(ApproveOverride(c))));
      && |open.customers| == |s0.customers|
      && (review.Ok? <==> !DrawnOn(asked, after, c) || open.customers[c].overrideAmount > 0.0)
      && (review.Ok? ==>
            && |review.state.customers| == |s0.customers|
            && review.state.customers[c].overrideAmount == if DrawnOn(asked, after, c) then 0.0 else amount)
  {
    var calls := before + [Requesting(u, c, amount)];
    RunKeepsRecords(s0, before);
    RunKeepsRecords(s0, calls);
    assert calls[..|before|] == before;
    RequestSurvives(s0, calls, after, c);
  }

  function Requesting(u: Caller, c: Id, amount: real): Call {
    Call(u, Lending(RequestOverride(c, amount)))
  }
}
