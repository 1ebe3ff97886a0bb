/** Nozzle meters: telescoping across segments, and the stack of standing sales. */
module Meters {
  import opened Sums
  import opened Rows
  import opened Rules
  import opened Figures
  import opened Records
  import History

  // ---------------------------------------------------------------- telescoping

  lemma MeterSale(s0: State, s: State, u: Caller, d: SaleData)
    requires |s.nozzles| == |s0.nozzles| && MetersTelescope(s0, s) && CreateSaleFault(s, u, d).None?
    ensures MetersTelescope(s0, CreateSaleEffect(s, u, d))
  {
    SumsAppend(s.sales, SaleRow(s, u, d));
  }

  lemma MeterAdjust(s0: State, s: State, u: Caller, n: Id, reading: real)
    requires |s.nozzles| == |s0.nozzles| && MetersTelescope(s0, s) && AdjustFault(s, u, n, reading).None?
    ensures MetersTelescope(s0, AdjustEffect(s, u, n, reading))
  {
    SumsAppend(s.adjustments,
               MeterAdjustment(n, s.nozzles[n].stationId, s.nozzles[n].meterReading, reading, u.userId));
  }

  lemma MeterForecourt(s0: State, s: State, u: Caller, op: ForecourtOp)
    requires |s.nozzles| == |s0.nozzles| && MetersTelescope(s0, s) && ForecourtStep(s, u, op).Ok?
    ensures MetersTelescope(s0, ForecourtStep(s, u, op).state)
  {
    match op
    case CreateSale(d) => MeterSale(s0, s, u, d);
    case DipTank(t, v) =>
    case AdjustMeter(n, reading) => MeterAdjust(s0, s, u, n, reading);
  }

  lemma MeterReversing(s0: State, s: State, u: Caller, op: ReversalOp)
    requires |s.nozzles| == |s0.nozzles| && MetersTelescope(s0, s) && GoodSales(s0, s.sales, s.clock)
    requires ReversalStep(s, u, op).Ok?
    ensures |ReversalStep(s, u, op).state.nozzles| == |s0.nozzles| && MetersTelescope(s0, ReversalStep(s, u, op).state)
  {
    var rev := ReversalShape(s, u, op);
    ReversalFrame(s, u, op);
    if op.record.SaleRecord? {
      SumsUpdate(s.sales, op.record.id, s.sales[op.record.id].(rev := rev));
    }
  }

  lemma SegmentSale(s0: State, s: State, u: Caller, d: SaleData)
    requires SegmentsTelescope(s) && CreateSaleFault(s, u, d).None?
    ensures SegmentsTelescope(CreateSaleEffect(s, u, d))
  {
    SumsAppend(s.sales, SaleRow(s, u, d));
  }

  /** A new segment starts with nothing dispensed and nothing taken back. */
  lemma SegmentAdjust(s0: State, s: State, u: Caller, n: Id, reading: real)
    requires SegmentsTelescope(s) && GoodSales(s0, s.sales, s.clock) && AdjustFault(s, u, n, reading).None?
    ensures SegmentsTelescope(AdjustEffect(s, u, n, reading))
  {
    SumZero(s.sales, DispensedSince(n, s.clock));
    SumZero(s.sales, TakenBackSince(n, s.clock));
  }

  lemma SegmentTakeBack(s: State, i: Id, rev: Reversal)
    requires SegmentsTelescope(s) && i < |s.sales| && UndoFault(s, SaleRecord(i)).None?
    requires !s.sales[i].rev.isReversed && s.sales[i].rev.reversedAt.None? && rev.isReversed
    requires rev.reversedAt == Some(s.clock)
    requires s.sales[i].quantity == s.sales[i].closingMeter - s.sales[i].openingMeter
    ensures SegmentsTelescope(TakeBack(s, SaleRecord(i), rev))
  {
    SumsUpdate(s.sales, i, s.sales[i].(rev := rev));
  }

  lemma SegmentMark(s: State, i: Id, rev: Reversal)
    requires SegmentsTelescope(s) && i < |s.sales|
    requires rev.isReversed == s.sales[i].rev.isReversed && rev.reversedAt == s.sales[i].rev.reversedAt
    ensures SegmentsTelescope(Mark(s, SaleRecord(i), rev))
  {
    SumsUpdate(s.sales, i, s.sales[i].(rev := rev));
  }

  lemma SegmentReversing(s0: State, s: State, u: Caller, op: ReversalOp)
    requires SegmentsTelescope(s) && GoodSales(s0, s.sales, s.clock) && ReversalStep(s, u, op).Ok?
    ensures SegmentsTelescope(ReversalStep(s, u, op).state)
  {
    var rev := ReversalShape(s, u, op);
    if !op.record.SaleRecord? {
    } else if op.Reverse? || op.ApproveReversal? {
      SegmentTakeBack(s, op.record.id, rev);
    } else {
      SegmentMark(s, op.record.id, rev);
    }
  }

  lemma SegmentForecourt(s0: State, s: State, u: Caller, op: ForecourtOp)
    requires SegmentsTelescope(s) && GoodSales(s0, s.sales, s.clock) && ForecourtStep(s, u, op).Ok?
    ensures SegmentsTelescope(ForecourtStep(s, u, op).state)
  {
    match op
    case CreateSale(d) => SegmentSale(s0, s, u, d);
    case DipTank(t, v) =>
    case AdjustMeter(n, reading) => SegmentAdjust(s0, s, u, n, reading);
  }

  lemma ReadingsForecourt(s: State, u: Caller, op: ForecourtOp)
    requires ReadingsMatch(s) && ForecourtStep(s, u, op).Ok?
    ensures ReadingsMatch(ForecourtStep(s, u, op).state)
  {
  }

  lemma ReadingsReversing(s: State, u: Caller, op: ReversalOp)
    requires ReadingsMatch(s) && ReversalStep(s, u, op).Ok?
    ensures ReadingsMatch(ReversalStep(s, u, op).state)
  {
    var rev := ReversalShape(s, u, op);
    var s' := ReversalStep(s, u, op).state;
    if op.record.SaleRecord? {
      assert s'.sales == s.sales[op.record.id := s.sales[op.record.id].(rev := rev)];
    }
  }

  lemma ReadingsStep(s: State, call: Call)
    requires ReadingsMatch(s) && Perform(s, call).Ok?
    ensures ReadingsMatch(Perform(s, call).state)
  {
    match call.op
    case Forecourt(op) => ReadingsForecourt(s, call.caller, op);
    case Reversing(op) => ReadingsReversing(s, call.caller, op);
    case _ => Frame(s, call);
  }

  lemma MetersStep(s0: State, s: State, call: Call)
    requires SameSite(s0, s) && MetersTelescope(s0, s) && SegmentsTelescope(s) && GoodSales(s0, s.sales, s.clock)
    requires Perform(s, call).Ok?
    ensures |Perform(s, call).state.nozzles| == |s0.nozzles|
    ensures MetersTelescope(s0, Perform(s, call).state) && SegmentsTelescope(Perform(s, call).state)
  {
    if call.op.Forecourt? {
      MeterForecourt(s0, s, call.caller, call.op.forecourt);
      SegmentForecourt(s0, s, call.caller, call.op.forecourt);
    } else if call.op.Reversing? {
      MeterReversing(s0, s, call.caller, call.op.reversing);
      SegmentReversing(s0, s, call.caller, call.op.reversing);
    } else {
      Frame(s, call);
    }
  }

  /** In every reachable state, whatever was reversed or adjusted on the way: a meter shows its
      first reading plus the quantities that stand plus the jumps of its adjustments; within the
      current segment it has moved by the segment's standing sales less the earlier sales taken
      back meanwhile; and each standing sale has its nozzle reading. */
  lemma {:induction false} MeterTelescoping(s0: State, calls: seq<Call>)
    requires Initial(s0)
    ensures var s := Run(s0, calls);
      |s.nozzles| == |s0.nozzles| && MetersTelescope(s0, s) && SegmentsTelescope(s) && ReadingsMatch(s)
  {
    if calls != [] {
      var last := |calls| - 1;
      var s := Run(s0, calls[..last]);
      MeterTelescoping(s0, calls[..last]);
      RunKeepsRecords(s0, calls[..last]);
      if Perform(s, calls[last]).Ok? {
        MetersStep(s0, s, calls[last]);
        ReadingsStep(s, calls[last]);
      }
    }
  }

  /** The documented rule for segments: a segment's standing sales add up to what its meter moved
      exactly when no sale of an earlier segment with fuel in it was reversed during the segment. */
  lemma SegmentRule(s0: State, calls: seq<Call>, n: Id)
    requires Initial(s0) && n < |s0.nozzles|
    ensures |Run(s0, calls).nozzles| == |s0.nozzles|
    ensures
      var s := Run(s0, calls);
      var nozzle := s.nozzles[n];
      Sum(s.sales, DispensedSince(n, nozzle.segmentStartedAt)) == nozzle.meterReading - nozzle.segmentStart
      <==> forall i :: 0 <= i < |s.sales| ==> !TakenBackLate(s.sales[i], n, nozzle.segmentStartedAt)
  {
    MeterTelescoping(s0, calls);
    RunKeepsRecords(s0, calls);
    var s := Run(s0, calls);
    var start := s.nozzles[n].segmentStartedAt;
    SumNonNegative(s.sales, TakenBackSince(n, start));
    if forall i :: 0 <= i < |s.sales| ==> !TakenBackLate(s.sales[i], n, start) {
      SumZero(s.sales, TakenBackSince(n, start));
    } else {
      var i :| 0 <= i < |s.sales| && TakenBackLate(s.sales[i], n, start);
      assert TakenBackSince(n, start)(s.sales[i]) > 0.0;
    }
  }

  predicate TakenBackLate(x: FuelSale, n: Id, start: nat) {
    x.nozzleId == n && x.quantity > 0.0 && x.createdAt < start && x.rev.reversedAt.Some?
      && x.rev.reversedAt.value >= start
  }

  // ---------------------------------------------------------------- the stack of standing sales

  /** A standing sale of the nozzle, made at `since` or later. */
  predicate StandsOn(x: FuelSale, n: Id, since: nat) {
    x.nozzleId == n && !x.rev.isReversed && x.createdAt >= since
  }

  /** The nozzle's standing sales since then, oldest first, lead from reading `from` to reading `to`
      without a gap: each opens where the one before it closed. */
  ghost predicate Chain(sales: seq<FuelSale>, n: Id, since: nat, from: real, to: real) {
    if sales == [] then from == to
    else
      var last, rest := sales[|sales| - 1], sales[..|sales| - 1];
      if StandsOn(last, n, since) then last.closingMeter == to && Chain(rest, n, since, from, last.openingMeter)
      else Chain(rest, n, since, from, to)
  }

  ghost predicate Measured(sales: seq<FuelSale>) {
    forall i :: 0 <= i < |sales| ==> sales[i].closingMeter - sales[i].openingMeter == sales[i].quantity >= 0.0
  }

  /** No standing sale of the nozzle above this one dispensed anything. */
  ghost predicate NothingAbove(sales: seq<FuelSale>, n: Id, since: nat, i: Id) {
    forall j :: i < j < |sales| && StandsOn(sales[j], n, since) ==> sales[j].quantity == 0.0
  }

  ghost predicate OnTop(sales: seq<FuelSale>, n: Id, since: nat, i: Id) {
    forall j :: i < j < |sales| ==> !StandsOn(sales[j], n, since)
  }

  /** The comparison of readings lets a sale of the chain through exactly when no standing sale above
      it dispensed anything. */
  lemma {:induction false} BelowTop(sales: seq<FuelSale>, n: Id, since: nat, from: real, to: real, i: Id)
    requires Chain(sales, n, since, from, to) && Measured(sales) && i < |sales| && StandsOn(sales[i], n, since)
    ensures sales[i].closingMeter <= to
    ensures sales[i].closingMeter == to <==> NothingAbove(sales, n, since, i)
  {
    var last := |sales| - 1;
    var rest := sales[..last];
    if i < last {
      BelowTop(rest, n, since, from, if StandsOn(sales[last], n, since) then sales[last].openingMeter else to, i);
      assert forall j :: 0 <= j < last ==> rest[j] == sales[j];
    }
  }

  /** A chain ends at one reading only. */
  lemma {:induction false} ChainEnd(sales: seq<FuelSale>, n: Id, since: nat, from: real, to: real, other: real)
    requires Chain(sales, n, since, from, to) && Chain(sales, n, since, from, other)
    ensures to == other
  {
    if sales != [] {
      var last := |sales| - 1;
      if !StandsOn(sales[last], n, since) {
        ChainEnd(sales[..last], n, since, from, to, other);
      }
    }
  }

  /** A row that stays in the chain, or out of it, leaves the chain as it was. */
  lemma {:induction false} ChainUntouched(
    sales: seq<FuelSale>, n: Id, since: nat, from: real, to: real, i: Id, rev: Reversal)
    requires i < |sales|
    requires StandsOn(sales[i].(rev := rev), n, since) == StandsOn(sales[i], n, since)
    ensures Chain(sales[i := sales[i].(rev := rev)], n, since, from, to) == Chain(sales, n, since, from, to)
  {
    var last := |sales| - 1;
    var marked := sales[i := sales[i].(rev := rev)];
    if i == last {
      assert marked[..last] == sales[..last];
    } else {
      assert marked[..last] == sales[..last][i := sales[i].(rev := rev)];
      ChainUntouched(sales[..last], n, since, from,
                     if StandsOn(sales[last], n, since) then sales[last].openingMeter else to, i, rev);
    }
  }

  /** Taking back the sale on top shortens the chain by it. */
  lemma {:induction false} DropTop(
    sales: seq<FuelSale>, n: Id, since: nat, from: real, to: real, i: Id, rev: Reversal)
    requires Chain(sales, n, since, from, to) && rev.isReversed
    requires i < |sales| && StandsOn(sales[i], n, since) && OnTop(sales, n, since, i)
    ensures Chain(sales[i := sales[i].(rev := rev)], n, since, from, sales[i].openingMeter)
  {
    var last := |sales| - 1;
    var popped := sales[i := sales[i].(rev := rev)];
    if i == last {
      assert popped[..last] == sales[..last];
    } else {
      assert !StandsOn(sales[last], n, since);
      assert popped[..last] == sales[..last][i := sales[i].(rev := rev)];
      DropTop(sales[..last], n, since, from, to, i, rev);
    }
  }

  /** Taking back a sale of no litres does not open a gap, wherever it was. */
  lemma {:induction false} DropEmpty(
    sales: seq<FuelSale>, n: Id, since: nat, from: real, to: real, i: Id, rev: Reversal)
    requires Chain(sales, n, since, from, to) && Measured(sales) && rev.isReversed
    requires i < |sales| && StandsOn(sales[i], n, since) && sales[i].quantity == 0.0
    ensures Chain(sales[i := sales[i].(rev := rev)], n, since, from, to)
  {
    var last := |sales| - 1;
    var dropped := sales[i := sales[i].(rev := rev)];
    if i == last {
      assert dropped[..last] == sales[..last];
    } else {
      assert dropped[..last] == sales[..last][i := sales[i].(rev := rev)];
      DropEmpty(sales[..last], n, since, from,
                if StandsOn(sales[last], n, since) then sales[last].openingMeter else to, i, rev);
    }
  }

  /** Whether taking the sale back leaves a gap: it holds litres, and it is not the chain's top. */
  ghost predicate LeavesGap(sales: seq<FuelSale>, n: Id, since: nat, i: Id)
    requires i < |sales|
  {
    sales[i].quantity > 0.0 && !(sales[i].createdAt >= since && OnTop(sales, n, since, i))
  }

  /** With litres in it and another sale above it, or from before the chain, a sale cannot be taken
      back without leaving a gap. */
  lemma GapOpens(sales: seq<FuelSale>, n: Id, since: nat, from: real, to: real, i: Id, rev: Reversal)
    requires Chain(sales, n, since, from, to) && Measured(sales) && rev.isReversed && i < |sales|
    requires sales[i].nozzleId == n && !sales[i].rev.isReversed && sales[i].closingMeter == to
    requires LeavesGap(sales, n, since, i)
    ensures !Chain(sales[i := sales[i].(rev := rev)], n, since, from, sales[i].openingMeter)
  {
    var after := sales[i := sales[i].(rev := rev)];
    if Chain(after, n, since, from, sales[i].openingMeter) {
      if sales[i].createdAt < since {
        ChainUntouched(sales, n, since, from, to, i, rev);
        ChainEnd(after, n, since, from, to, sales[i].openingMeter);
      } else {
        var j :| i < j < |sales| && StandsOn(sales[j], n, since);
        BelowTop(sales, n, since, from, to, i);
        BelowTop(sales, n, since, from, to, j);
        BelowTop(after, n, since, from, sales[i].openingMeter, j);
      }
    }
  }

  /** A sale whose closing reading is the meter's is taken back, and the meter set to its opening
      reading: what stands still leads up to the meter exactly when this leaves no gap. */
  lemma Pop(sales: seq<FuelSale>, n: Id, since: nat, from: real, to: real, i: Id, rev: Reversal)
    requires Chain(sales, n, since, from, to) && Measured(sales) && rev.isReversed && i < |sales|
    requires sales[i].nozzleId == n && !sales[i].rev.isReversed && sales[i].closingMeter == to
    ensures Chain(sales[i := sales[i].(rev := rev)], n, since, from, sales[i].openingMeter)
            <==> !LeavesGap(sales, n, since, i)
  {
    if LeavesGap(sales, n, since, i) {
      GapOpens(sales, n, since, from, to, i, rev);
    } else if sales[i].createdAt < since {
      ChainUntouched(sales, n, since, from, to, i, rev);
    } else if sales[i].quantity == 0.0 {
      DropEmpty(sales, n, since, from, to, i, rev);
    } else {
      DropTop(sales, n, since, from, to, i, rev);
    }
  }

  // ---------------------------------------------------------------- when the stack holds

  /** The call is accepted and takes back, from under a standing sale or from before `since`, a sale
      of the nozzle with litres in it. */
  ghost predicate PullsOut(s: State, call: Call, n: Id, since: nat) {
    && call.op.Reversing? && call.op.reversing.record.SaleRecord?
    && History.TakesBack(s, call, call.op.reversing.record)
    && Exists(s, call.op.reversing.record)
    && s.sales[call.op.reversing.record.id].nozzleId == n
    && LeavesGap(s.sales, n, since, call.op.reversing.record.id)
  }

  predicate SetsMeter(s: State, call: Call, n: Id) {
    && call.op.Forecourt? && call.op.forecourt.AdjustMeter? && call.op.forecourt.nozzleId == n
    && Perform(s, call).Ok?
  }

  lemma ChainSale(s: State, u: Caller, d: SaleData, n: Id, since: nat, from: real)
    requires n < |s.nozzles| && since <= s.clock && CreateSaleFault(s, u, d).None?
    requires Chain(s.sales, n, since, from, s.nozzles[n].meterReading)
    ensures
      var t := CreateSaleEffect(s, u, d);
      |t.nozzles| == |s.nozzles| && Chain(t.sales, n, since, from, t.nozzles[n].meterReading)
  {
    assert CreateSaleEffect(s, u, d).sales[..|s.sales|] == s.sales;
  }

  lemma ChainReversing(s0: State, s: State, u: Caller, op: ReversalOp, n: Id, since: nat, from: real)
    requires n < |s.nozzles| && GoodSales(s0, s.sales, s.clock) && ReversalStep(s, u, op).Ok?
    requires Chain(s.sales, n, since, from, s.nozzles[n].meterReading)
    ensures
      var t := ReversalStep(s, u, op).state;
      && |t.nozzles| == |s.nozzles|
      && (Chain(t.sales, n, since, from, t.nozzles[n].meterReading)
          <==> !PullsOut(s, Call(u, Reversing(op)), n, since))
  {
    var rev := ReversalShape(s, u, op);
    ReversalFrame(s, u, op);
    if op.record.SaleRecord? {
      var i, to := op.record.id, s.nozzles[n].meterReading;
      if rev.isReversed && s.sales[i].nozzleId == n {
        Pop(s.sales, n, since, from, to, i, rev);
      } else {
        ChainUntouched(s.sales, n, since, from, to, i, rev);
      }
    }
  }

  /** One transaction that does not set the meter: a chain up to the meter survives it exactly when it
      pulls no sale out. */
  lemma ChainStep(s0: State, s: State, call: Call, n: Id, since: nat, from: real)
    requires n < |s.nozzles| && since <= s.clock && GoodSales(s0, s.sales, s.clock) && !SetsMeter(s, call, n)
    requires Chain(s.sales, n, since, from, s.nozzles[n].meterReading)
    ensures |Step(s, call).nozzles| == |s.nozzles|
    ensures Chain(Step(s, call).sales, n, since, from, Step(s, call).nozzles[n].meterReading)
            <==> !PullsOut(s, call, n, since)
  {
    if Perform(s, call).Ok? {
      Frame(s, call);
      if call.op.Reversing? {
        ChainReversing(s0, s, call.caller, call.op.reversing, n, since, from);
      } else if call.op.Forecourt? && call.op.forecourt.CreateSale? {
        ChainSale(s, call.caller, call.op.forecourt.sale, n, since, from);
      }
    }
  }

  /** All standing sales of the nozzle lead from its first reading to its meter. */
  ghost predicate Stacked(s0: State, s: State, n: Id) {
    n < |s0.nozzles| && n < |s.nozzles| &&
    Chain(s.sales, n, 0, s0.nozzles[n].meterReading, s.nozzles[n].meterReading)
  }

  /** The standing sales of the nozzle's current segment lead from its start to the meter. */
  ghost predicate SegmentStacked(s: State, n: Id) {
    n < |s.nozzles| &&
    Chain(s.sales, n, s.nozzles[n].segmentStartedAt, s.nozzles[n].segmentStart, s.nozzles[n].meterReading)
  }

  lemma StackStep(s0: State, s: State, call: Call, n: Id)
    requires GoodSales(s0, s.sales, s.clock) && Stacked(s0, s, n)
    ensures Stacked(s0, Step(s, call), n) <==> !SetsMeter(s, call, n) && !PullsOut(s, call, n, 0)
  {
    var from := s0.nozzles[n].meterReading;
    if SetsMeter(s, call, n) {
      if Stacked(s0, Step(s, call), n) {
        ChainEnd(s.sales, n, 0, from, s.nozzles[n].meterReading, call.op.forecourt.newReading);
      }
    } else {
      ChainStep(s0, s, call, n, 0, from);
    }
  }

  /** The nozzle is stacked after the first `k` calls. */
  ghost predicate StackedAt(s0: State, calls: seq<Call>, n: Id, k: nat)
    requires k <= |calls|
  {
    Stacked(s0, Run(s0, calls[..k]), n)
  }

  /** Call `k` of the run is accepted, and it sets the meter or pulls a sale out of the stack. */
  ghost predicate UnstacksAt(s0: State, calls: seq<Call>, n: Id, k: nat)
    requires k < |calls|
  {
    SetsMeter(Run(s0, calls[..k]), calls[k], n) || PullsOut(Run(s0, calls[..k]), calls[k], n, 0)
  }

  lemma StackPrefix(s0: State, calls: seq<Call>, n: Id, k: nat)
    requires Initial(s0) && k < |calls| && StackedAt(s0, calls, n, k)
    ensures StackedAt(s0, calls, n, k + 1) <==> !UnstacksAt(s0, calls, n, k)
  {
    RunKeepsRecords(s0, calls[..k]);
    StackStep(s0, Run(s0, calls[..k]), calls[k], n);
    assert calls[..k + 1][..k] == calls[..k];
  }

  lemma {:induction false} StaysStacked(s0: State, calls: seq<Call>, n: Id, k: nat)
    requires Initial(s0) && n < |s0.nozzles| && k <= |calls|
    requires forall j :: 0 <= j < k ==> !UnstacksAt(s0, calls, n, j)
    ensures StackedAt(s0, calls, n, k)
  {
    if k > 0 {
      StaysStacked(s0, calls, n, k - 1);
      StackPrefix(s0, calls, n, k - 1);
    }
  }

  /** The stack rule. All standing sales of a nozzle lead without a gap from its first reading to its
      meter at every point of a run exactly when no accepted call of the run sets the meter, or takes
      back a sale with litres in it from under a standing one. */
  lemma StandingSalesStack(s0: State, calls: seq<Call>, n: Id)
    requires Initial(s0) && n < |s0.nozzles|
    ensures (forall k :: 0 <= k <= |calls| ==> StackedAt(s0, calls, n, k))
            <==> (forall k :: 0 <= k < |calls| ==> !UnstacksAt(s0, calls, n, k))
  {
    if forall k :: 0 <= k <= |calls| ==> StackedAt(s0, calls, n, k) {
      forall k | 0 <= k < |calls| ensures !UnstacksAt(s0, calls, n, k) {
        assert StackedAt(s0, calls, n, k) && StackedAt(s0, calls, n, k + 1);
        StackPrefix(s0, calls, n, k);
      }
    }
    if forall k :: 0 <= k < |calls| ==> !UnstacksAt(s0, calls, n, k) {
      forall k | 0 <= k <= |calls| ensures StackedAt(s0, calls, n, k) {
        StaysStacked(s0, calls, n, k);
      }
    }
  }

  // ---------------------------------------------------------------- the stack of one segment

  lemma {:induction false} NothingStands(sales: seq<FuelSale>, n: Id, since: nat, from: real)
    requires forall i :: 0 <= i < |sales| ==> sales[i].createdAt < since
    ensures Chain(sales, n, since, from, from)
  {
    if sales != [] {
      NothingStands(sales[..|sales| - 1], n, since, from);
    }
  }

  lemma SameSegment(s: State, call: Call, n: Id)
    requires n < |s.nozzles| && !SetsMeter(s, call, n)
    ensures n < |Step(s, call).nozzles|
    ensures Step(s, call).nozzles[n] == s.nozzles[n].(meterReading := Step(s, call).nozzles[n].meterReading)
  {
    if Perform(s, call).Ok? {
      Frame(s, call);
      if call.op.Reversing? {
        var rev := ReversalShape(s, call.caller, call.op.reversing);
      }
    }
  }

  /** Whatever came before, setting the meter starts a segment whose stack is in order. */
  lemma SettingStartsStack(s0: State, s: State, call: Call, n: Id)
    requires GoodSales(s0, s.sales, s.clock) && SetsMeter(s, call, n)
    ensures SegmentStacked(Step(s, call), n)
  {
    NothingStands(s.sales, n, s.clock, call.op.forecourt.newReading);
  }

  /** So a segment is stacked when it starts, at the beginning of the run or with an adjustment. */
  lemma SegmentStarts(s0: State, calls: seq<Call>, n: Id)
    requires Initial(s0) && n < |s0.nozzles|
    requires calls != [] ==> SetsMeter(Run(s0, calls[..|calls| - 1]), calls[|calls| - 1], n)
    ensures SegmentStacked(Run(s0, calls), n)
  {
    if calls != [] {
      RunKeepsRecords(s0, calls[..|calls| - 1]);
      SettingStartsStack(s0, Run(s0, calls[..|calls| - 1]), calls[|calls| - 1], n);
    }
  }

  lemma SegmentStep(s0: State, s: State, call: Call, n: Id)
    requires GoodSales(s0, s.sales, s.clock) && SegmentsTelescope(s) && SegmentStacked(s, n)
    ensures SegmentStacked(Step(s, call), n) <==> !PullsOut(s, call, n, s.nozzles[n].segmentStartedAt)
  {
    if SetsMeter(s, call, n) {
      SettingStartsStack(s0, s, call, n);
    } else {
      SameSegment(s, call, n);
      ChainStep(s0, s, call, n, s.nozzles[n].segmentStartedAt, s.nozzles[n].segmentStart);
    }
  }

  ghost predicate SegmentStackedAt(s: State, calls: seq<Call>, n: Id, k: nat)
    requires k <= |calls|
  {
    SegmentStacked(Run(s, calls[..k]), n)
  }

  /** Call `k` pulls a sale out of the stack of the nozzle's current segment. */
  ghost predicate PullsFromSegmentAt(s: State, calls: seq<Call>, n: Id, k: nat)
    requires k < |calls|
  {
    var now := Run(s, calls[..k]);
    n < |now.nozzles| && PullsOut(now, calls[k], n, now.nozzles[n].segmentStartedAt)
  }

  lemma SegmentPrefix(s0: State, before: seq<Call>, after: seq<Call>, n: Id, k: nat)
    requires Initial(s0) && k < |after| && SegmentStackedAt(Run(s0, before), after, n, k)
    ensures SegmentStackedAt(Run(s0, before), after, n, k + 1) <==> !PullsFromSegmentAt(Run(s0, before), after, n, k)
  {
    History.RunsCompose(s0, before, after[..k]);
    RunKeepsRecords(s0, before + after[..k]);
    MeterTelescoping(s0, before + after[..k]);
    SegmentStep(s0, Run(Run(s0, before), after[..k]), after[k], n);
    assert after[..k + 1][..k] == after[..k];
  }

  lemma {:induction false} StaysSegmentStacked(s0: State, before: seq<Call>, after: seq<Call>, n: Id, k: nat)
    requires Initial(s0) && SegmentStacked(Run(s0, before), n) && k <= |after|
    requires forall j :: 0 <= j < k ==> !PullsFromSegmentAt(Run(s0, before), after, n, j)
    ensures SegmentStackedAt(Run(s0, before), after, n, k)
  {
    if k > 0 {
      StaysSegmentStacked(s0, before, after, n, k - 1);
      SegmentPrefix(s0, before, after, n, k - 1);
    }
  }

  /** The same rule segment by segment, adjustments included: from any reachable state whose current
      segment is stacked, as it is at the start and after every adjustment, it stays so throughout
      exactly when no accepted call takes back, from under a standing sale of the segment or from an
      earlier segment, a sale with litres in it. */
  lemma SegmentStack(s0: State, before: seq<Call>, after: seq<Call>, n: Id)
    requires Initial(s0) && SegmentStacked(Run(s0, before), n)
    ensures (forall k :: 0 <= k <= |after| ==> SegmentStackedAt(Run(s0, before), after, n, k))
            <==> (forall k :: 0 <= k < |after| ==> !PullsFromSegmentAt(Run(s0, before), after, n, k))
  {
    var s := Run(s0, before);
    if forall k :: 0 <= k <= |after| ==> SegmentStackedAt(s, after, n, k) {
      forall k | 0 <= k < |after| ensures !PullsFromSegmentAt(s, after, n, k) {
        assert SegmentStackedAt(s, after, n, k) && SegmentStackedAt(s, after, n, k + 1);
        SegmentPrefix(s0, before, after, n, k);
      }
    }
    if forall k :: 0 <= k < |after| ==> !PullsFromSegmentAt(s, after, n, k) {
      forall k | 0 <= k <= |after| ensures SegmentStackedAt(s, after, n, k) {
        StaysSegmentStacked(s0, before, after, n, k);
      }
    }
  }

  /** The guard that compares readings lets through exactly the sales of the current segment's stack
      with no litres above them. */
  lemma GuardAdmitsTop(s0: State, calls: seq<Call>, n: Id, i: Id)
    requires Initial(s0) && SegmentStacked(Run(s0, calls), n) && i < |Run(s0, calls).sales|
    requires StandsOn(Run(s0, calls).sales[i], n, Run(s0, calls).nozzles[n].segmentStartedAt)
    ensures
      var s := Run(s0, calls);
      s.nozzles[n].meterReading == s.sales[i].closingMeter
      <==> NothingAbove(s.sales, n, s.nozzles[n].segmentStartedAt, i)
  {
    var s := Run(s0, calls);
    RunKeepsRecords(s0, calls);
    BelowTop(s.sales, n, s.nozzles[n].segmentStartedAt, s.nozzles[n].segmentStart, s.nozzles[n].meterReading, i);
  }

  // ---------------------------------------------------------------- nozzles that only ever dispense

  /** No adjustment and no zero-litre sale on the nozzle, so far. */
  ghost predicate Calm(s: State, n: Id) {
    && (forall i :: 0 <= i < |s.adjustments| ==> s.adjustments[i].nozzleId != n)
    && (forall i :: 0 <= i < |s.sales| && s.sales[i].nozzleId == n ==> s.sales[i].quantity > 0.0)
  }

  lemma CalmBefore(s: State, call: Call, n: Id)
    requires Calm(Step(s, call), n)
    ensures Calm(s, n) && !SetsMeter(s, call, n)
  {
    if Perform(s, call).Ok? {
      var t := Step(s, call);
      History.StepEvolves(s, call);
      assert forall i :: 0 <= i < |s.sales| ==> History.SaleEvolves(s.sales[i], t.sales[i]);
      assert forall i :: 0 <= i < |s.adjustments| ==> t.adjustments[i] == s.adjustments[i];
      if SetsMeter(s, call, n) {
        SettingIsLogged(s, call, n);
      }
    }
  }

  lemma SettingIsLogged(s: State, call: Call, n: Id)
    requires SetsMeter(s, call, n)
    ensures exists i :: 0 <= i < |Step(s, call).adjustments| && Step(s, call).adjustments[i].nozzleId == n
  {
    assert Step(s, call).adjustments[|s.adjustments|].nozzleId == n;
  }

  /** On a calm nozzle the readings let only the top sale through. */
  lemma CalmPullsNothing(s0: State, s: State, call: Call, n: Id)
    requires Calm(s, n) && Stacked(s0, s, n) && GoodSales(s0, s.sales, s.clock)
    ensures !PullsOut(s, call, n, 0)
  {
    if PullsOut(s, call, n, 0) {
      var rev := ReversalShape(s, call.caller, call.op.reversing);
      BelowTop(s.sales, n, 0, s0.nozzles[n].meterReading, s.nozzles[n].meterReading, call.op.reversing.record.id);
    }
  }

  lemma {:induction false} CalmStacks(s0: State, calls: seq<Call>, n: Id)
    requires Initial(s0) && n < |s0.nozzles| && Calm(Run(s0, calls), n)
    ensures Stacked(s0, Run(s0, calls), n)
  {
    if calls != [] {
      var last := |calls| - 1;
      var s := Run(s0, calls[..last]);
      CalmBefore(s, calls[last], n);
      CalmStacks(s0, calls[..last], n);
      RunKeepsRecords(s0, calls[..last]);
      CalmPullsNothing(s0, s, calls[last], n);
      StackStep(s0, s, calls[last], n);
    }
  }

  /** So a nozzle without adjustments and zero-litre sales is always stacked, and the guard lets
      through its top sale and no other. */
  lemma CalmNozzleStacks(s0: State, calls: seq<Call>, n: Id)
    requires Initial(s0) && n < |s0.nozzles| && Calm(Run(s0, calls), n)
    ensures Stacked(s0, Run(s0, calls), n)
    ensures
      var s := Run(s0, calls);
      forall i :: 0 <= i < |s.sales| && StandsOn(s.sales[i], n, 0) ==>
        (s.nozzles[n].meterReading == s.sales[i].closingMeter <==> OnTop(s.sales, n, 0, i))
  {
    var s := Run(s0, calls);
    CalmStacks(s0, calls, n);
    RunKeepsRecords(s0, calls);
    forall i | 0 <= i < |s.sales| && StandsOn(s.sales[i], n, 0)
      ensures s.nozzles[n].meterReading == s.sales[i].closingMeter <==> OnTop(s.sales, n, 0, i)
    {
      BelowTop(s.sales, n, 0, s0.nozzles[n].meterReading, s.nozzles[n].meterReading, i);
    }
  }
}
