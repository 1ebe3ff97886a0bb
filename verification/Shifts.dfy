/** Closing a shift freezes a faithful snapshot of its sales. */
module Shifts {
  import opened Sums
  import opened Rows
  import opened Rules
  import opened Figures
  import opened Records
  import History
  import Log

  /** Sales of the shift that stood at a moment: those that stand now, and those reversed later. */
  function StoodAt(k: Id, saleType: SaleType, moment: nat): FuelSale -> real {
    (x: FuelSale) =>
      if x.shiftId == Some(k) && x.saleType == saleType && (x.rev.reversedAt.Some? ==> x.rev.reversedAt.value > moment)
      then x.totalAmount else 0.0
  }

  ghost predicate OneOpenEach(shifts: seq<Shift>) {
    forall i, j :: 0 <= i < j < |shifts| && shifts[i].status.Open? && shifts[j].status.Open? ==>
      shifts[i].userId != shifts[j].userId || shifts[i].stationId != shifts[j].stationId
  }

  /** Every sale booked on a closed shift was entered before it closed. */
  ghost predicate NoLateSales(sales: seq<FuelSale>, shifts: seq<Shift>) {
    forall i :: 0 <= i < |sales| && sales[i].shiftId.Some? ==>
      && sales[i].shiftId.value < |shifts|
      && (shifts[sales[i].shiftId.value].endTime.Some? ==>
        sales[i].createdAt < shifts[sales[i].shiftId.value].endTime.value)
  }

  ghost predicate Snapshot(shift: Shift, k: Id, sales: seq<FuelSale>, clock: nat) {
    && (shift.status.Closed? <==> shift.endTime.Some?)
    && (shift.status.Closed? ==>
          && shift.endTime.value < clock
          && shift.totalCash == Sum(sales, StoodAt(k, Cash, shift.endTime.value))
          && shift.totalCredit == Sum(sales, StoodAt(k, Credit, shift.endTime.value))
          && shift.expectedCash == shift.initialCash + shift.totalCash
          && shift.actualCash.Some? && shift.difference.Some?
          && shift.actualCash.value == shift.expectedCash + shift.difference.value)
  }

  ghost predicate ShiftsFaithful(s: State) {
    && OneOpenEach(s.shifts)
    && NoLateSales(s.sales, s.shifts)
    && forall k :: 0 <= k < |s.shifts| ==> Snapshot(s.shifts[k], k, s.sales, s.clock)
  }

  // ---------------------------------------------------------------- opening and closing

  lemma OpeningKeeps(s: State, u: Caller, st: Id, cash: real)
    requires ShiftsFaithful(s) && OpenShiftFault(s, u, st).None?
    ensures ShiftsFaithful(OpenShiftEffect(s, u, st, cash))
  {
    var s' := OpenShiftEffect(s, u, st, cash);
    forall k | 0 <= k < |s.shifts| ensures Snapshot(s'.shifts[k], k, s'.sales, s'.clock) {
      assert Snapshot(s.shifts[k], k, s.sales, s.clock);
    }
    forall i | 0 <= i < |s.shifts| && s.shifts[i].status.Open?
      ensures s.shifts[i].userId != u.userId || s.shifts[i].stationId != st
    {
      assert !IsOpenFor(s.shifts[i], u.userId, st);
    }
  }

  /** At the moment of closing, the sales that stand are the sales that stood. */
  lemma StandingNow(s0: State, s: State, k: Id, saleType: SaleType)
    requires GoodSales(s0, s.sales, s.clock)
    ensures Sum(s.sales, ShiftSale(k, saleType)) == Sum(s.sales, StoodAt(k, saleType, s.clock))
  {
    SumEqual(s.sales, ShiftSale(k, saleType), StoodAt(k, saleType, s.clock));
  }

  lemma ClosingKeeps(s0: State, s: State, u: Caller, k: Id, cash: real)
    requires ShiftsFaithful(s) && GoodSales(s0, s.sales, s.clock) && CloseShiftFault(s, u, k).None?
    ensures ShiftsFaithful(CloseShiftEffect(s, k, cash))
  {
    var s' := CloseShiftEffect(s, k, cash);
    StandingNow(s0, s, k, Cash);
    StandingNow(s0, s, k, Credit);
    forall i | 0 <= i < |s.shifts| ensures Snapshot(s'.shifts[i], i, s'.sales, s'.clock) {
      assert Snapshot(s.shifts[i], i, s.sales, s.clock);
    }
    assert NoLateSales(s'.sales, s'.shifts) by {
      forall i | 0 <= i < |s.sales| ensures GoodSale(s0, s.clock, s.sales[i]) {
      }
    }
  }

  // ---------------------------------------------------------------- sales and reversals

  /** A sale is only ever booked on an open shift. */
  lemma BookedOnOpenShift(s: State, u: Caller, d: SaleData)
    requires CreateSaleFault(s, u, d).None?
    ensures var k := SaleRow(s, u, d).shiftId;
      k.Some? ==> k.value < |s.shifts| && s.shifts[k.value].status.Open? && s.shifts[k.value].stationId == d.stationId
  {
  }

  lemma SellingKeeps(s: State, u: Caller, d: SaleData)
    requires ShiftsFaithful(s) && CreateSaleFault(s, u, d).None?
    ensures ShiftsFaithful(CreateSaleEffect(s, u, d))
  {
    var s' := CreateSaleEffect(s, u, d);
    var x := SaleRow(s, u, d);
    BookedOnOpenShift(s, u, d);
    assert s'.sales == s.sales + [x] && s'.shifts == s.shifts && s'.clock == s.clock + 1;
    forall k | 0 <= k < |s.shifts| ensures Snapshot(s.shifts[k], k, s'.sales, s'.clock) {
      assert Snapshot(s.shifts[k], k, s.sales, s.clock);
      if s.shifts[k].status.Closed? {
        SumAppend(s.sales, x, StoodAt(k, Cash, s.shifts[k].endTime.value));
        SumAppend(s.sales, x, StoodAt(k, Credit, s.shifts[k].endTime.value));
      }
    }
    if x.shiftId.Some? {
      assert Snapshot(s.shifts[x.shiftId.value], x.shiftId.value, s.sales, s.clock);
    }
  }

  /** Reversing a sale now does not change what stood at an earlier moment. */
  lemma ReversingKeeps(s0: State, s: State, s': State, i: Id, rev: Reversal)
    requires ShiftsFaithful(s) && i < |s.sales|
    requires s'.sales == s.sales[i := s.sales[i].(rev := rev)] && s'.shifts == s.shifts && s'.clock == s.clock + 1
    requires s.sales[i].rev.reversedAt.None? && (rev.reversedAt.Some? ==> rev.reversedAt.value == s.clock)
    ensures ShiftsFaithful(s')
  {
    var x := s.sales[i].(rev := rev);
    forall k | 0 <= k < |s.shifts| ensures Snapshot(s.shifts[k], k, s'.sales, s'.clock) {
      assert Snapshot(s.shifts[k], k, s.sales, s.clock);
      if s.shifts[k].status.Closed? {
        SumUpdate(s.sales, i, x, StoodAt(k, Cash, s.shifts[k].endTime.value));
        SumUpdate(s.sales, i, x, StoodAt(k, Credit, s.shifts[k].endTime.value));
      }
    }
  }

  lemma QuietKeeps(s: State, s': State)
    requires ShiftsFaithful(s) && s'.sales == s.sales && s'.shifts == s.shifts && s'.clock == s.clock + 1
    ensures ShiftsFaithful(s')
  {
    forall k | 0 <= k < |s.shifts| ensures Snapshot(s.shifts[k], k, s'.sales, s'.clock) {
      assert Snapshot(s.shifts[k], k, s.sales, s.clock);
    }
  }

  lemma ReversalOpKeeps(s0: State, s: State, u: Caller, op: ReversalOp)
    requires ShiftsFaithful(s) && GoodSales(s0, s.sales, s.clock) && ReversalStep(s, u, op).Ok?
    ensures ShiftsFaithful(ReversalStep(s, u, op).state)
  {
    var rev := ReversalShape(s, u, op);
    ReversalFrame(s, u, op);
    if op.record.SaleRecord? {
      assert GoodSale(s0, s.clock, s.sales[op.record.id]);
      ReversingKeeps(s0, s, ReversalStep(s, u, op).state, op.record.id, rev);
    } else {
      QuietKeeps(s, ReversalStep(s, u, op).state);
    }
  }

  lemma ShiftsStep(s0: State, s: State, call: Call)
    requires ShiftsFaithful(s) && GoodSales(s0, s.sales, s.clock) && Perform(s, call).Ok?
    ensures ShiftsFaithful(Perform(s, call).state)
  {
    Frame(s, call);
    match call.op
    case Forecourt(op) =>
      if op.CreateSale? {
        SellingKeeps(s, call.caller, op.sale);
      } else {
        QuietKeeps(s, Perform(s, call).state);
      }
    case Staffing(op) =>
      match op {
        case OpenShift(st, cash) => OpeningKeeps(s, call.caller, st, cash);
        case CloseShift(k, cash) => ClosingKeeps(s0, s, call.caller, k, cash);
      }
    case Reversing(op) => ReversalOpKeeps(s0, s, call.caller, op);
    case _ => QuietKeeps(s, Perform(s, call).state);
  }

  /** In every reachable state: a user has at most one open shift at a station, no sale ever joined
      a closed shift, and a closed shift's cash and credit totals are its sales that still stand
      plus those reversed only after it closed, with the cash difference recorded against them. */
  lemma {:induction false} ShiftSnapshots(s0: State, calls: seq<Call>)
    requires Initial(s0)
    ensures ShiftsFaithful(Run(s0, calls))
  {
    if calls != [] {
      var last := |calls| - 1;
      ShiftSnapshots(s0, calls[..last]);
      RunKeepsRecords(s0, calls[..last]);
      if Perform(Run(s0, calls[..last]), calls[last]).Ok? {
        ShiftsStep(s0, Run(s0, calls[..last]), calls[last]);
      }
    }
  }

  /** A closed shift is still the same, to the last figure, after any further calls. */
  lemma ClosedShiftIsFrozen(s0: State, before: seq<Call>, after: seq<Call>, k: Id)
    requires k < |Run(s0, before).shifts| && Run(s0, before).shifts[k].status.Closed?
    ensures k < |Run(s0, before + after).shifts| && Run(s0, before + after).shifts[k] == Run(s0, before).shifts[k]
  {
    History.RunsCompose(s0, before, after);
    History.RunEvolves(Run(s0, before), after);
    assert History.ShiftEvolves(Run(s0, before).shifts[k], Run(s0, before + after).shifts[k]);
  }

  // ---------------------------------------------------------------- a shift and its calls

  /** A sale call accepted in this state, in this way of paying, that names the shift, or that names
      none while the shift is its caller's open one at the station. */
  predicate SellsOn(s: State, call: Call, k: Id, saleType: SaleType) {
    && Log.Adds(s, call, Log.Sales)
    && var d := call.op.forecourt.sale;
    && d.saleType == saleType
    && (d.shiftId == Some(k)
        || (d.shiftId.None? && k < |s.shifts| && Log.OpenFor(s.shifts[k], call.caller.userId, d.stationId)))
  }

  /** What the call sells: the meter's move at its rate. */
  function Worth(s: State, call: Call): real
    requires Log.Adds(s, call, Log.Sales)
  {
    (call.op.forecourt.sale.closingMeter - s.nozzles[call.op.forecourt.sale.nozzleId].meterReading)
    * call.op.forecourt.sale.rate
  }

  /** The worth of the run's `i`-th accepted sale call, if it was made on the shift and is not reversed
      at the end of the run. */
  ghost function Taken(s0: State, calls: seq<Call>, i: nat, k: Id, saleType: SaleType): real
    requires Initial(s0) && i < |Run(s0, calls).sales|
  {
    Log.OneRowPerCall(s0, calls, Log.Sales);
    var j := Log.Makers(s0, calls, Log.Sales)[i];
    assert Log.Made(s0, calls, Log.Sales, j, i);
    var s := Run(s0, calls[..j]);
    if SellsOn(s, calls[j], k, saleType) && !Run(s0, calls).sales[i].rev.isReversed then Worth(s, calls[j]) else 0.0
  }

  /** The sum of the first `n` of these. */
  ghost function Takings(s0: State, calls: seq<Call>, n: nat, k: Id, saleType: SaleType): real
    requires Initial(s0) && n <= |Run(s0, calls).sales|
  {
    if n == 0 then 0.0 else Takings(s0, calls, n - 1, k, saleType) + Taken(s0, calls, n - 1, k, saleType)
  }

  /** The sale is booked on the shift exactly when its call was made on it. */
  lemma BookedAsMade(s: State, call: Call, x: FuelSale, k: Id, saleType: SaleType)
    requires OneOpenEach(s.shifts) && Log.Adds(s, call, Log.Sales) && Log.SaleFrom(s, call, x)
    ensures SellsOn(s, call, k, saleType) <==> x.shiftId == Some(k) && x.saleType == saleType
    ensures x.totalAmount == Worth(s, call)
  {
  }

  lemma TakenIsSale(s0: State, calls: seq<Call>, i: nat, k: Id, saleType: SaleType)
    requires Initial(s0) && i < |Run(s0, calls).sales|
    ensures Taken(s0, calls, i, k, saleType) == ShiftSale(k, saleType)(Run(s0, calls).sales[i])
  {
    Log.RowsComeFromCalls(s0, calls, Log.Sales, i);
    var j := Log.Makers(s0, calls, Log.Sales)[i];
    ShiftSnapshots(s0, calls[..j]);
    BookedAsMade(Run(s0, calls[..j]), calls[j], Run(s0, calls).sales[i], k, saleType);
  }

  lemma {:induction false} TakingsAreSales(s0: State, calls: seq<Call>, n: nat, k: Id, saleType: SaleType)
    requires Initial(s0) && n <= |Run(s0, calls).sales|
    ensures Takings(s0, calls, n, k, saleType) == Sum(Run(s0, calls).sales[..n], ShiftSale(k, saleType))
  {
    if n > 0 {
      var sales := Run(s0, calls).sales;
      TakingsAreSales(s0, calls, n - 1, k, saleType);
      TakenIsSale(s0, calls, n - 1, k, saleType);
      assert sales[..n] == sales[..n - 1] + [sales[n - 1]];
      SumAppend(sales[..n - 1], sales[n - 1], ShiftSale(k, saleType));
    }
  }

  /** Call `j` is accepted and closes the shift. */
  predicate Closes(s0: State, calls: seq<Call>, j: nat, k: Id) {
    && j < |calls| && calls[j].op.Staffing? && calls[j].op.staffing.CloseShift? && calls[j].op.staffing.shiftId == k
    && Perform(Run(s0, calls[..j]), calls[j]).Ok?
  }

  lemma {:induction false} ClosedByACall(s0: State, calls: seq<Call>, k: Id) returns (j: nat)
    requires Initial(s0) && k < |Run(s0, calls).shifts| && Run(s0, calls).shifts[k].status == Closed
    ensures Closes(s0, calls, j, k)
  {
    var last := |calls| - 1;
    var s := Run(s0, calls[..last]);
    if k < |s.shifts| && s.shifts[k].status == Closed {
      j := ClosedByACall(s0, calls[..last], k);
      assert calls[..last][..j] == calls[..j];
    } else {
      j := last;
      Frame(s, calls[last]);
    }
  }

  lemma ClosingFigures(s: State, u: Caller, k: Id, cash: real)
    requires Perform(s, Call(u, Staffing(CloseShift(k, cash)))).Ok?
    ensures k < |s.shifts| && |Perform(s, Call(u, Staffing(CloseShift(k, cash)))).state.shifts| == |s.shifts|
    ensures
      var shift := Perform(s, Call(u, Staffing(CloseShift(k, cash)))).state.shifts[k];
      && shift.status == Closed && shift.initialCash == s.shifts[k].initialCash
      && shift.totalCash == Sum(s.sales, ShiftSale(k, Cash)) && shift.totalCredit == Sum(s.sales, ShiftSale(k, Credit))
      && shift.expectedCash == shift.initialCash + shift.totalCash
      && shift.actualCash == Some(cash) && shift.difference == Some(cash - shift.expectedCash)
  {
  }

  /** In every reachable state, a closed shift was closed by an accepted call of its run. Its totals are
      the worth of the sale calls accepted on it until then and not reversed until then; what its drawer
      should hold is its opening cash and the cash total; what it did hold is what that call counted. */
  lemma ClosedShiftTellsCalls(s0: State, calls: seq<Call>, k: Id) returns (j: nat)
    requires Initial(s0) && k < |Run(s0, calls).shifts| && Run(s0, calls).shifts[k].status == Closed
    ensures Closes(s0, calls, j, k)
    ensures
      var shift, n := Run(s0, calls).shifts[k], |Run(s0, calls[..j]).sales|;
      && shift.totalCash == Takings(s0, calls[..j], n, k, Cash)
      && shift.totalCredit == Takings(s0, calls[..j], n, k, Credit)
      && shift.expectedCash == shift.initialCash + shift.totalCash
      && shift.actualCash == Some(calls[j].op.staffing.actualCash)
      && shift.difference == Some(calls[j].op.staffing.actualCash - shift.expectedCash)
  {
    j := ClosedByACall(s0, calls, k);
    var s, after := Run(s0, calls[..j]), Run(s0, calls[..j + 1]);
    Log.RunFrom(s0, calls, j);
    ClosingFigures(s, calls[j].caller, k, calls[j].op.staffing.actualCash);
    History.RunEvolves(after, calls[j + 1..]);
    assert History.ShiftEvolves(after.shifts[k], Run(s0, calls).shifts[k]);
    TakingsAreSales(s0, calls[..j], |s.sales|, k, Cash);
    TakingsAreSales(s0, calls[..j], |s.sales|, k, Credit);
    assert s.sales[..|s.sales|] == s.sales;
  }
}
