/** Short runs on a small site that show where tempting rules stop holding. */
module Counterexamples {
  import opened Sums
  import opened Rows
  import opened Rules
  import opened Figures
  import Meters

  // ---------------------------------------------------------------- a small site

  /** One tank, one nozzle, one customer. */
  function Site(
    volume: real, nozzle: Nozzle, customer: Customer, sales: seq<FuelSale>, readings: map<Id, NozzleReading>,
    clock: nat): State
  {
    State(1, 1, [Tank(0, 0, 200.0, volume)], [nozzle], [customer], [], [],
          sales, readings, [], [], [], [], [], [], [], clock)
  }

  function Meter(reading: real): Nozzle { Nozzle(0, 0, 0, reading, 0.0, 0) }

  function Owing(limit: real, balance: real): Customer {
    Customer(0, limit, balance, NotRequested, 0.0, 0.0, None, None)
  }

  /** Nothing sold yet; a limit of zero is none. */
  function Opening(limit: real): State { Site(150.0, Meter(0.0), Owing(limit, 0.0), [], map[], 0) }

  lemma OpeningIsInitial(limit: real)
    ensures Initial(Opening(limit))
  {
  }

  const ADMIN := Caller(0, true, true, true)

  function SellTo(saleType: SaleType, closing: real): Call {
    Call(ADMIN, Forecourt(CreateSale(SaleData(0, 0, 0, Some(0), closing, 1.0, saleType, None))))
  }

  function ReverseSale(i: Id): Call { Call(ADMIN, Reversing(Reverse(SaleRecord(i)))) }
  function SetMeter(reading: real): Call { Call(ADMIN, Forecourt(AdjustMeter(0, reading))) }
  function Ask(amount: real): Call { Call(ADMIN, Lending(RequestOverride(0, amount))) }
  function Grant(): Call { Call(ADMIN, Lending(ApproveOverride(0))) }

  function Row(saleType: SaleType, opening: real, closing: real, at: nat): FuelSale {
    FuelSale(0, 0, 0, Some(0), opening, closing, closing - opening, 1.0, closing - opening, saleType, None, at, FRESH)
  }

  lemma SaleStep(
    volume: real, meter: real, c: Customer, sales: seq<FuelSale>, readings: map<Id, NozzleReading>, clock: nat,
    saleType: SaleType, closing: real)
    requires meter <= closing <= meter + volume && c.stationId == 0
    requires saleType.Credit? ==> !OverLimit(c, closing - meter)
    ensures
      Step(Site(volume, Meter(meter), c, sales, readings, clock), SellTo(saleType, closing)) ==
      Site(volume - (closing - meter), Meter(closing), if saleType.Credit? then Charge(c, closing - meter) else c,
           sales + [Row(saleType, meter, closing, clock)], readings[|sales| := NozzleReading(0, closing)], clock + 1)
  {
    var s := Site(volume, Meter(meter), c, sales, readings, clock);
    var d := SaleData(0, 0, 0, Some(0), closing, 1.0, saleType, None);
    assert CreateSaleFault(s, ADMIN, d).None?;
    assert SaleRow(s, ADMIN, d) == Row(saleType, meter, closing, clock);
  }

  lemma RunOfOne(s: State, call: Call)
    ensures Run(s, [call]) == Step(s, call)
  {
    assert [call][..0] == [];
  }

  lemma OneMore(s: State, calls: seq<Call>, call: Call, all: seq<Call>)
    requires all == calls + [call]
    ensures Run(s, all) == Step(Run(s, calls), call)
  {
    assert all[..|calls|] == calls;
  }

  /** Ten litres on credit. */
  function AfterFirst(): State {
    Site(140.0, Meter(10.0), Owing(0.0, 10.0), [Row(Credit, 0.0, 10.0, 0)], map[0 := NozzleReading(0, 10.0)], 1)
  }

  lemma FirstSale()
    ensures Run(Opening(0.0), [SellTo(Credit, 10.0)]) == AfterFirst()
  {
    RunOfOne(Opening(0.0), SellTo(Credit, 10.0));
    SaleStep(150.0, 0.0, Owing(0.0, 0.0), [], map[], 0, Credit, 10.0);
  }

  /** Ten litres on credit, then another sale in the same name. */
  function AfterTwo(second: SaleType, closing: real): State {
    Site(150.0 - closing, Meter(closing), Owing(0.0, if second.Credit? then closing else 10.0),
         [Row(Credit, 0.0, 10.0, 0), Row(second, 10.0, closing, 1)],
         map[0 := NozzleReading(0, 10.0), 1 := NozzleReading(0, closing)], 2)
  }

  lemma TwoSales(second: SaleType, closing: real)
    requires 10.0 <= closing <= 50.0
    ensures Run(Opening(0.0), [SellTo(Credit, 10.0), SellTo(second, closing)]) == AfterTwo(second, closing)
  {
    FirstSale();
    OneMore(Opening(0.0), [SellTo(Credit, 10.0)], SellTo(second, closing),
      [SellTo(Credit, 10.0), SellTo(second, closing)]);
    SaleStep(140.0, 10.0, Owing(0.0, 10.0), [Row(Credit, 0.0, 10.0, 0)], map[0 := NozzleReading(0, 10.0)], 1,
      second, closing);
  }

  // ---------------------------------------------------------------- a refund nobody was charged for

  predicate LedgerParted(s: State) {
    |s.customers| == 1 && s.customers[0].outstandingBalance == 5.0 && CustomerLedger(s, 0) == 10.0 && s.trips == []
  }

  /** Ten litres on credit, then five for cash in the same name, and the cash sale reversed: the
      ledger says ten, the balance five. */
  lemma CashRefundParts()
    ensures LedgerParted(Run(Opening(0.0), [SellTo(Credit, 10.0), SellTo(Cash, 15.0), ReverseSale(1)]))
  {
    TwoSales(Cash, 15.0);
    OneMore(Opening(0.0), [SellTo(Credit, 10.0), SellTo(Cash, 15.0)], ReverseSale(1),
            [SellTo(Credit, 10.0), SellTo(Cash, 15.0), ReverseSale(1)]);
    CashRefund();
  }

  lemma CashRefund()
    ensures LedgerParted(Step(AfterTwo(Cash, 15.0), ReverseSale(1)))
  {
    var s := AfterTwo(Cash, 15.0);
    assert ReverseFault(s, ADMIN, SaleRecord(1)).None?;
    var t := ReverseEffect(s, ADMIN, SaleRecord(1));
    var refunded := Row(Cash, 10.0, 15.0, 1).(rev := Reversed(s, ADMIN, FRESH));
    assert t.sales == [Row(Credit, 0.0, 10.0, 0)] + [refunded];
    SumAppend([Row(Credit, 0.0, 10.0, 0)], refunded, CreditSale(0));
    assert [Row(Credit, 0.0, 10.0, 0)][..0] == [];
  }

  // ---------------------------------------------------------------- a sale of no litres

  /** The first sale is reversed, the second stands, and the meter is not where it leads. */
  ghost predicate StackBroken(s: State) {
    && |s.sales| == 2 && s.sales[0].rev.isReversed && !s.sales[1].rev.isReversed
    && |s.nozzles| == 1 && !Meters.Stacked(Opening(0.0), s, 0)
  }

  /** Ten litres, then a sale of none: the readings let the first sale be reversed from under the
      second, and what stands on the nozzle no longer leads up to its meter. */
  lemma ZeroLitresBreakTheStack()
    ensures StackBroken(Run(Opening(0.0), [SellTo(Credit, 10.0), SellTo(Credit, 10.0), ReverseSale(0)]))
  {
    TwoSales(Credit, 10.0);
    OneMore(Opening(0.0), [SellTo(Credit, 10.0), SellTo(Credit, 10.0)], ReverseSale(0),
            [SellTo(Credit, 10.0), SellTo(Credit, 10.0), ReverseSale(0)]);
    ReverseFromBelow();
  }

  lemma ReverseFromBelow()
    ensures StackBroken(Step(AfterTwo(Credit, 10.0), ReverseSale(0)))
  {
    var s := AfterTwo(Credit, 10.0);
    assert ReverseFault(s, ADMIN, SaleRecord(0)).None?;
    var t := ReverseEffect(s, ADMIN, SaleRecord(0));
    assert t.sales[1].closingMeter == 10.0 && t.nozzles[0].meterReading == 0.0;
  }

  // ---------------------------------------------------------------- a sale of an earlier segment

  /** The meter is ten below the segment's start although no sale of the segment stands. */
  predicate SegmentParted(s: State) {
    && |s.nozzles| == 1 && s.nozzles[0].meterReading == 0.0 && s.nozzles[0].segmentStart == 10.0
    && Sum(s.sales, DispensedSince(0, s.nozzles[0].segmentStartedAt)) == 0.0
  }

  /** Ten litres sold, and the meter set twice: first away, then back. */
  function AfterDetour(): State {
    Site(140.0, Nozzle(0, 0, 0, 10.0, 10.0, 2), Owing(0.0, 10.0), [Row(Credit, 0.0, 10.0, 0)],
         map[0 := NozzleReading(0, 10.0)], 3).(adjustments :=
           [MeterAdjustment(0, 0, 10.0, 20.0, 0), MeterAdjustment(0, 0, 20.0, 10.0, 0)])
  }

  lemma Detour()
    ensures Run(Opening(0.0), [SellTo(Credit, 10.0), SetMeter(20.0), SetMeter(10.0)]) == AfterDetour()
  {
    var start := [SellTo(Credit, 10.0)];
    FirstSale();
    OneMore(Opening(0.0), start, SetMeter(20.0), [SellTo(Credit, 10.0), SetMeter(20.0)]);
    OneMore(Opening(0.0), [SellTo(Credit, 10.0), SetMeter(20.0)], SetMeter(10.0),
            [SellTo(Credit, 10.0), SetMeter(20.0), SetMeter(10.0)]);
    SetTwice();
  }

  lemma SetTwice()
    ensures
      var s := AfterFirst();
      Step(Step(s, SetMeter(20.0)), SetMeter(10.0)) == AfterDetour()
  {
  }

  /** Ten litres, the meter set to twenty and back to ten: the readings match again, and the sale can
      be reversed although its segment has ended. */
  lemma EarlierSegmentReopens()
    ensures SegmentParted(Run(Opening(0.0), [SellTo(Credit, 10.0), SetMeter(20.0), SetMeter(10.0), ReverseSale(0)]))
  {
    Detour();
    OneMore(Opening(0.0), [SellTo(Credit, 10.0), SetMeter(20.0), SetMeter(10.0)], ReverseSale(0),
            [SellTo(Credit, 10.0), SetMeter(20.0), SetMeter(10.0), ReverseSale(0)]);
    ReverseAcrossSegments();
  }

  lemma ReverseAcrossSegments()
    ensures SegmentParted(Step(AfterDetour(), ReverseSale(0)))
  {
    var s := AfterDetour();
    assert ReverseFault(s, ADMIN, SaleRecord(0)).None?;
    var back := ReverseEffect(s, ADMIN, SaleRecord(0));
    SumZero(back.sales, DispensedSince(0, 2));
  }

  // ---------------------------------------------------------------- overrides

  /** Limit a hundred, and an override granted of which `left` is left. */
  function Granted(balance: real, left: real): Customer {
    Customer(0, 100.0, balance, Approved, left, left, Some(0), Some(0))
  }

  function AfterGrant(): State { Site(150.0, Meter(0.0), Granted(0.0, 50.0), [], map[], 2) }

  lemma AskAndGrant()
    ensures Run(Opening(100.0), [Ask(50.0), Grant()]) == AfterGrant()
  {
    RunOfOne(Opening(100.0), Ask(50.0));
    OneMore(Opening(100.0), [Ask(50.0)], Grant(), [Ask(50.0), Grant()]);
    var asked := Step(Opening(100.0), Ask(50.0));
    assert asked.customers == [Customer(0, 100.0, 0.0, Pending, 0.0, 50.0, Some(0), None)];
  }

  lemma SellAbove()
    ensures
      var s := Step(Step(AfterGrant(), SellTo(Credit, 120.0)), ReverseSale(0));
      |s.customers| == 1 && s.customers[0].outstandingBalance == 0.0 && s.customers[0].overrideAmount == 30.0
  {
    SaleStep(150.0, 0.0, Granted(0.0, 50.0), [], map[], 2, Credit, 120.0);
    var s := Step(AfterGrant(), SellTo(Credit, 120.0));
    assert s.customers[0].outstandingBalance == 120.0 && s.customers[0].overrideAmount == 30.0;
    assert s.sales == [Row(Credit, 0.0, 120.0, 2)];
    assert ReverseFault(s, ADMIN, SaleRecord(0)).None?;
  }

  /** Fifty granted above a limit of a hundred; a sale of a hundred and twenty uses up twenty of them,
      and reversing it gives the balance back, but not the twenty. */
  lemma OverrideNotGivenBack()
    ensures
      var before := Run(Opening(100.0), [Ask(50.0), Grant()]);
      var after := Run(Opening(100.0), [Ask(50.0), Grant(), SellTo(Credit, 120.0), ReverseSale(0)]);
      && |before.customers| == |after.customers| == 1
      && before.customers[0].outstandingBalance == after.customers[0].outstandingBalance == 0.0
      && before.customers[0].overrideAmount == 50.0 && after.customers[0].overrideAmount == 30.0
  {
    AskAndGrant();
    OneMore(Opening(100.0), [Ask(50.0), Grant()], SellTo(Credit, 120.0), [Ask(50.0), Grant(), SellTo(Credit, 120.0)]);
    OneMore(Opening(100.0), [Ask(50.0), Grant(), SellTo(Credit, 120.0)], ReverseSale(0),
            [Ask(50.0), Grant(), SellTo(Credit, 120.0), ReverseSale(0)]);
    SellAbove();
  }

  /** The customer at ninety with fifty granted, who then asks for another twenty. */
  function AfterAsking(): State {
    Site(60.0, Meter(90.0), Customer(0, 100.0, 90.0, Pending, 50.0, 20.0, Some(0), None),
         [Row(Credit, 0.0, 90.0, 2)], map[0 := NozzleReading(0, 90.0)], 4)
  }

  lemma SellThenAsk()
    ensures Run(Opening(100.0), [Ask(50.0), Grant(), SellTo(Credit, 90.0), Ask(20.0)]) == AfterAsking()
  {
    AskAndGrant();
    OneMore(Opening(100.0), [Ask(50.0), Grant()], SellTo(Credit, 90.0), [Ask(50.0), Grant(), SellTo(Credit, 90.0)]);
    OneMore(Opening(100.0), [Ask(50.0), Grant(), SellTo(Credit, 90.0)], Ask(20.0),
            [Ask(50.0), Grant(), SellTo(Credit, 90.0), Ask(20.0)]);
    SellBelow();
  }

  lemma SellBelow()
    ensures Step(Step(AfterGrant(), SellTo(Credit, 90.0)), Ask(20.0)) == AfterAsking()
  {
    SaleStep(150.0, 0.0, Granted(0.0, 50.0), [], map[], 2, Credit, 90.0);
    var s := Step(AfterGrant(), SellTo(Credit, 90.0));
    assert s.sales == [Row(Credit, 0.0, 90.0, 2)] && s.customers == [Granted(90.0, 50.0)];
  }

  lemma DrawAndGrant()
    ensures
      var wiped := Step(AfterAsking(), SellTo(Credit, 120.0));
      var granted := Step(wiped, Grant());
      && |wiped.customers| == |granted.customers| == 1
      && wiped.customers[0].overrideStatus.Pending? && wiped.customers[0].overrideRequested == 0.0
      && wiped.customers[0].overrideAmount == 30.0
      && granted.customers[0].overrideStatus.Approved? && granted.customers[0].overrideAmount == 0.0
  {
    var s := AfterAsking();
    SaleStep(60.0, 90.0, s.customers[0], s.sales, s.readings, 4, Credit, 120.0);
    var wiped := Step(s, SellTo(Credit, 120.0));
    assert wiped.customers == [Customer(0, 100.0, 120.0, Pending, 30.0, 0.0, None, None)];
  }

  /** A sale of thirty then draws on the old override: the request for twenty stays open, but for
      nothing, and approving it takes away the thirty that were left. */
  lemma RequestIsWiped()
    ensures
      var calls := [Ask(50.0), Grant(), SellTo(Credit, 90.0), Ask(20.0), SellTo(Credit, 120.0)];
      var wiped, granted := Run(Opening(100.0), calls), Run(Opening(100.0), calls + [Grant()]);
      && |wiped.customers| == |granted.customers| == 1
      && wiped.customers[0].overrideStatus.Pending? && wiped.customers[0].overrideRequested == 0.0
      && wiped.customers[0].overrideAmount == 30.0
      && granted.customers[0].overrideStatus.Approved? && granted.customers[0].overrideAmount == 0.0
  {
    var calls := [Ask(50.0), Grant(), SellTo(Credit, 90.0), Ask(20.0), SellTo(Credit, 120.0)];
    SellThenAsk();
    OneMore(Opening(100.0), [Ask(50.0), Grant(), SellTo(Credit, 90.0), Ask(20.0)], SellTo(Credit, 120.0), calls);
    OneMore(Opening(100.0), calls, Grant(), calls + [Grant()]);
    DrawAndGrant();
  }

  // ---------------------------------------------------------------- a request that outlives its record

  function AskToReverse(i: Id): Call { Call(ADMIN, Reversing(RequestReversal(SaleRecord(i)))) }

  lemma ReverseWhileAsked()
    ensures
      var s := AfterFirst();
      var t := Step(Step(s, AskToReverse(0)), ReverseSale(0));
      |t.sales| == 1 && t.sales[0].rev.isReversed && t.sales[0].rev.review == Pending
  {
    var s := AfterFirst();
    var asked := Step(s, AskToReverse(0));
    assert asked.sales == [s.sales[0].(rev := FRESH.(review := Pending, requestedBy := Some(0)))];
    assert asked.nozzles == s.nozzles && asked.tanks == s.tanks && asked.customers == s.customers;
    assert ReverseFault(asked, ADMIN, SaleRecord(0)).None?;
  }

  /** A reversal is asked for, and an administrator reverses the sale directly: the request stays
      pending on a reversed sale. */
  lemma RequestOutlivesReversal()
    ensures
      var s := Run(Opening(0.0), [SellTo(Credit, 10.0), AskToReverse(0), ReverseSale(0)]);
      |s.sales| == 1 && s.sales[0].rev.isReversed && s.sales[0].rev.review == Pending
  {
    FirstSale();
    OneMore(Opening(0.0), [SellTo(Credit, 10.0)], AskToReverse(0), [SellTo(Credit, 10.0), AskToReverse(0)]);
    OneMore(Opening(0.0), [SellTo(Credit, 10.0), AskToReverse(0)], ReverseSale(0),
            [SellTo(Credit, 10.0), AskToReverse(0), ReverseSale(0)]);
    ReverseWhileAsked();
  }
}
