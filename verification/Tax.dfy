/** Splitting an amount into subtotal, tax and total, and what rounding does to the split. */
module Tax {
  import opened Money
  import opened Rows

  datatype TaxProfile = TaxProfile(defaultRate: real, exempt: bool, inclusive: bool)

  datatype Breakdown = Breakdown(subtotal: real, tax: real, total: real)

  function Rate(p: Option<TaxProfile>): real {
    if p.None? || p.value.exempt then 0.0 else p.value.defaultRate
  }

  predicate Inclusive(p: Option<TaxProfile>) {
    p.Some? && p.value.inclusive
  }

  /** Only a rate of -100 per cent makes the division of the inclusive mode fail. */
  function TaxBreakdown(p: Option<TaxProfile>, amount: real): Breakdown
    requires Inclusive(p) ==> Rate(p) != -100.0
  {
    var rate := Rate(p);
    if rate == 0.0 then Breakdown(RoundCents(amount), 0.0, RoundCents(amount))
    else if Inclusive(p) then Included(amount, Net(amount, rate))
    else Added(amount, TaxOn(amount, rate))
  }

  function Net(amount: real, rate: real): real
    requires rate != -100.0
  {
    amount / (1.0 + rate / 100.0)
  }

  function TaxOn(amount: real, rate: real): real { amount * (rate / 100.0) }

  /** The tax is in the amount already: `net` of it is what is left without. */
  function Included(amount: real, net: real): Breakdown {
    Breakdown(RoundCents(net), RoundCents(amount - net), RoundCents(amount))
  }

  /** The tax comes on top. */
  function Added(amount: real, tax: real): Breakdown {
    Breakdown(RoundCents(amount), RoundCents(tax), RoundCents(amount + tax))
  }

  // ---------------------------------------------------------------- the round trip

  lemma ProductBounds(q: real, f: real)
    requires f > 1.0
    ensures q >= 0.005 ==> q * f > 0.005
    ensures q <= -0.005 ==> q * f < -0.005
  {
  }

  /** Taking the tax out of a rounded total again lands next to the amount. */
  lemma NetIsNear(a: real, rate: real, total: real)
    requires rate > 0.0 && -0.005 <= total - (a + TaxOn(a, rate)) <= 0.005
    ensures -0.005 < Net(total, rate) - a < 0.005
  {
    var f := 1.0 + rate / 100.0;
    var q := Net(total, rate) - a;
    assert q * f == total - a * f == total - (a + TaxOn(a, rate));
    ProductBounds(q, f);
  }

  lemma RoundTripOfParts(a: real, tax: real, net: real)
    requires WholeCents(a)
    requires -0.005 < net - a < 0.005
    ensures var total := Added(a, tax).total; Included(total, net) == Breakdown(a, total - a, total)
    ensures Added(a, tax).subtotal == a
  {
    var total := Added(a, tax).total;
    RoundKeepsWholeCents(a);
    NearestIsUnique(net, a);
    WholeCentsAdd(total, a);
    NearestIsUnique(total - net, total - a);
    RoundKeepsWholeCents(total);
  }

  /** Whatever the rate, splitting the tax-exclusive total of an amount in whole cents again in
      tax-inclusive mode gives back the amount, the difference as tax, and the total. */
  lemma TaxRoundTrip(p: TaxProfile, a: real)
    requires WholeCents(a) && p.defaultRate >= 0.0
    ensures
      var out := TaxBreakdown(Some(p.(inclusive := false)), a);
      out.subtotal == a
        && TaxBreakdown(Some(p.(inclusive := true)), out.total) == Breakdown(a, out.total - a, out.total)
  {
    var rate := Rate(Some(p));
    RoundKeepsWholeCents(a);
    if rate != 0.0 {
      var total := RoundCents(a + TaxOn(a, rate));
      NetIsNear(a, rate, total);
      RoundTripOfParts(a, TaxOn(a, rate), Net(total, rate));
    }
  }

  // ---------------------------------------------------------------- do the parts add up?

  /** Subtotal and tax miss the total by a cent at most, in either mode, for any amount. */
  lemma PartsWithinACent(p: Option<TaxProfile>, amount: real)
    requires Inclusive(p) ==> Rate(p) != -100.0
    ensures var b := TaxBreakdown(p, amount); -0.01 <= b.subtotal + b.tax - b.total <= 0.01
  {
    var rate := Rate(p);
    if rate == 0.0 {
    } else if Inclusive(p) {
      IncludedWithinACent(amount, Net(amount, rate));
    } else {
      AddedWithinACent(amount, TaxOn(amount, rate));
    }
  }

  lemma IncludedWithinACent(amount: real, net: real)
    ensures var b := Included(amount, net); -0.01 <= b.subtotal + b.tax - b.total <= 0.01
  {
    var b := Included(amount, net);
    WholeCentsAdd(b.subtotal, b.tax);
    CentsApart(b.subtotal + b.tax, b.total);
  }

  lemma AddedWithinACent(amount: real, tax: real)
    ensures var b := Added(amount, tax); -0.01 <= b.subtotal + b.tax - b.total <= 0.01
  {
    var b := Added(amount, tax);
    WholeCentsAdd(b.subtotal, b.tax);
    CentsApart(b.subtotal + b.tax, b.total);
  }

  /** What rounding to the nearest integer takes off. */
  function Off(y: real): real { y - RoundHalfEven(y) as real }

  /** Rounded to whole cents, two shares keep their sum: what rounding takes off them together is less
      than half a cent, or just half a cent where the rounded shares add up to an even number. */
  predicate SharesAddUp(x: real, y: real) {
    var d := Off(x) + Off(y);
    || -0.5 < d < 0.5
    || ((d == 0.5 || d == -0.5) && (RoundHalfEven(x) + RoundHalfEven(y)) % 2 == 0)
  }

  lemma HalfEvenOfShares(x: real, y: real)
    ensures RoundHalfEven(x) + RoundHalfEven(y) == RoundHalfEven(x + y) <==> SharesAddUp(x, y)
  {
    var k := RoundHalfEven(x) + RoundHalfEven(y);
    var d := Off(x) + Off(y);
    assert x + y == k as real + d;
    FloorShift(k, d);
  }

  lemma FloorShift(k: int, d: real)
    ensures (k as real + d).Floor == k + d.Floor
  {
  }

  /** The share of an amount that stays apart from the tax, and the tax, before rounding. */
  function PreTax(p: Option<TaxProfile>, amount: real): real
    requires Inclusive(p) ==> Rate(p) != -100.0
  {
    if Inclusive(p) then Net(amount, Rate(p)) else amount
  }

  function ExactTax(p: Option<TaxProfile>, amount: real): real
    requires Inclusive(p) ==> Rate(p) != -100.0
  {
    if Inclusive(p) then amount - Net(amount, Rate(p)) else TaxOn(amount, Rate(p))
  }

  /** For any amount, rate and mode, the rounded parts add up to the rounded total exactly when
      rounding takes no more than that off the two shares. */
  lemma PartsAddUp(p: Option<TaxProfile>, amount: real)
    requires Inclusive(p) ==> Rate(p) != -100.0
    ensures
      var b := TaxBreakdown(p, amount);
      b.subtotal + b.tax == b.total <==> SharesAddUp(PreTax(p, amount) * 100.0, ExactTax(p, amount) * 100.0)
  {
    PartsAreShares(p, amount);
    RoundedShares(PreTax(p, amount), ExactTax(p, amount));
  }

  lemma PartsAreShares(p: Option<TaxProfile>, amount: real)
    requires Inclusive(p) ==> Rate(p) != -100.0
    ensures
      var x, y := PreTax(p, amount), ExactTax(p, amount);
      TaxBreakdown(p, amount) == Breakdown(RoundCents(x), RoundCents(y), RoundCents(x + y))
  {
    if Rate(p) == 0.0 {
      NoTax(amount);
    }
  }

  lemma NoTax(amount: real)
    ensures Net(amount, 0.0) == amount && TaxOn(amount, 0.0) == 0.0 && RoundCents(0.0) == 0.0
  {
  }

  lemma RoundedShares(x: real, y: real)
    ensures RoundCents(x) + RoundCents(y) == RoundCents(x + y) <==> SharesAddUp(x * 100.0, y * 100.0)
  {
    HalfEvenOfShares(x * 100.0, y * 100.0);
    var m, k := RoundHalfEven(x * 100.0) + RoundHalfEven(y * 100.0), RoundHalfEven(x * 100.0 + y * 100.0);
    assert (x + y) * 100.0 == x * 100.0 + y * 100.0;
    assert RoundCents(x) + RoundCents(y) == m as real / 100.0;
    assert RoundCents(x + y) == k as real / 100.0;
  }

  /** Exactly between two cents. */
  predicate HalfCent(x: real) {
    x * 100.0 - (x * 100.0).Floor as real == 0.5
  }

  predicate OddCents(x: real) {
    (x * 100.0).Floor % 2 == 1
  }

  lemma HalfEvenOfSum(k: int, y: real)
    ensures k + RoundHalfEven(y) == RoundHalfEven(k as real + y) <==> !(y - y.Floor as real == 0.5 && k % 2 == 1)
  {
    var f := y.Floor;
    assert (k as real + y).Floor == k + f;
  }

  lemma HalfEvenOfDifference(k: int, y: real)
    ensures RoundHalfEven(y) + RoundHalfEven(k as real - y) == k <==> !(y - y.Floor as real == 0.5 && k % 2 == 1)
  {
    var f := y.Floor;
    if y == f as real {
      assert (k as real - y).Floor == k - f;
    } else {
      assert (k as real - y).Floor == k - f - 1;
    }
  }

  /** For an amount in whole cents that is: they add up, except when the part that is rounded falls
      on half a cent and the amount is an odd number of cents: the pre-tax share in inclusive mode,
      the tax in exclusive mode. */
  lemma WholeCentsAddUp(p: Option<TaxProfile>, a: real)
    requires WholeCents(a) && (Inclusive(p) ==> Rate(p) != -100.0)
    ensures
      var b := TaxBreakdown(p, a);
      var rounded := if Inclusive(p) then Net(a, Rate(p)) else TaxOn(a, Rate(p));
      b.subtotal + b.tax == b.total <==> !(HalfCent(rounded) && OddCents(a))
  {
    if Rate(p) == 0.0 {
      RoundKeepsWholeCents(a);
    } else if Inclusive(p) {
      IncludedAddsUp(a, Net(a, Rate(p)));
    } else {
      AddedAddsUp(a, TaxOn(a, Rate(p)));
    }
  }

  lemma IncludedAddsUp(a: real, net: real)
    requires WholeCents(a)
    ensures var b := Included(a, net); b.subtotal + b.tax == b.total <==> !(HalfCent(net) && OddCents(a))
  {
    var k := (a * 100.0).Floor;
    RoundKeepsWholeCents(a);
    HalfEvenOfDifference(k, net * 100.0);
    assert (a - net) * 100.0 == k as real - net * 100.0;
  }

  lemma AddedAddsUp(a: real, tax: real)
    requires WholeCents(a)
    ensures var b := Added(a, tax); b.subtotal + b.tax == b.total <==> !(HalfCent(tax) && OddCents(a))
  {
    var k := (a * 100.0).Floor;
    RoundKeepsWholeCents(a);
    HalfEvenOfSum(k, tax * 100.0);
    assert (a + tax) * 100.0 == k as real + tax * 100.0;
  }

  /** One cent at fifty per cent: half a cent of tax rounds to nothing, a cent and a half to two. */
  lemma PartsCanMiss()
    ensures TaxBreakdown(Some(TaxProfile(50.0, false, false)), 0.01) == Breakdown(0.01, 0.0, 0.02)
  {
    assert 0.01 * (50.0 / 100.0) == 0.005;
    assert (0.01 * 100.0).Floor == 1 && (0.005 * 100.0).Floor == 0 && (0.015 * 100.0).Floor == 1;
  }

  /** Four tenths of a cent at a hundred per cent: nothing and nothing, yet a cent in total, with no
      half cent anywhere. */
  lemma SmallPartsCanMiss()
    ensures TaxBreakdown(Some(TaxProfile(100.0, false, false)), 0.004) == Breakdown(0.0, 0.0, 0.01)
    ensures !HalfCent(0.004) && !OddCents(0.004)
  {
    assert 0.004 * (100.0 / 100.0) == 0.004;
    assert (0.004 * 100.0).Floor == 0 && (0.008 * 100.0).Floor == 0;
  }

  // ---------------------------------------------------------------- what the parts are

  /** Without a profile, for an exempt one, and at rate zero there is no tax and the amount is the
      total. Otherwise the parts are, each to the nearest cent: in exclusive mode the amount, the rate's
      share of it on top, and both together; in inclusive mode the amount as total, and what it is made
      of: a net amount and the rate's share of that. */
  lemma PartsAreTaxed(p: Option<TaxProfile>, amount: real, net: real)
    requires p.Some? ==> p.value.defaultRate >= 0.0
    requires p.Some? ==> net + net * p.value.defaultRate / 100.0 == amount
    ensures
      var b := TaxBreakdown(p, amount);
      if p.None? || p.value.exempt || p.value.defaultRate == 0.0 then
        b.tax == 0.0 && b.total == b.subtotal && NearestCent(b.total, amount)
      else if p.value.inclusive then
        && NearestCent(b.subtotal, net) && NearestCent(b.tax, net * p.value.defaultRate / 100.0)
        && NearestCent(b.total, amount)
      else
        && NearestCent(b.subtotal, amount) && NearestCent(b.tax, amount * p.value.defaultRate / 100.0)
        && NearestCent(b.total, amount + amount * p.value.defaultRate / 100.0)
  {
    if p.Some? && !p.value.exempt && p.value.defaultRate != 0.0 {
      if p.value.inclusive {
        NetIsDivided(amount, net, p.value.defaultRate);
      } else {
        assert TaxOn(amount, p.value.defaultRate) == amount * p.value.defaultRate / 100.0;
      }
    }
  }

  lemma NetIsDivided(amount: real, net: real, rate: real)
    requires rate >= 0.0 && net + net * rate / 100.0 == amount
    ensures Net(amount, rate) == net
  {
    var f := 1.0 + rate / 100.0;
    assert net * f == amount;
    assert Net(amount, rate) * f == amount;
    assert (Net(amount, rate) - net) * f == 0.0;
  }
}
