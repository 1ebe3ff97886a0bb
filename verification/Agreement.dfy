/** Where the running balances and the ledgers agree, and the one way they can part. */
module Agreement {
  import opened Sums
  import opened Rows
  import opened Rules
  import opened Figures
  import opened Records
  import Balances

  // ---------------------------------------------------------------- customers

  /** A sale in the customer's name that charged them nothing, yet gave money back when reversed. */
  predicate UnchargedRefund(x: FuelSale, c: Id) {
    x.customerId == Some(c) && !x.saleType.Credit? && x.rev.isReversed && x.quantity > 0.0
  }

  /** In every reachable state a customer's balance is the final balance of their ledger plus
      their posted trip deliveries exactly when no sale that named them without being a credit
      sale, and that dispensed anything, has been reversed. */
  lemma CustomerAgreement(s0: State, calls: seq<Call>, c: Id)
    requires Initial(s0) && c < |s0.customers|
    ensures |Run(s0, calls).customers| == |s0.customers|
    ensures
      var s := Run(s0, calls);
      s.customers[c].outstandingBalance == CustomerLedger(s, c) + Sum(s.trips, DeliveredByTrip(c))
      <==> forall i :: 0 <= i < |s.sales| ==> !UnchargedRefund(s.sales[i], c)
  {
    Balances.BalancesAgree(s0, calls);
    RunKeepsRecords(s0, calls);
    RefundsVanish(s0, Run(s0, calls), c);
  }

  lemma RefundsVanish(s0: State, s: State, c: Id)
    requires GoodSales(s0, s.sales, s.clock)
    ensures Sum(s.sales, RefundedUncharged(c)) == 0.0
      <==> forall i :: 0 <= i < |s.sales| ==> !UnchargedRefund(s.sales[i], c)
  {
    SumNonNegative(s.sales, RefundedUncharged(c));
    if forall i :: 0 <= i < |s.sales| ==> !UnchargedRefund(s.sales[i], c) {
      SumZero(s.sales, RefundedUncharged(c));
    } else {
      var i :| 0 <= i < |s.sales| && UnchargedRefund(s.sales[i], c);
      assert RefundedUncharged(c)(s.sales[i]) > 0.0;
    }
  }

  predicate NamesOnCredit(call: Call, c: Id) {
    call.op.Forecourt? && call.op.forecourt.CreateSale? && call.op.forecourt.sale.customerId == Some(c) ==>
      call.op.forecourt.sale.saleType.Credit?
  }

  /** The guard a caller can apply: name a customer only on credit sales. */
  lemma CreditOnlyNamingAgrees(s0: State, calls: seq<Call>, c: Id)
    requires Initial(s0) && c < |s0.customers|
    requires forall i :: 0 <= i < |calls| ==> NamesOnCredit(calls[i], c)
    ensures |Run(s0, calls).customers| == |s0.customers|
    ensures var s := Run(s0, calls);
      s.customers[c].outstandingBalance == CustomerLedger(s, c) + Sum(s.trips, DeliveredByTrip(c))
  {
    CustomerAgreement(s0, calls, c);
    NamedSalesAreCredit(s0, calls, c);
  }

  ghost predicate NamedOnlyOnCredit(sales: seq<FuelSale>, c: Id) {
    forall i :: 0 <= i < |sales| ==> (sales[i].customerId == Some(c) ==> sales[i].saleType.Credit?)
  }

  lemma {:induction false} NamedSalesAreCredit(s0: State, calls: seq<Call>, c: Id)
    requires Initial(s0)
    requires forall i :: 0 <= i < |calls| ==> NamesOnCredit(calls[i], c)
    ensures NamedOnlyOnCredit(Run(s0, calls).sales, c)
  {
    if calls != [] {
      var last := |calls| - 1;
      NamedSalesAreCredit(s0, calls[..last], c);
      var s := Run(s0, calls[..last]);
      NewSalesComeFromCalls(s, calls[last]);
      var t := Step(s, calls[last]);
      assert NamesOnCredit(calls[last], c);
      forall i | 0 <= i < |t.sales| ensures t.sales[i].customerId == Some(c) ==> t.sales[i].saleType.Credit? {
        assert i < |s.sales| ==> t.sales[i].customerId == s.sales[i].customerId;
      }
    }
  }

  lemma NewSalesComeFromCalls(s: State, call: Call)
    ensures forall i :: 0 <= i < |s.sales| && i < |Step(s, call).sales| ==>
      Step(s, call).sales[i].customerId == s.sales[i].customerId
        && Step(s, call).sales[i].saleType == s.sales[i].saleType
    ensures |s.sales| <= |Step(s, call).sales| <= |s.sales| + 1
    ensures |Step(s, call).sales| == |s.sales| + 1 ==>
      && call.op.Forecourt? && call.op.forecourt.CreateSale?
      && Step(s, call).sales[|s.sales|].customerId == call.op.forecourt.sale.customerId
      && Step(s, call).sales[|s.sales|].saleType == call.op.forecourt.sale.saleType
  {
    if Perform(s, call).Ok? {
      if call.op.Reversing? {
        var rev := ReversalShape(s, call.caller, call.op.reversing);
      } else {
        Frame(s, call);
      }
    }
  }

  // ---------------------------------------------------------------- suppliers, station by station

  function BoughtAt(tanks: seq<Tank>, p: Id, st: Id): Purchase -> real {
    (x: Purchase) => if x.tankId < |tanks| && tanks[x.tankId].stationId == st then Owed(p)(x) else 0.0
  }

  function BoughtBelow(tanks: seq<Tank>, p: Id, n: nat): Purchase -> real {
    (x: Purchase) => if x.tankId < |tanks| && tanks[x.tankId].stationId < n then Owed(p)(x) else 0.0
  }

  function PaidAt(p: Id, st: Id): SupplierPayment -> real {
    (x: SupplierPayment) => if x.stationId == st then PaidTo(p)(x) else 0.0
  }

  function PaidBelow(p: Id, n: nat): SupplierPayment -> real {
    (x: SupplierPayment) => if x.stationId < n then PaidTo(p)(x) else 0.0
  }

  /** The balance a station's statement for the supplier ends on. */
  function StationStatement(s: State, p: Id, st: Id): real {
    Sum(s.purchases, BoughtAt(s.tanks, p, st)) - Sum(s.supplierPayments, PaidAt(p, st))
  }

  function StatementsTotal(s: State, p: Id, n: nat): real {
    if n == 0 then 0.0 else StatementsTotal(s, p, n - 1) + StationStatement(s, p, n - 1)
  }

  lemma {:induction false} StatementsSoFar(s: State, p: Id, n: nat)
    ensures StatementsTotal(s, p, n)
      == Sum(s.purchases, BoughtBelow(s.tanks, p, n)) - Sum(s.supplierPayments, PaidBelow(p, n))
  {
    if n == 0 {
      forall i | 0 <= i < |s.purchases| ensures BoughtBelow(s.tanks, p, n)(s.purchases[i]) == 0.0 {
        assert s.purchases[i].tankId < |s.tanks| ==> s.tanks[s.purchases[i].tankId].stationId >= n;
      }
      forall i | 0 <= i < |s.supplierPayments| ensures PaidBelow(p, n)(s.supplierPayments[i]) == 0.0 {
        assert s.supplierPayments[i].stationId >= n;
      }
      SumZero(s.purchases, BoughtBelow(s.tanks, p, n));
      SumZero(s.supplierPayments, PaidBelow(p, n));
    } else {
      StatementsSoFar(s, p, n - 1);
      SumSplit(s.purchases, BoughtBelow(s.tanks, p, n), BoughtBelow(s.tanks, p, n - 1), BoughtAt(s.tanks, p, n - 1));
      SumSplit(s.supplierPayments, PaidBelow(p, n), PaidBelow(p, n - 1), PaidAt(p, n - 1));
    }
  }

  /** In every reachable state a supplier's balance is their ledger, is not negative, and is the
      sum of the balances on their statements over all stations. */
  lemma SupplierAgreement(s0: State, calls: seq<Call>, p: Id)
    requires Initial(s0) && p < |s0.suppliers|
    requires forall t :: 0 <= t < |s0.tanks| ==> s0.tanks[t].stationId < s0.stations
    ensures |Run(s0, calls).suppliers| == |s0.suppliers|
    ensures
      var s := Run(s0, calls);
      s.suppliers[p].payableBalance == SupplierLedger(s, p) == StatementsTotal(s, p, s.stations) >= 0.0
  {
    Balances.BalancesAgree(s0, calls);
    RunKeepsRecords(s0, calls);
    var s := Run(s0, calls);
    StatementsSoFar(s, p, s.stations);
    forall i | 0 <= i < |s.purchases|
      ensures BoughtBelow(s.tanks, p, s.stations)(s.purchases[i]) == Owed(p)(s.purchases[i])
    {
      assert GoodPurchase(s0, s.clock, s.purchases[i]);
      assert SameTank(s.tanks[s.purchases[i].tankId], s0.tanks[s.purchases[i].tankId]);
    }
    SumEqual(s.purchases, BoughtBelow(s.tanks, p, s.stations), Owed(p));
    SumEqual(s.supplierPayments, PaidBelow(p, s.stations), PaidTo(p));
  }

  // ---------------------------------------------------------------- selling and taking back

  /** Whether an administrator could take the sale back straight away. */
  predicate CanTakeBack(s: State, d: SaleData)
    requires d.nozzleId < |s.nozzles|
  {
    var t := s.nozzles[d.nozzleId].tankId;
    && (t < |s.tanks| ==> s.tanks[t].currentVolume <= s.tanks[t].capacity)
    && (d.customerId.Some? && d.customerId.value < |s.customers| ==>
          s.customers[d.customerId.value].outstandingBalance
          >= if d.saleType.Credit? then 0.0 else Quantity(s, d) * d.rate)
  }

  /** A sale can be taken back at once exactly when its tank is not over capacity and the customer
      it names can bear the refund. */
  lemma TakeBackAccepted(s: State, u: Caller, d: SaleData)
    requires CreateSaleFault(s, u, d).None? && u.isAdmin
    ensures ReverseFault(CreateSaleEffect(s, u, d), u, SaleRecord(|s.sales|)).None? <==> CanTakeBack(s, d)
  {
    var s' := CreateSaleEffect(s, u, d);
    assert s'.sales[|s.sales|] == SaleRow(s, u, d);
  }

  /** The credit sale goes over the customer's limit while some override is left. */
  predicate UsesOverride(s: State, d: SaleData)
    requires d.nozzleId < |s.nozzles|
  {
    && d.saleType.Credit? && d.customerId.Some? && d.customerId.value < |s.customers|
    && s.customers[d.customerId.value].overrideAmount > 0.0
    && s.customers[d.customerId.value].outstandingBalance + Quantity(s, d) * d.rate
       > s.customers[d.customerId.value].creditLimit
  }

  /** Creating a sale and reversing it restores every meter, tank volume and nozzle reading. For a
      credit sale it restores every balance, and the whole customer table exactly when the sale used
      no override: a used override is not given back. */
  lemma TakeBackRestores(s: State, u: Caller, d: SaleData)
    requires ReadingsMatch(s) && CreateSaleFault(s, u, d).None? && u.isAdmin && CanTakeBack(s, d)
    ensures ReverseFault(CreateSaleEffect(s, u, d), u, SaleRecord(|s.sales|)).None?
    ensures
      var back := ReverseEffect(CreateSaleEffect(s, u, d), u, SaleRecord(|s.sales|));
      && back.nozzles == s.nozzles && back.tanks == s.tanks && back.readings == s.readings
      && |back.customers| == |s.customers|
      && (d.customerId.None? ==> back.customers == s.customers)
      && (d.saleType.Credit? ==>
            && (back.customers == s.customers <==> !UsesOverride(s, d))
            && forall c :: 0 <= c < |s.customers| ==>
              back.customers[c].outstandingBalance == s.customers[c].outstandingBalance)
  {
    TakeBackAccepted(s, u, d);
    var s' := CreateSaleEffect(s, u, d);
    assert s'.sales[|s.sales|] == SaleRow(s, u, d);
    var back := ReverseEffect(s', u, SaleRecord(|s.sales|));
    assert |s.sales| !in s.readings;
    assert back.nozzles == s.nozzles;
    assert back.tanks == s.tanks;
    assert back.readings == s.readings;
    if d.saleType.Credit? {
      ChargeAndRefund(s.customers[d.customerId.value], Quantity(s, d) * d.rate);
      var c := d.customerId.value;
      assert !UsesOverride(s, d) ==> back.customers == s.customers;
      assert UsesOverride(s, d) ==> back.customers[c] != s.customers[c];
    }
  }

  lemma ChargeAndRefund(c: Customer, amount: real)
    ensures var charged := Charge(c, amount);
      var refunded := charged.(outstandingBalance := charged.outstandingBalance - amount);
      && refunded.outstandingBalance == c.outstandingBalance
      && (refunded == c <==> !(c.overrideAmount > 0.0 && c.outstandingBalance + amount > c.creditLimit))
  {
  }
}
