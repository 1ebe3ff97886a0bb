/** The read-only side: ledgers, statements and the stock movement report, as they are built. */
module Reports {
  import opened Money
  import opened Sums
  import opened Rows
  import opened Rules
  import opened Figures
  import Agreement
  import Records
  import Tanks

  datatype Entry = Entry(date: nat, amount: real)
  datatype Line = Line(entry: Entry, balance: real)

  function AmountOfEntry(): Entry -> real { (e: Entry) => e.amount }

  // ---------------------------------------------------------------- sorting

  predicate SortedByDate(entries: seq<Entry>) {
    forall i, j :: 0 <= i < j < |entries| ==> entries[i].date <= entries[j].date
  }

  /** After every entry that is not later: entries of one date keep their order. */
  function Insert(entries: seq<Entry>, e: Entry): seq<Entry> {
    if entries == [] || entries[|entries| - 1].date <= e.date then entries + [e]
    else Insert(entries[..|entries| - 1], e) + [entries[|entries| - 1]]
  }

  predicate NoneAfter(entries: seq<Entry>, d: nat) {
    forall i :: 0 <= i < |entries| ==> entries[i].date <= d
  }

  lemma {:induction false} InsertKeepsAll(entries: seq<Entry>, e: Entry)
    ensures multiset(Insert(entries, e)) == multiset(entries) + multiset{e}
  {
    if !(entries == [] || entries[|entries| - 1].date <= e.date) {
      InsertKeepsAll(entries[..|entries| - 1], e);
      assert entries == entries[..|entries| - 1] + [entries[|entries| - 1]];
    }
  }

  lemma {:induction false} InsertKeepsBound(entries: seq<Entry>, e: Entry, d: nat)
    requires NoneAfter(entries, d) && e.date <= d
    ensures NoneAfter(Insert(entries, e), d)
  {
    if !(entries == [] || entries[|entries| - 1].date <= e.date) {
      InsertKeepsBound(entries[..|entries| - 1], e, d);
    }
  }

  lemma {:induction false} InsertSorts(entries: seq<Entry>, e: Entry)
    requires SortedByDate(entries)
    ensures SortedByDate(Insert(entries, e))
  {
    if !(entries == [] || entries[|entries| - 1].date <= e.date) {
      var rest, last := entries[..|entries| - 1], entries[|entries| - 1];
      InsertSorts(rest, e);
      InsertKeepsBound(rest, e, last.date);
    }
  }

  function SortByDate(entries: seq<Entry>): (r: seq<Entry>)
    ensures SortedByDate(r) && multiset(r) == multiset(entries)
  {
    if entries == [] then []
    else
      var rest, last := entries[..|entries| - 1], entries[|entries| - 1];
      InsertKeepsAll(SortByDate(rest), last);
      InsertSorts(SortByDate(rest), last);
      assert entries == rest + [last];
      Insert(SortByDate(rest), last)
  }

  function OnDate(entries: seq<Entry>, d: nat): seq<Entry> {
    if entries == [] then []
    else
      var last := entries[|entries| - 1];
      OnDate(entries[..|entries| - 1], d) + if last.date == d then [last] else []
  }

  lemma {:induction false} InsertIsLast(entries: seq<Entry>, e: Entry, d: nat)
    ensures OnDate(Insert(entries, e), d) == OnDate(entries, d) + if e.date == d then [e] else []
  {
    if entries == [] || entries[|entries| - 1].date <= e.date {
      assert (entries + [e])[..|entries|] == entries;
    } else {
      var rest, last := entries[..|entries| - 1], entries[|entries| - 1];
      InsertIsLast(rest, e, d);
      assert (Insert(rest, e) + [last])[..|Insert(rest, e)|] == Insert(rest, e);
    }
  }

  /** The sort is stable: entries of one date keep the order they came in. */
  lemma {:induction false} SortIsStable(entries: seq<Entry>, d: nat)
    ensures OnDate(SortByDate(entries), d) == OnDate(entries, d)
  {
    if entries != [] {
      var rest, last := entries[..|entries| - 1], entries[|entries| - 1];
      SortIsStable(rest, d);
      InsertIsLast(SortByDate(rest), last, d);
    }
  }

  // ---------------------------------------------------------------- the running balance

  /** Each line shows the sum of the entries up to it. */
  ghost predicate Running(lines: seq<Line>, entries: seq<Entry>) {
    && |lines| == |entries|
    && forall i :: 0 <= i < |lines| ==>
         lines[i].entry == entries[i] && lines[i].balance == Sum(entries[..i + 1], AmountOfEntry())
  }

  method RunBalance(entries: seq<Entry>) returns (lines: seq<Line>, balance: real)
    ensures Running(lines, entries) && balance == Sum(entries, AmountOfEntry())
  {
    lines, balance := [], 0.0;
    for i := 0 to |entries|
      invariant |lines| == i && balance == Sum(entries[..i], AmountOfEntry())
      invariant forall k :: 0 <= k < i ==>
        lines[k].entry == entries[k] && lines[k].balance == Sum(entries[..k + 1], AmountOfEntry())
    {
      assert entries[..i + 1] == entries[..i] + [entries[i]];
      SumAppend(entries[..i], entries[i], AmountOfEntry());
      balance := balance + entries[i].amount;
      lines := lines + [Line(entries[i], balance)];
    }
    assert entries[..|entries|] == entries;
  }

  /** A ledger of these entries: all of them, in date order, with their running balance. */
  ghost predicate IsLedgerOf(lines: seq<Line>, entries: seq<Entry>, total: real) {
    && (exists sorted :: SortedByDate(sorted) && multiset(sorted) == multiset(entries) && Running(lines, sorted))
    && total == (if lines == [] then 0.0 else lines[|lines| - 1].balance)
  }

  method CloseLedger(entries: seq<Entry>) returns (lines: seq<Line>, balance: real)
    ensures balance == Sum(entries, AmountOfEntry()) && IsLedgerOf(lines, entries, balance)
  {
    var sorted := SortByDate(entries);
    SumPermutation(sorted, entries, AmountOfEntry());
    lines, balance := RunBalance(sorted);
    assert sorted[..|sorted|] == sorted;
  }

  // ---------------------------------------------------------------- which records enter a ledger

  function CreditEntries(sales: seq<FuelSale>, c: Id): seq<Entry> {
    if sales == [] then []
    else
      var s := sales[|sales| - 1];
      CreditEntries(sales[..|sales| - 1], c)
      + if s.customerId == Some(c) && s.saleType.Credit? && !s.rev.isReversed then [Entry(s.createdAt, s.totalAmount)]
        else []
  }

  function PaidEntries(payments: seq<CustomerPayment>, c: Id): seq<Entry> {
    if payments == [] then []
    else
      var p := payments[|payments| - 1];
      PaidEntries(payments[..|payments| - 1], c)
      + if p.customerId == c && !p.rev.isReversed then [Entry(p.createdAt, -p.amount)] else []
  }

  /** A station's statement takes only purchases into its own tanks, the ledger all of them. */
  function PurchaseEntries(tanks: seq<Tank>, purchases: seq<Purchase>, p: Id, st: Option<Id>): seq<Entry> {
    if purchases == [] then []
    else
      var x := purchases[|purchases| - 1];
      PurchaseEntries(tanks, purchases[..|purchases| - 1], p, st)
      + if x.supplierId == p && x.status.Approved? && !x.rev.isReversed
           && (st.None? || (x.tankId < |tanks| && tanks[x.tankId].stationId == st.value))
        then [Entry(x.createdAt, x.totalAmount)] else []
  }

  function PaymentEntries(payments: seq<SupplierPayment>, p: Id, st: Option<Id>): seq<Entry> {
    if payments == [] then []
    else
      var x := payments[|payments| - 1];
      PaymentEntries(payments[..|payments| - 1], p, st)
      + if x.supplierId == p && !x.rev.isReversed && (st.None? || x.stationId == st.value)
        then [Entry(x.createdAt, -x.amount)] else []
  }

  lemma {:induction false} CreditEntriesTotal(sales: seq<FuelSale>, c: Id)
    ensures Sum(CreditEntries(sales, c), AmountOfEntry()) == Sum(sales, CreditSale(c))
  {
    if sales != [] {
      var s := sales[|sales| - 1];
      CreditEntriesTotal(sales[..|sales| - 1], c);
      var rest := CreditEntries(sales[..|sales| - 1], c);
      assert rest + [] == rest;
      SumAppend(rest, Entry(s.createdAt, s.totalAmount), AmountOfEntry());
    }
  }

  lemma {:induction false} PaidEntriesTotal(payments: seq<CustomerPayment>, c: Id)
    ensures Sum(PaidEntries(payments, c), AmountOfEntry()) == -Sum(payments, PaidBy(c))
  {
    if payments != [] {
      var p := payments[|payments| - 1];
      PaidEntriesTotal(payments[..|payments| - 1], c);
      var rest := PaidEntries(payments[..|payments| - 1], c);
      assert rest + [] == rest;
      SumAppend(rest, Entry(p.createdAt, -p.amount), AmountOfEntry());
    }
  }

  lemma {:induction false} PurchaseEntriesTotal(tanks: seq<Tank>, purchases: seq<Purchase>, p: Id, st: Option<Id>)
    ensures Sum(PurchaseEntries(tanks, purchases, p, st), AmountOfEntry())
         == Sum(purchases, if st.None? then Owed(p) else Agreement.BoughtAt(tanks, p, st.value))
  {
    if purchases != [] {
      var x := purchases[|purchases| - 1];
      PurchaseEntriesTotal(tanks, purchases[..|purchases| - 1], p, st);
      var rest := PurchaseEntries(tanks, purchases[..|purchases| - 1], p, st);
      assert rest + [] == rest;
      SumAppend(rest, Entry(x.createdAt, x.totalAmount), AmountOfEntry());
      assert Owed(p)(x) == if x.supplierId == p && x.status.Approved? && !x.rev.isReversed then x.totalAmount else 0.0;
    }
  }

  lemma {:induction false} PaymentEntriesTotal(payments: seq<SupplierPayment>, p: Id, st: Option<Id>)
    ensures Sum(PaymentEntries(payments, p, st), AmountOfEntry())
         == -Sum(payments, if st.None? then PaidTo(p) else Agreement.PaidAt(p, st.value))
  {
    if payments != [] {
      var x := payments[|payments| - 1];
      PaymentEntriesTotal(payments[..|payments| - 1], p, st);
      var rest := PaymentEntries(payments[..|payments| - 1], p, st);
      assert rest + [] == rest;
      SumAppend(rest, Entry(x.createdAt, -x.amount), AmountOfEntry());
      assert PaidTo(p)(x) == if x.supplierId == p && !x.rev.isReversed then x.amount else 0.0;
    }
  }

  function SupplierEntries(db: State, p: Id, st: Option<Id>): seq<Entry> {
    PurchaseEntries(db.tanks, db.purchases, p, st) + PaymentEntries(db.supplierPayments, p, st)
  }

  lemma SupplierEntriesTotal(db: State, p: Id, st: Option<Id>)
    ensures Sum(SupplierEntries(db, p, st), AmountOfEntry())
         == if st.None? then SupplierLedger(db, p) else Agreement.StationStatement(db, p, st.value)
  {
    PurchaseEntriesTotal(db.tanks, db.purchases, p, st);
    PaymentEntriesTotal(db.supplierPayments, p, st);
    SumConcat(PurchaseEntries(db.tanks, db.purchases, p, st), PaymentEntries(db.supplierPayments, p, st),
              AmountOfEntry());
  }

  // ---------------------------------------------------------------- ledgers

  /** The customer ledger lists the unreversed credit sales and payments and ends on their sum. */
  method BuildCustomerLedger(db: State, c: Id) returns (r: Option<(seq<Line>, real)>)
    ensures r.None? <==> c >= |db.customers|
    ensures r.Some? ==>
      && r.value.1 == CustomerLedger(db, c)
      && IsLedgerOf(r.value.0, CreditEntries(db.sales, c) + PaidEntries(db.customerPayments, c), r.value.1)
  {
    if c >= |db.customers| { return None; }
    var entries: seq<Entry> := [];
    for i := 0 to |db.sales|
      invariant entries == CreditEntries(db.sales[..i], c)
    {
      assert db.sales[..i + 1][..i] == db.sales[..i];
      var s := db.sales[i];
      if s.customerId == Some(c) && s.saleType.Credit? && !s.rev.isReversed {
        entries := entries + [Entry(s.createdAt, s.totalAmount)];
      }
    }
    assert db.sales[..|db.sales|] == db.sales;
    for i := 0 to |db.customerPayments|
      invariant entries == CreditEntries(db.sales, c) + PaidEntries(db.customerPayments[..i], c)
    {
      assert db.customerPayments[..i + 1][..i] == db.customerPayments[..i];
      var p := db.customerPayments[i];
      if p.customerId == c && !p.rev.isReversed {
        entries := entries + [Entry(p.createdAt, -p.amount)];
      }
    }
    assert db.customerPayments[..|db.customerPayments|] == db.customerPayments;
    CreditEntriesTotal(db.sales, c);
    PaidEntriesTotal(db.customerPayments, c);
    SumConcat(CreditEntries(db.sales, c), PaidEntries(db.customerPayments, c), AmountOfEntry());
    var lines, balance := CloseLedger(entries);
    return Some((lines, balance));
  }

  /** The supplier's purchases and payments, at one station or at all. */
  method CollectSupplierEntries(db: State, p: Id, st: Option<Id>) returns (entries: seq<Entry>)
    ensures entries == SupplierEntries(db, p, st)
  {
    entries := [];
    for i := 0 to |db.purchases|
      invariant entries == PurchaseEntries(db.tanks, db.purchases[..i], p, st)
    {
      assert db.purchases[..i + 1][..i] == db.purchases[..i];
      var x := db.purchases[i];
      var here := st.None? || (x.tankId < |db.tanks| && db.tanks[x.tankId].stationId == st.value);
      if x.supplierId == p && x.status.Approved? && !x.rev.isReversed && here {
        entries := entries + [Entry(x.createdAt, x.totalAmount)];
      }
    }
    assert db.purchases[..|db.purchases|] == db.purchases;
    for i := 0 to |db.supplierPayments|
      invariant entries
        == PurchaseEntries(db.tanks, db.purchases, p, st) + PaymentEntries(db.supplierPayments[..i], p, st)
    {
      assert db.supplierPayments[..i + 1][..i] == db.supplierPayments[..i];
      var x := db.supplierPayments[i];
      if x.supplierId == p && !x.rev.isReversed && (st.None? || x.stationId == st.value) {
        entries := entries + [Entry(x.createdAt, -x.amount)];
      }
    }
    assert db.supplierPayments[..|db.supplierPayments|] == db.supplierPayments;
  }

  method BuildSupplierLedger(db: State, p: Id) returns (r: Option<(seq<Line>, real)>)
    ensures r.None? <==> p >= |db.suppliers|
    ensures r.Some? ==>
      && r.value.1 == SupplierLedger(db, p)
      && IsLedgerOf(r.value.0, SupplierEntries(db, p, None), r.value.1)
  {
    if p >= |db.suppliers| { return None; }
    var entries := CollectSupplierEntries(db, p, None);
    SupplierEntriesTotal(db, p, None);
    var lines, balance := CloseLedger(entries);
    return Some((lines, balance));
  }

  /** One station's statement for a supplier. */
  method BuildSupplierStatement(db: State, p: Id, st: Id) returns (lines: seq<Line>, running: real)
    ensures running == Agreement.StationStatement(db, p, st)
    ensures IsLedgerOf(lines, SupplierEntries(db, p, Some(st)), running)
  {
    var entries := CollectSupplierEntries(db, p, Some(st));
    SupplierEntriesTotal(db, p, Some(st));
    lines, running := CloseLedger(entries);
  }

  // ---------------------------------------------------------------- what a line of a ledger says

  function DatedBy(t: nat): Entry -> real { (e: Entry) => if e.date <= t then e.amount else 0.0 }

  /** The figures of the records created by then. */
  function CreditBy(c: Id, t: nat): FuelSale -> real { (x: FuelSale) =>
    if x.createdAt <= t then CreditSale(c)(x) else 0.0 }

  function PaidUntil(c: Id, t: nat): CustomerPayment -> real {
    (p: CustomerPayment) => if p.createdAt <= t then PaidBy(c)(p) else 0.0
  }

  function OwedUntil(tanks: seq<Tank>, p: Id, st: Option<Id>, t: nat): Purchase -> real {
    (x: Purchase) =>
      if x.createdAt > t then 0.0 else if st.None? then Owed(p)(x) else Agreement.BoughtAt(tanks, p, st.value)(x)
  }

  function SettledUntil(p: Id, st: Option<Id>, t: nat): SupplierPayment -> real {
    (x: SupplierPayment) =>
      if x.createdAt > t then 0.0 else if st.None? then PaidTo(p)(x) else Agreement.PaidAt(p, st.value)(x)
  }

  lemma {:induction false} CreditEntriesBy(sales: seq<FuelSale>, c: Id, t: nat)
    ensures Sum(CreditEntries(sales, c), DatedBy(t)) == Sum(sales, CreditBy(c, t))
  {
    if sales != [] {
      var s := sales[|sales| - 1];
      CreditEntriesBy(sales[..|sales| - 1], c, t);
      var rest := CreditEntries(sales[..|sales| - 1], c);
      assert rest + [] == rest;
      SumAppend(rest, Entry(s.createdAt, s.totalAmount), DatedBy(t));
      assert CreditBy(c, t)(s) == if s.createdAt <= t then CreditSale(c)(s) else 0.0;
    }
  }

  lemma {:induction false} PaidEntriesBy(payments: seq<CustomerPayment>, c: Id, t: nat)
    ensures Sum(PaidEntries(payments, c), DatedBy(t)) == -Sum(payments, PaidUntil(c, t))
  {
    if payments != [] {
      var p := payments[|payments| - 1];
      PaidEntriesBy(payments[..|payments| - 1], c, t);
      var rest := PaidEntries(payments[..|payments| - 1], c);
      assert rest + [] == rest;
      SumAppend(rest, Entry(p.createdAt, -p.amount), DatedBy(t));
      assert PaidUntil(c, t)(p) == if p.createdAt <= t then PaidBy(c)(p) else 0.0;
    }
  }

  lemma {:induction false} PurchaseEntriesBy(tanks: seq<Tank>, purchases: seq<Purchase>, p: Id, st: Option<Id>, t: nat)
    ensures Sum(PurchaseEntries(tanks, purchases, p, st), DatedBy(t)) == Sum(purchases, OwedUntil(tanks, p, st, t))
  {
    if purchases != [] {
      var x := purchases[|purchases| - 1];
      PurchaseEntriesBy(tanks, purchases[..|purchases| - 1], p, st, t);
      var rest := PurchaseEntries(tanks, purchases[..|purchases| - 1], p, st);
      assert rest + [] == rest;
      SumAppend(rest, Entry(x.createdAt, x.totalAmount), DatedBy(t));
      assert Owed(p)(x) == if x.supplierId == p && x.status.Approved? && !x.rev.isReversed then x.totalAmount else 0.0;
      if st.Some? {
        var here := x.tankId < |tanks| && tanks[x.tankId].stationId == st.value;
        assert Agreement.BoughtAt(tanks, p, st.value)(x) == if here then Owed(p)(x) else 0.0;
      }
    }
  }

  lemma {:induction false} PaymentEntriesBy(payments: seq<SupplierPayment>, p: Id, st: Option<Id>, t: nat)
    ensures Sum(PaymentEntries(payments, p, st), DatedBy(t)) == -Sum(payments, SettledUntil(p, st, t))
  {
    if payments != [] {
      var x := payments[|payments| - 1];
      PaymentEntriesBy(payments[..|payments| - 1], p, st, t);
      var rest := PaymentEntries(payments[..|payments| - 1], p, st);
      assert rest + [] == rest;
      SumAppend(rest, Entry(x.createdAt, -x.amount), DatedBy(t));
      assert PaidTo(p)(x) == if x.supplierId == p && !x.rev.isReversed then x.amount else 0.0;
      assert st.Some? ==> Agreement.PaidAt(p, st.value)(x) == if x.stationId == st.value then PaidTo(p)(x) else 0.0;
    }
  }

  /** The line is the last of its date. */
  ghost predicate EndsDate(lines: seq<Line>, i: nat) {
    i < |lines| && (i + 1 < |lines| ==> lines[i].entry.date < lines[i + 1].entry.date)
  }

  lemma SplitAtDate(sorted: seq<Entry>, i: nat)
    requires SortedByDate(sorted) && i < |sorted|
    requires i + 1 < |sorted| ==> sorted[i].date < sorted[i + 1].date
    ensures Sum(sorted, DatedBy(sorted[i].date)) == Sum(sorted[..i + 1], AmountOfEntry())
  {
    var t, earlier, later := sorted[i].date, sorted[..i + 1], sorted[i + 1..];
    assert sorted == earlier + later;
    SumConcat(earlier, later, DatedBy(t));
    SumEqual(earlier, AmountOfEntry(), DatedBy(t));
    forall k | 0 <= k < |later| ensures DatedBy(t)(later[k]) == 0.0 {
      assert later[k] == sorted[i + 1 + k] && (k > 0 ==> sorted[i + 1].date <= sorted[i + 1 + k].date);
    }
    SumZero(later, DatedBy(t));
  }

  lemma SortedLine(lines: seq<Line>, sorted: seq<Entry>, i: nat)
    requires Running(lines, sorted) && SortedByDate(sorted) && EndsDate(lines, i)
    ensures lines[i].balance == Sum(sorted, DatedBy(lines[i].entry.date))
  {
    assert lines[i].entry == sorted[i] && (i + 1 < |lines| ==> lines[i + 1].entry == sorted[i + 1]);
    SplitAtDate(sorted, i);
  }

  lemma LineBalance(lines: seq<Line>, entries: seq<Entry>, total: real, i: nat)
    requires IsLedgerOf(lines, entries, total) && EndsDate(lines, i)
    ensures lines[i].balance == Sum(entries, DatedBy(lines[i].entry.date))
  {
    var sorted: seq<Entry> :| SortedByDate(sorted) && multiset(sorted) == multiset(entries) && Running(lines, sorted);
    SortedLine(lines, sorted, i);
    SumPermutation(sorted, entries, DatedBy(lines[i].entry.date));
  }

  /** The last line of any date in a customer's ledger shows what they owed by then: the unreversed credit
      sales created up to that date less the unreversed payments. */
  lemma CustomerLineTells(db: State, c: Id, lines: seq<Line>, total: real, i: nat)
    requires IsLedgerOf(lines, CreditEntries(db.sales, c) + PaidEntries(db.customerPayments, c), total)
    requires EndsDate(lines, i)
    ensures var t := lines[i].entry.date;
      lines[i].balance == Sum(db.sales, CreditBy(c, t)) - Sum(db.customerPayments, PaidUntil(c, t))
  {
    var t := lines[i].entry.date;
    LineBalance(lines, CreditEntries(db.sales, c) + PaidEntries(db.customerPayments, c), total, i);
    SumConcat(CreditEntries(db.sales, c), PaidEntries(db.customerPayments, c), DatedBy(t));
    CreditEntriesBy(db.sales, c, t);
    PaidEntriesBy(db.customerPayments, c, t);
  }

  /** The same for a supplier, at one station or at all. */
  lemma SupplierLineTells(db: State, p: Id, st: Option<Id>, lines: seq<Line>, total: real, i: nat)
    requires IsLedgerOf(lines, SupplierEntries(db, p, st), total) && EndsDate(lines, i)
    ensures var t := lines[i].entry.date;
      lines[i].balance
        == Sum(db.purchases, OwedUntil(db.tanks, p, st, t)) - Sum(db.supplierPayments, SettledUntil(p, st, t))
  {
    var t := lines[i].entry.date;
    LineBalance(lines, SupplierEntries(db, p, st), total, i);
    SumConcat(PurchaseEntries(db.tanks, db.purchases, p, st), PaymentEntries(db.supplierPayments, p, st), DatedBy(t));
    PurchaseEntriesBy(db.tanks, db.purchases, p, st, t);
    PaymentEntriesBy(db.supplierPayments, p, st, t);
  }

  // ---------------------------------------------------------------- stock movement

  datatype Movement = Movement(purchased: real, sold: real, net: real, volume: real)

  /** The litres of a tank's purchases in force, added up one after the other. */
  method TotalPurchased(db: State, t: Id) returns (litres: real)
    ensures litres == Sum(db.purchases, Bought(t))
  {
    litres := 0.0;
    for i := 0 to |db.purchases|
      invariant litres == Sum(db.purchases[..i], Bought(t))
    {
      assert db.purchases[..i + 1][..i] == db.purchases[..i];
      var p := db.purchases[i];
      if p.tankId == t && p.status.Approved? && !p.rev.isReversed {
        litres := litres + p.quantity;
      }
    }
    assert db.purchases[..|db.purchases|] == db.purchases;
  }

  /** The litres sold through the tank's nozzles and not taken back. */
  method TotalSold(db: State, t: Id) returns (litres: real)
    ensures litres == Sum(db.sales, Sold(db.nozzles, t))
  {
    litres := 0.0;
    for i := 0 to |db.sales|
      invariant litres == Sum(db.sales[..i], Sold(db.nozzles, t))
    {
      assert db.sales[..i + 1][..i] == db.sales[..i];
      var x := db.sales[i];
      if x.nozzleId < |db.nozzles| && db.nozzles[x.nozzleId].tankId == t && !x.rev.isReversed {
        litres := litres + x.quantity;
      }
    }
    assert db.sales[..|db.sales|] == db.sales;
  }

  lemma NetOfRounded(purchased: real, sold: real)
    ensures -0.01 <= RoundCents(purchased - sold) - (RoundCents(purchased) - RoundCents(sold)) <= 0.01
  {
    WholeCentsAdd(RoundCents(purchased), RoundCents(sold));
    CentsApart(RoundCents(purchased - sold), RoundCents(purchased) - RoundCents(sold));
  }

  /** Every figure is rounded by itself, so the net may miss the other two by a hundredth. */
  ghost predicate Reported(db: State, t: Id, item: Movement) {
    && t < |db.tanks| && item == MovementOf(db, t)
    && NearestCent(item.purchased, Sum(db.purchases, Bought(t)))
    && NearestCent(item.sold, Sum(db.sales, Sold(db.nozzles, t)))
    && NearestCent(item.volume, db.tanks[t].currentVolume)
    && -0.01 <= item.net - (item.purchased - item.sold) <= 0.01
  }

  method TankMovement(db: State, t: Id) returns (item: Movement)
    requires t < |db.tanks|
    ensures Reported(db, t, item)
  {
    var purchased := TotalPurchased(db, t);
    var sold := TotalSold(db, t);
    NetOfRounded(purchased, sold);
    return Movement(RoundCents(purchased), RoundCents(sold), RoundCents(purchased - sold),
                    RoundCents(db.tanks[t].currentVolume));
  }

  /** The unfiltered report, one item per tank. */
  method BuildStockMovement(db: State) returns (items: seq<Movement>)
    ensures |items| == |db.tanks|
    ensures forall t :: 0 <= t < |items| ==> Reported(db, t, items[t])
  {
    items := [];
    for t := 0 to |db.tanks|
      invariant |items| == t && forall k :: 0 <= k < t ==> Reported(db, k, items[k])
    {
      var item := TankMovement(db, t);
      items := items + [item];
    }
  }

  function MovementOf(db: State, t: Id): Movement
    requires t < |db.tanks|
  {
    Movement(RoundCents(Sum(db.purchases, Bought(t))), RoundCents(Sum(db.sales, Sold(db.nozzles, t))),
             RoundCents(Sum(db.purchases, Bought(t)) - Sum(db.sales, Sold(db.nozzles, t))),
             RoundCents(db.tanks[t].currentVolume))
  }

  /** In every reachable state the volume the report shows is, to a hundredth of a litre, the tank's
      opening volume plus the net movement the report shows plus what its dips found. */
  lemma StockReportAgrees(s0: State, calls: seq<Call>, t: Id)
    requires Initial(s0) && t < |s0.tanks|
    ensures |Run(s0, calls).tanks| == |s0.tanks|
    ensures
      var s := Run(s0, calls);
      var gap := MovementOf(s, t).volume
        - (s0.tanks[t].currentVolume + MovementOf(s, t).net + Sum(s.dips, LossGain(t)));
      -0.01 <= gap <= 0.01
  {
    Tanks.TankConservation(s0, calls);
    var s := Run(s0, calls);
    LinksUnchanged(s0, calls);
    forall i | 0 <= i < |s.sales| ensures Sold(s.nozzles, t)(s.sales[i]) == Sold(s0.nozzles, t)(s.sales[i]) {
      var n := s.sales[i].nozzleId;
      assert n < |s.nozzles| ==> SameNozzle(s.nozzles[n], s0.nozzles[n]);
    }
    SumEqual(s.sales, Sold(s.nozzles, t), Sold(s0.nozzles, t));
  }

  lemma LinksUnchanged(s0: State, calls: seq<Call>)
    requires Initial(s0)
    ensures SameSite(s0, Run(s0, calls))
  {
    Records.RunKeepsRecords(s0, calls);
  }
}
