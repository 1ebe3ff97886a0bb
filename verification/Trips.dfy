/** Tanker trips: stored totals, posting on completion, and what rounding can cost. */
module Trips {
  import opened Money
  import opened Sums
  import opened Rows
  import opened Rules
  import opened Figures
  import History

  // ---------------------------------------------------------------- stored totals and posting

  /** Every stored figure is what a recomputation from deliveries and expenses would give. A trip
      with neither is stored as unpaid, where a recomputation would call it paid. */
  ghost predicate Consistent(t: Trip) {
    && t == Recomputed(t).(settlement := t.settlement)
    && (if t.deliveries == [] && t.expenses == [] then t.settlement.Unpaid? else t == Recomputed(t))
  }

  /** A completed trip to the station is matched by one approved purchase of its totals. */
  ghost predicate Posted(t: Trip, purchases: seq<Purchase>) {
    if t.status.Completed? && t.tripType.SupplierToStation? then
      && t.linkedPurchaseId.Some? && t.linkedPurchaseId.value < |purchases|
      && var p := purchases[t.linkedPurchaseId.value];
      && p.quantity == t.totalQuantity && p.totalAmount == t.fuelRevenue && p.status.Approved?
      && Some(p.supplierId) == t.supplierId && Some(p.tankId) == t.linkedTankId
    else t.linkedPurchaseId.None?
  }

  /** The delivery's amounts are those worked out when it was entered. */
  predicate Priced(d: Delivery) {
    d == DeliveryRow(Entered(d))
  }

  function Entered(d: Delivery): DeliveryData {
    DeliveryData(d.customerId, d.quantity, d.fuelRate, d.deliveryCharge, d.saleType, d.paidAmount)
  }

  ghost predicate TripOk(t: Trip, purchases: seq<Purchase>) {
    && Consistent(t) && Posted(t, purchases)
    && (t.status.Completed? ==> t.deliveries != [])
    && forall i :: 0 <= i < |t.deliveries| ==> Priced(t.deliveries[i])
  }

  ghost predicate TripsOk(s: State) {
    && (forall i :: 0 <= i < |s.trips| ==> TripOk(s.trips[i], s.purchases))
    && (forall i, j :: 0 <= i < j < |s.trips| && s.trips[i].linkedPurchaseId.Some? ==>
          s.trips[i].linkedPurchaseId != s.trips[j].linkedPurchaseId)
  }

  lemma RecomputedIsConsistent(t: Trip)
    ensures Recomputed(Recomputed(t)) == Recomputed(t)
  {
  }

  /** Nothing outside trips disturbs the purchase a trip is matched with. */
  lemma PostedStays(t: Trip, s: State, s': State)
    requires Posted(t, s.purchases) && History.PurchasesEvolve(s, s')
    ensures Posted(t, s'.purchases)
  {
    if t.linkedPurchaseId.Some? {
      assert History.PurchaseEvolves(s.purchases[t.linkedPurchaseId.value], s'.purchases[t.linkedPurchaseId.value]);
    }
  }

  lemma OtherCallsKeepTrips(s: State, call: Call)
    requires TripsOk(s) && Perform(s, call).Ok? && !call.op.Hauling?
    ensures TripsOk(Perform(s, call).state)
  {
    var s' := Perform(s, call).state;
    Frame(s, call);
    History.StepEvolves(s, call);
    forall i | 0 <= i < |s.trips| ensures TripOk(s'.trips[i], s'.purchases) {
      PostedStays(s.trips[i], s, s');
    }
  }

  lemma NewTripOk(s: State, d: TripData, purchases: seq<Purchase>)
    requires d.tankerId < |s.tankers|
    ensures TripOk(TripRow(s, d), purchases)
  {
  }

  lemma RowIsPriced(d: DeliveryData)
    ensures Priced(DeliveryRow(d))
  {
    assert Entered(DeliveryRow(d)) == d;
  }

  lemma GrownByDelivery(t: Trip, row: Delivery, purchases: seq<Purchase>)
    requires TripOk(t, purchases) && t.status.InProgress? && Priced(row)
    ensures TripOk(Recomputed(t.(deliveries := t.deliveries + [row])), purchases)
  {
    RecomputedIsConsistent(t.(deliveries := t.deliveries + [row]));
  }

  lemma GrownByExpense(t: Trip, amount: real, purchases: seq<Purchase>)
    requires TripOk(t, purchases)
    ensures TripOk(Recomputed(t.(expenses := t.expenses + [amount])), purchases)
  {
    RecomputedIsConsistent(t.(expenses := t.expenses + [amount]));
  }

  lemma OpenTripsKept(s: State, t: Id, trip: Trip)
    requires TripsOk(s) && t < |s.trips| && TripOk(trip, s.purchases)
    requires trip.linkedPurchaseId == s.trips[t].linkedPurchaseId
    ensures TripsOk(s.(trips := s.trips[t := trip], clock := s.clock + 1))
  {
  }

  lemma CompletionOk(s: State, u: Caller, t: Id)
    requires TripsOk(s) && CompleteTripFault(s, u, t).None?
    ensures TripsOk(CompleteTripEffect(s, u, t))
  {
    var s' := CompleteTripEffect(s, u, t);
    RecomputedIsConsistent(s.trips[t]);
    assert TripOk(s.trips[t], s.purchases);
    assert TripOk(s'.trips[t], s'.purchases);
    forall i | 0 <= i < |s.trips| && i != t ensures TripOk(s'.trips[i], s'.purchases) {
      assert TripOk(s.trips[i], s.purchases);
    }
  }

  lemma HaulingKeepsTrips(s: State, u: Caller, op: TripOp)
    requires TripsOk(s) && TripStep(s, u, op).Ok?
    ensures TripsOk(TripStep(s, u, op).state)
  {
    match op
    case CreateTrip(d) => NewTripKeepsTrips(s, u, d);
    case AddDelivery(t, d) =>
      RowIsPriced(d);
      GrownByDelivery(s.trips[t], DeliveryRow(d), s.purchases);
      OpenTripsKept(s, t, AddDeliveryEffect(s, t, d).trips[t]);
    case AddExpense(t, amount) =>
      GrownByExpense(s.trips[t], amount, s.purchases);
      OpenTripsKept(s, t, AddExpenseEffect(s, t, amount).trips[t]);
    case CompleteTrip(t) => CompletionOk(s, u, t);
  }

  lemma NewTripKeepsTrips(s: State, u: Caller, d: TripData)
    requires TripsOk(s) && CreateTripFault(s, u, d).None?
    ensures TripsOk(CreateTripEffect(s, d))
  {
    NewTripOk(s, d, s.purchases);
  }

  lemma TripsStep(s: State, call: Call)
    requires TripsOk(s) && Perform(s, call).Ok?
    ensures TripsOk(Perform(s, call).state)
  {
    if call.op.Hauling? {
      HaulingKeepsTrips(s, call.caller, call.op.hauling);
    } else {
      OtherCallsKeepTrips(s, call);
    }
  }

  /** In every reachable state: stored trip totals equal a recomputation; each completed trip to
      the station is matched by a purchase of exactly its quantity and revenue; and no two trips
      share a purchase. */
  lemma {:induction false} TripPosting(s0: State, calls: seq<Call>)
    requires Initial(s0)
    ensures TripsOk(Run(s0, calls))
  {
    if calls != [] {
      var last := |calls| - 1;
      TripPosting(s0, calls[..last]);
      if Perform(Run(s0, calls[..last]), calls[last]).Ok? {
        TripsStep(Run(s0, calls[..last]), calls[last]);
      }
    }
  }

  // ---------------------------------------------------------------- completion is final

  /** All of a trip but its expenses and the profit they lower. */
  predicate SameButExpenses(a: Trip, b: Trip) {
    b == a.(expenses := b.expenses, expenseTotal := b.expenseTotal, netProfit := b.netProfit)
      && a.expenses <= b.expenses
  }

  lemma CompletedStaysPut(s: State, call: Call, i: Id)
    requires TripsOk(s) && Perform(s, call).Ok? && i < |s.trips| && s.trips[i].status.Completed?
    ensures i < |Perform(s, call).state.trips| && SameButExpenses(s.trips[i], Perform(s, call).state.trips[i])
  {
    Frame(s, call);
    if call.op.Hauling? {
      assert TripOk(s.trips[i], s.purchases);
      HaulingStaysPut(s, call.caller, call.op.hauling, i);
    }
  }

  lemma HaulingStaysPut(s: State, u: Caller, op: TripOp, i: Id)
    requires TripStep(s, u, op).Ok? && i < |s.trips| && s.trips[i].status.Completed?
    requires s.trips[i] == Recomputed(s.trips[i])
    ensures i < |TripStep(s, u, op).state.trips| && SameButExpenses(s.trips[i], TripStep(s, u, op).state.trips[i])
  {
    if op.AddExpense? && op.tripId == i {
      var grown := s.trips[i].(expenses := s.trips[i].expenses + [op.amount]);
      assert Recomputed(grown).totalQuantity == Recomputed(s.trips[i]).totalQuantity;
    }
  }

  lemma {:induction false} RunKeepsCompleted(s: State, calls: seq<Call>, i: Id)
    requires TripsOk(s) && i < |s.trips| && s.trips[i].status.Completed?
    ensures TripsOk(Run(s, calls)) && i < |Run(s, calls).trips| && SameButExpenses(s.trips[i], Run(s, calls).trips[i])
  {
    if calls != [] {
      var last := |calls| - 1;
      var mid := Run(s, calls[..last]);
      RunKeepsCompleted(s, calls[..last], i);
      if Perform(mid, calls[last]).Ok? {
        TripsStep(mid, calls[last]);
        CompletedStaysPut(mid, calls[last], i);
      }
    }
  }

  /** Once completed, a trip keeps its deliveries, totals, settlement and purchase for ever, even
      if expenses are added, and the purchase keeps the quantity and total it was posted with. */
  lemma CompletedTripIsFrozen(s0: State, before: seq<Call>, after: seq<Call>, i: Id)
    requires Initial(s0) && i < |Run(s0, before).trips| && Run(s0, before).trips[i].status.Completed?
    ensures i < |Run(s0, before + after).trips|
    ensures SameButExpenses(Run(s0, before).trips[i], Run(s0, before + after).trips[i])
    ensures TripOk(Run(s0, before + after).trips[i], Run(s0, before + after).purchases)
  {
    TripPosting(s0, before);
    RunKeepsCompleted(Run(s0, before), after, i);
    History.RunsCompose(s0, before, after);
  }

  // ---------------------------------------------------------------- rounding

  function PaidOf(): Delivery -> real { (d: Delivery) => d.paidAmount }

  predicate InWholeCents(d: Delivery) {
    WholeCents(d.deliveryCharge) && WholeCents(d.paidAmount)
  }

  lemma SettlementRounding(gross: real, charge: real, paid: real)
    requires WholeCents(charge) && WholeCents(paid)
    ensures var outstanding := RoundCents(RoundCents(gross + charge) - paid);
      -0.01 <= (paid + outstanding) - (RoundCents(gross) + charge) <= 0.01
  {
    var total := RoundCents(gross + charge);
    WholeCentsAdd(total, paid);
    RoundKeepsWholeCents(total - paid);
    WholeCentsAdd(RoundCents(gross), charge);
    CentsApart(total, RoundCents(gross) + charge);
  }

  /** For one delivery, what was paid plus what is outstanding is off by a cent at most. */
  lemma DeliveryRounding(d: Delivery, gross: real)
    requires d == DeliveryWorth(Entered(d), gross) && InWholeCents(d)
    ensures -0.01 <= (d.paidAmount + d.outstandingAmount) - (d.fuelAmount + d.deliveryCharge) <= 0.01
    ensures WholeCents(d.fuelAmount)
  {
    SettlementRounding(gross, d.deliveryCharge, d.paidAmount);
  }

  lemma {:induction false} DeliveriesRounding(ds: seq<Delivery>)
    requires forall i :: 0 <= i < |ds| ==> Priced(ds[i]) && InWholeCents(ds[i])
    ensures WholeCents(Sum(ds, FuelAmountOf())) && WholeCents(Sum(ds, ChargeOf()))
    ensures var gap := Sum(ds, PaidOf()) + Sum(ds, OutstandingOf()) - (Sum(ds, FuelAmountOf()) + Sum(ds, ChargeOf()));
      -0.01 * |ds| as real <= gap <= 0.01 * |ds| as real
  {
    if ds != [] {
      var last := |ds| - 1;
      DeliveriesRounding(ds[..last]);
      DeliveryRounding(ds[last], Gross(Entered(ds[last])));
      WholeCentsAdd(Sum(ds[..last], FuelAmountOf()), ds[last].fuelAmount);
      WholeCentsAdd(Sum(ds[..last], ChargeOf()), ds[last].deliveryCharge);
    }
  }

  /** On any trip of any run whose charges and payments are whole cents, the money paid plus the
      money outstanding misses the stored revenue by at most a cent per delivery. */
  lemma TripRounding(s0: State, calls: seq<Call>, i: Id)
    requires Initial(s0) && i < |Run(s0, calls).trips|
    requires forall k :: 0 <= k < |Run(s0, calls).trips[i].deliveries| ==>
      InWholeCents(Run(s0, calls).trips[i].deliveries[k])
    ensures
      var t := Run(s0, calls).trips[i];
      var gap := Sum(t.deliveries, PaidOf()) + Sum(t.deliveries, OutstandingOf()) - (t.fuelRevenue + t.deliveryRevenue);
      -0.01 * |t.deliveries| as real <= gap <= 0.01 * |t.deliveries| as real
  {
    TripPosting(s0, calls);
    var t := Run(s0, calls).trips[i];
    assert TripOk(t, Run(s0, calls).purchases);
    DeliveriesRounding(t.deliveries);
    RoundKeepsWholeCents(Sum(t.deliveries, FuelAmountOf()));
    RoundKeepsWholeCents(Sum(t.deliveries, ChargeOf()));
  }

  // ---------------------------------------------------------------- what the stored figures mean

  function Litres(ds: seq<Delivery>): real {
    if ds == [] then 0.0 else Litres(ds[..|ds| - 1]) + ds[|ds| - 1].quantity
  }

  function FuelWorth(ds: seq<Delivery>): real {
    if ds == [] then 0.0 else FuelWorth(ds[..|ds| - 1]) + ds[|ds| - 1].fuelAmount
  }

  function Charges(ds: seq<Delivery>): real {
    if ds == [] then 0.0 else Charges(ds[..|ds| - 1]) + ds[|ds| - 1].deliveryCharge
  }

  function StillOwed(ds: seq<Delivery>): real {
    if ds == [] then 0.0 else StillOwed(ds[..|ds| - 1]) + ds[|ds| - 1].outstandingAmount
  }

  /** What a customer owes for their credit deliveries. */
  function OwedBy(ds: seq<Delivery>, c: Id): real {
    if ds == [] then 0.0
    else
      var d := ds[|ds| - 1];
      OwedBy(ds[..|ds| - 1], c) + if d.customerId == Some(c) && d.saleType == Credit then d.outstandingAmount else 0.0
  }

  function Spent(expenses: seq<real>): real {
    if expenses == [] then 0.0 else Spent(expenses[..|expenses| - 1]) + expenses[|expenses| - 1]
  }

  lemma {:induction false} ColumnsAddUp(ds: seq<Delivery>)
    ensures Sum(ds, QuantityOf()) == Litres(ds) && Sum(ds, FuelAmountOf()) == FuelWorth(ds)
    ensures Sum(ds, ChargeOf()) == Charges(ds) && Sum(ds, OutstandingOf()) == StillOwed(ds)
    ensures Sum(ds, ValueOf()) == FuelWorth(ds) + Charges(ds)
  {
    if ds != [] {
      ColumnsAddUp(ds[..|ds| - 1]);
    }
  }

  lemma {:induction false} ExpensesAddUp(expenses: seq<real>)
    ensures Sum(expenses, AmountOf()) == Spent(expenses)
  {
    if expenses != [] {
      ExpensesAddUp(expenses[..|expenses| - 1]);
    }
  }

  /** Fuel amounts and outstanding amounts are in whole cents, and so are their sums. */
  lemma {:induction false} AmountsInCents(ds: seq<Delivery>)
    requires forall i :: 0 <= i < |ds| ==> Priced(ds[i])
    ensures WholeCents(FuelWorth(ds)) && WholeCents(StillOwed(ds))
  {
    if ds != [] {
      var last := |ds| - 1;
      AmountsInCents(ds[..last]);
      WholeCentsAdd(FuelWorth(ds[..last]), ds[last].fuelAmount);
      WholeCentsAdd(StillOwed(ds[..last]), ds[last].outstandingAmount);
    }
  }

  /** The stored totals are those of the trip's deliveries and expenses, to the cent. */
  ghost predicate TotalsTold(t: Trip) {
    && t.totalQuantity == RoundCents(Litres(t.deliveries))
    && t.fuelRevenue == FuelWorth(t.deliveries)
    && t.deliveryRevenue == RoundCents(Charges(t.deliveries))
    && t.expenseTotal == RoundCents(Spent(t.expenses))
    && t.netProfit == if t.tripType == SupplierToStation then -t.expenseTotal
                      else t.fuelRevenue + t.deliveryRevenue - t.expenseTotal
  }

  /** Paid when nothing is owed any more; otherwise partly paid when less is owed than all is worth. */
  ghost predicate SettlementTold(t: Trip) {
    var owed, worth := StillOwed(t.deliveries), RoundCents(FuelWorth(t.deliveries) + Charges(t.deliveries));
    && (t.settlement == Paid <==> owed <= 0.0)
    && (t.settlement == Partial <==> 0.0 < owed < worth)
    && (t.settlement == Unpaid <==> 0.0 < owed && worth <= owed)
  }

  lemma RecomputedTotals(t: Trip)
    requires forall i :: 0 <= i < |t.deliveries| ==> Priced(t.deliveries[i])
    ensures TotalsTold(Recomputed(t)) && SettlementTold(Recomputed(t))
  {
    ColumnsAddUp(t.deliveries);
    ExpensesAddUp(t.expenses);
    AmountsInCents(t.deliveries);
    RoundKeepsWholeCents(FuelWorth(t.deliveries));
    RoundKeepsWholeCents(StillOwed(t.deliveries));
    ProfitInCents(FuelWorth(t.deliveries), RoundCents(Charges(t.deliveries)), RoundCents(Spent(t.expenses)));
  }

  lemma ProfitInCents(revenue: real, delivery: real, expenses: real)
    requires WholeCents(revenue) && WholeCents(delivery) && WholeCents(expenses)
    ensures RoundCents(0.0 - expenses) == -expenses
    ensures RoundCents((revenue + delivery) - expenses) == revenue + delivery - expenses
  {
    WholeCentsAdd(revenue, delivery);
    WholeCentsAdd(revenue + delivery, expenses);
    WholeCentsAdd(0.0, expenses);
    RoundKeepsWholeCents(0.0 - expenses);
    RoundKeepsWholeCents(revenue + delivery - expenses);
  }

  /** In every reachable state: a trip's stored litres, charges and expenses are the rounded sums of
      those columns, its fuel revenue is exactly the sum of its fuel amounts, its profit follows from
      them, and once anything is entered its settlement says how much of the worth is still owed. */
  lemma TripFigures(s0: State, calls: seq<Call>, i: Id)
    requires Initial(s0) && i < |Run(s0, calls).trips|
    ensures
      var t := Run(s0, calls).trips[i];
      && TotalsTold(t)
      && (if t.deliveries == [] && t.expenses == [] then t.settlement == Unpaid else SettlementTold(t))
  {
    TripPosting(s0, calls);
    var t := Run(s0, calls).trips[i];
    assert TripOk(t, Run(s0, calls).purchases);
    RecomputedTotals(t);
  }

  // ---------------------------------------------------------------- what completing a trip moves

  /** One tank and one supplier rise, all others stay. */
  ghost predicate Supplied(s: State, after: State, tank: Id, litres: real, supplier: Id, amount: real) {
    && |after.tanks| == |s.tanks| && |after.suppliers| == |s.suppliers|
    && (forall t :: 0 <= t < |s.tanks| ==>
          after.tanks[t].currentVolume == s.tanks[t].currentVolume + if t == tank then litres else 0.0)
    && (forall p :: 0 <= p < |s.suppliers| ==>
          after.suppliers[p].payableBalance == s.suppliers[p].payableBalance + if p == supplier then amount else 0.0)
  }

  /** Each customer's balance rises by their own credit deliveries. */
  ghost predicate Charged(s: State, after: State, ds: seq<Delivery>) {
    && |after.customers| == |s.customers|
    && forall c :: 0 <= c < |s.customers| ==>
         var was := s.customers[c];
         after.customers[c] == was.(outstandingBalance := was.outstandingBalance + OwedBy(ds, c))
  }

  lemma {:induction false} PostingRaisesByOwed(customers: seq<Customer>, ds: seq<Delivery>, c: Id)
    requires c < |customers|
    ensures PostDeliveries(customers, ds)[c]
         == customers[c].(outstandingBalance := customers[c].outstandingBalance + OwedBy(ds, c))
  {
    if ds != [] {
      PostingRaisesByOwed(customers, ds[..|ds| - 1], c);
    }
  }

  ghost predicate CompletionTold(s: State, after: State, i: Id) {
    && i < |s.trips| && |after.trips| == |s.trips| && after.nozzles == s.nozzles
    && after.trips[i].status == Completed && after.trips[i].completedAt == Some(s.clock)
    && var t := s.trips[i];
    if t.tripType == SupplierToStation then
      && t.linkedTankId.Some? && t.supplierId.Some? && after.customers == s.customers
      && Supplied(s, after, t.linkedTankId.value, RoundCents(Litres(t.deliveries)),
                  t.supplierId.value, FuelWorth(t.deliveries))
    else
      after.tanks == s.tanks && after.suppliers == s.suppliers && Charged(s, after, t.deliveries)
  }

  /** Completing a trip to the station puts its deliveries' litres, to half a hundredth, into its tank
      and owes their worth to its supplier; completing any other charges each customer for their own
      credit deliveries. Nothing else moves. */
  lemma CompletionMoves(s0: State, calls: seq<Call>, u: Caller, i: Id)
    requires Initial(s0) && Perform(Run(s0, calls), Call(u, Hauling(CompleteTrip(i)))).Ok?
    ensures
      var s := Run(s0, calls);
      CompletionTold(s, Perform(s, Call(u, Hauling(CompleteTrip(i)))).state, i)
  {
    TripPosting(s0, calls);
    CompletionStep(Run(s0, calls), u, i);
  }

  lemma CompletionStep(s: State, u: Caller, i: Id)
    requires TripsOk(s) && CompleteTripFault(s, u, i).None?
    ensures CompletionTold(s, CompleteTripEffect(s, u, i), i)
  {
    var t := s.trips[i];
    assert TripOk(t, s.purchases);
    RecomputedTotals(t);
    if t.tripType != SupplierToStation {
      forall c | 0 <= c < |s.customers|
        ensures PostDeliveries(s.customers, t.deliveries)[c] ==
          s.customers[c].(outstandingBalance := s.customers[c].outstandingBalance + OwedBy(t.deliveries, c))
      {
        PostingRaisesByOwed(s.customers, t.deliveries, c);
      }
    }
  }
}
