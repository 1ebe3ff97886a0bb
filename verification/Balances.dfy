/** Customer and supplier balances agree with their ledgers and never go negative. */
module Balances {
  import opened Sums
  import opened Rows
  import opened Rules
  import opened Figures
  import opened Records

  // ---------------------------------------------------------------- customers

  lemma CustomerSale(s: State, u: Caller, d: SaleData)
    requires CustomersConserved(s) && CreateSaleFault(s, u, d).None?
    ensures CustomersConserved(CreateSaleEffect(s, u, d))
  {
    var x := SaleRow(s, u, d);
    var s' := CreateSaleEffect(s, u, d);
    forall c | 0 <= c < |s.customers|
      ensures s'.customers[c].outstandingBalance ==
        Sum(s'.sales, CreditSale(c)) - Sum(s.customerPayments, PaidBy(c)) + Sum(s.trips, DeliveredByTrip(c))
        - Sum(s'.sales, RefundedUncharged(c))
    {
      SumAppend(s.sales, x, CreditSale(c));
      SumAppend(s.sales, x, RefundedUncharged(c));
    }
  }

  lemma CustomerForecourt(s: State, u: Caller, op: ForecourtOp)
    requires CustomersConserved(s) && ForecourtStep(s, u, op).Ok?
    ensures CustomersConserved(ForecourtStep(s, u, op).state)
  {
    if op.CreateSale? {
      CustomerSale(s, u, op.sale);
    } else {
      ForecourtFrame(s, u, op);
    }
  }

  lemma CustomerPaying(s: State, u: Caller, op: PaymentOp)
    requires CustomersConserved(s) && PaymentStep(s, u, op).Ok?
    ensures CustomersConserved(PaymentStep(s, u, op).state)
  {
    if op.PayCustomer? {
      SumsAppend(s.customerPayments, CustomerPayment(op.customerId, op.stationId, op.amount, s.clock, FRESH));
    }
  }

  lemma CustomerMark(s: State, r: Record, rev: Reversal)
    requires CustomersConserved(s) && Exists(s, r) && rev.isReversed == Rev(s, r).isReversed
    ensures CustomersConserved(Mark(s, r, rev))
  {
    match r
    case SaleRecord(i) => SumsUpdate(s.sales, i, s.sales[i].(rev := rev));
    case CustomerPaymentRecord(i) => SumsUpdate(s.customerPayments, i, s.customerPayments[i].(rev := rev));
    case PurchaseRecord(i) =>
    case SupplierPaymentRecord(i) =>
  }

  lemma CustomerTakeBack(s: State, r: Record, rev: Reversal)
    requires CustomersConserved(s) && Exists(s, r) && UndoFault(s, r).None? && !Rev(s, r).isReversed && rev.isReversed
    requires r.SaleRecord? && s.sales[r.id].saleType.Credit? ==> s.sales[r.id].customerId.Some?
    ensures CustomersConserved(TakeBack(s, r, rev))
  {
    match r
    case SaleRecord(i) => SumsUpdate(s.sales, i, s.sales[i].(rev := rev));
    case CustomerPaymentRecord(i) => SumsUpdate(s.customerPayments, i, s.customerPayments[i].(rev := rev));
    case PurchaseRecord(i) =>
    case SupplierPaymentRecord(i) =>
  }

  lemma CustomerReversing(s0: State, s: State, u: Caller, op: ReversalOp)
    requires CustomersConserved(s) && GoodSales(s0, s.sales, s.clock) && ReversalStep(s, u, op).Ok?
    ensures CustomersConserved(ReversalStep(s, u, op).state)
  {
    var rev := ReversalShape(s, u, op);
    if op.RequestReversal? || op.RejectReversal? {
      CustomerMark(s, op.record, rev);
    } else {
      CustomerTakeBack(s, op.record, rev);
    }
  }

  /** Posting the deliveries one by one, several of them perhaps to one customer, adds to each
      balance exactly that customer's share. */
  lemma {:induction false} PostedDeliveries(customers: seq<Customer>, ds: seq<Delivery>, c: Id)
    requires c < |customers|
    ensures PostDeliveries(customers, ds)[c] ==
      customers[c].(outstandingBalance := customers[c].outstandingBalance + Sum(ds, Delivered(c)))
  {
    if ds != [] {
      PostedDeliveries(customers, ds[..|ds| - 1], c);
    }
  }

  lemma CustomerCompleteTrip(s: State, u: Caller, t: Id)
    requires CustomersConserved(s) && CompleteTripFault(s, u, t).None?
    ensures CustomersConserved(CompleteTripEffect(s, u, t))
  {
    var s' := CompleteTripEffect(s, u, t);
    forall c | 0 <= c < |s.customers|
      ensures s'.customers[c].outstandingBalance - Sum(s'.trips, DeliveredByTrip(c))
           == s.customers[c].outstandingBalance - Sum(s.trips, DeliveredByTrip(c))
    {
      SumUpdate(s.trips, t, s'.trips[t], DeliveredByTrip(c));
      PostedDeliveries(s.customers, s.trips[t].deliveries, c);
    }
  }

  lemma CustomerHauling(s: State, u: Caller, op: TripOp)
    requires CustomersConserved(s) && TripStep(s, u, op).Ok?
    ensures CustomersConserved(TripStep(s, u, op).state)
  {
    match op
    case CreateTrip(d) => SumsAppend(s.trips, TripRow(s, d));
    case AddDelivery(t, d) => SumsUpdate(s.trips, t, AddDeliveryEffect(s, t, d).trips[t]);
    case AddExpense(t, amount) => SumsUpdate(s.trips, t, AddExpenseEffect(s, t, amount).trips[t]);
    case CompleteTrip(t) => CustomerCompleteTrip(s, u, t);
  }

  lemma CustomersStep(s0: State, s: State, call: Call)
    requires CustomersConserved(s) && GoodSales(s0, s.sales, s.clock) && Perform(s, call).Ok?
    ensures CustomersConserved(Perform(s, call).state)
  {
    Frame(s, call);
    match call.op
    case Forecourt(op) => CustomerForecourt(s, call.caller, op);
    case Purchasing(op) =>
    case Paying(op) => CustomerPaying(s, call.caller, op);
    case Reversing(op) => CustomerReversing(s0, s, call.caller, op);
    case Hauling(op) => CustomerHauling(s, call.caller, op);
    case Staffing(op) =>
    case Lending(op) => OverrideFrame(s, call.caller, op);
  }

  // ---------------------------------------------------------------- suppliers

  lemma SupplierPurchasing(s: State, u: Caller, op: PurchaseOp)
    requires SuppliersConserved(s) && PurchaseStep(s, u, op).Ok?
    requires forall i :: 0 <= i < |s.purchases| ==> !s.purchases[i].rev.isReversed || s.purchases[i].status.Approved?
    ensures SuppliersConserved(PurchaseStep(s, u, op).state)
  {
    match op
    case CreatePurchase(d) => SumsAppend(s.purchases, PurchaseRow(s, u, d));
    case ApprovePurchase(i) =>
      SumsUpdate(s.purchases, i, s.purchases[i].(status := Approved, approvedBy := Some(u.userId)));
    case RejectPurchase(i) => SumsUpdate(s.purchases, i, s.purchases[i].(status := Rejected, approvedBy := None));
  }

  lemma SupplierPaying(s: State, u: Caller, op: PaymentOp)
    requires SuppliersConserved(s) && PaymentStep(s, u, op).Ok?
    ensures SuppliersConserved(PaymentStep(s, u, op).state)
  {
    if op.PaySupplier? {
      SumsAppend(s.supplierPayments, SupplierPayment(op.supplierId, op.stationId, op.amount, s.clock, FRESH));
    }
  }

  lemma SupplierMark(s: State, r: Record, rev: Reversal)
    requires SuppliersConserved(s) && Exists(s, r) && rev.isReversed == Rev(s, r).isReversed
    ensures SuppliersConserved(Mark(s, r, rev))
  {
    match r
    case PurchaseRecord(i) => SumsUpdate(s.purchases, i, s.purchases[i].(rev := rev));
    case SupplierPaymentRecord(i) => SumsUpdate(s.supplierPayments, i, s.supplierPayments[i].(rev := rev));
    case SaleRecord(i) =>
    case CustomerPaymentRecord(i) =>
  }

  lemma SupplierTakeBack(s: State, r: Record, rev: Reversal)
    requires SuppliersConserved(s) && Exists(s, r) && InForce(s, r)
    requires UndoFault(s, r).None? && !Rev(s, r).isReversed && rev.isReversed
    ensures SuppliersConserved(TakeBack(s, r, rev))
  {
    match r
    case PurchaseRecord(i) => SumsUpdate(s.purchases, i, s.purchases[i].(rev := rev));
    case SupplierPaymentRecord(i) => SumsUpdate(s.supplierPayments, i, s.supplierPayments[i].(rev := rev));
    case SaleRecord(i) =>
    case CustomerPaymentRecord(i) =>
  }

  lemma SupplierReversing(s: State, u: Caller, op: ReversalOp)
    requires SuppliersConserved(s) && ReversalStep(s, u, op).Ok?
    ensures SuppliersConserved(ReversalStep(s, u, op).state)
  {
    var rev := ReversalShape(s, u, op);
    if op.RequestReversal? || op.RejectReversal? {
      SupplierMark(s, op.record, rev);
    } else {
      SupplierTakeBack(s, op.record, rev);
    }
  }

  lemma SupplierHauling(s: State, u: Caller, op: TripOp)
    requires SuppliersConserved(s) && TripStep(s, u, op).Ok?
    ensures SuppliersConserved(TripStep(s, u, op).state)
  {
    if op.CompleteTrip? && s.trips[op.tripId].tripType.SupplierToStation? {
      var trip := Recomputed(s.trips[op.tripId]).(status := Completed, completedAt := Some(s.clock));
      SumsAppend(s.purchases, TripPurchase(s, u, trip));
    }
  }

  lemma SuppliersStep(s0: State, s: State, call: Call)
    requires SuppliersConserved(s) && GoodPurchases(s0, s.purchases, s.clock) && Perform(s, call).Ok?
    ensures SuppliersConserved(Perform(s, call).state)
  {
    Frame(s, call);
    match call.op
    case Purchasing(op) => SupplierPurchasing(s, call.caller, op);
    case Paying(op) => SupplierPaying(s, call.caller, op);
    case Reversing(op) => SupplierReversing(s, call.caller, op);
    case Hauling(op) => SupplierHauling(s, call.caller, op);
    case _ =>
  }

  // ---------------------------------------------------------------- no negative balance

  lemma {:induction false} PostingRaises(s0: State, customers: seq<Customer>, ds: seq<Delivery>)
    requires forall i :: 0 <= i < |ds| ==> GoodDelivery(s0, ds[i])
    ensures forall c :: 0 <= c < |customers| ==>
      PostDeliveries(customers, ds)[c].outstandingBalance >= customers[c].outstandingBalance
  {
    forall c | 0 <= c < |customers|
      ensures PostDeliveries(customers, ds)[c].outstandingBalance >= customers[c].outstandingBalance
    {
      PostedDeliveries(customers, ds, c);
      SumNonNegative(ds, Delivered(c));
    }
  }

  lemma ForecourtNonNegative(s: State, u: Caller, op: ForecourtOp)
    requires BalancesNonNegative(s) && ForecourtStep(s, u, op).Ok?
    ensures BalancesNonNegative(ForecourtStep(s, u, op).state)
  {
    if op.CreateSale? {
      AmountSign(Quantity(s, op.sale), op.sale.rate);
    }
  }

  lemma PurchaseNonNegative(s0: State, s: State, u: Caller, op: PurchaseOp)
    requires BalancesNonNegative(s) && GoodPurchases(s0, s.purchases, s.clock) && PurchaseStep(s, u, op).Ok?
    ensures BalancesNonNegative(PurchaseStep(s, u, op).state)
  {
    if op.CreatePurchase? {
      AmountSign(op.purchase.quantity, op.purchase.rate);
    }
  }

  lemma PaymentNonNegative(s: State, u: Caller, op: PaymentOp)
    requires BalancesNonNegative(s) && PaymentStep(s, u, op).Ok?
    ensures BalancesNonNegative(PaymentStep(s, u, op).state)
  {
  }

  lemma TakeBackNonNegative(s: State, r: Record, rev: Reversal)
    requires BalancesNonNegative(s) && Exists(s, r) && UndoFault(s, r).None?
    requires r.CustomerPaymentRecord? ==> s.customerPayments[r.id].amount > 0.0
    requires r.SupplierPaymentRecord? ==> s.supplierPayments[r.id].amount > 0.0
    ensures BalancesNonNegative(TakeBack(s, r, rev))
  {
  }

  lemma ReversalNonNegative(s0: State, s: State, u: Caller, op: ReversalOp)
    requires BalancesNonNegative(s) && GoodRecords(s0, s) && ReversalStep(s, u, op).Ok?
    ensures BalancesNonNegative(ReversalStep(s, u, op).state)
  {
    var rev := ReversalShape(s, u, op);
    if op.Reverse? || op.ApproveReversal? {
      TakeBackNonNegative(s, op.record, rev);
    }
  }

  lemma TripNonNegative(s0: State, s: State, u: Caller, op: TripOp)
    requires BalancesNonNegative(s) && GoodTrips(s0, s.trips) && TripStep(s, u, op).Ok?
    ensures BalancesNonNegative(TripStep(s, u, op).state)
  {
    if op.CompleteTrip? {
      TotalsNonNegative(s0, s.trips[op.tripId]);
      PostingRaises(s0, s.customers, s.trips[op.tripId].deliveries);
    }
  }

  lemma NonNegativeStep(s0: State, s: State, call: Call)
    requires BalancesNonNegative(s) && GoodRecords(s0, s) && Perform(s, call).Ok?
    ensures BalancesNonNegative(Perform(s, call).state)
  {
    Frame(s, call);
    match call.op
    case Forecourt(op) => ForecourtNonNegative(s, call.caller, op);
    case Purchasing(op) => PurchaseNonNegative(s0, s, call.caller, op);
    case Paying(op) => PaymentNonNegative(s, call.caller, op);
    case Reversing(op) => ReversalNonNegative(s0, s, call.caller, op);
    case Hauling(op) => TripNonNegative(s0, s, call.caller, op);
    case Staffing(op) =>
    case Lending(op) => OverrideFrame(s, call.caller, op);
  }

  // ---------------------------------------------------------------- every run

  /** In every reachable state each customer balance is the customer's ledger, plus the trip
      deliveries posted to them, less every uncharged sale in their name that was reversed; each
      supplier balance is the supplier's ledger; and none is negative. */
  lemma {:induction false} BalancesAgree(s0: State, calls: seq<Call>)
    requires Initial(s0)
    ensures var s := Run(s0, calls); CustomersConserved(s) && SuppliersConserved(s) && BalancesNonNegative(s)
  {
    if calls != [] {
      var last := |calls| - 1;
      var s := Run(s0, calls[..last]);
      BalancesAgree(s0, calls[..last]);
      RunKeepsRecords(s0, calls[..last]);
      if Perform(s, calls[last]).Ok? {
        CustomersStep(s0, s, calls[last]);
        SuppliersStep(s0, s, calls[last]);
        NonNegativeStep(s0, s, calls[last]);
      }
    }
  }
}
