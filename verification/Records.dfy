/** The site never changes and every record stays well formed. */
module Records {
  import opened Money
  import opened Sums
  import opened Rows
  import opened Rules
  import opened Figures

  // ---------------------------------------------------------------- the site

  lemma PostedDeliveriesSite(customers: seq<Customer>, ds: seq<Delivery>)
    ensures var r := PostDeliveries(customers, ds);
      |r| == |customers| && forall c :: 0 <= c < |r| ==> SameCustomer(r[c], customers[c])
  {
  }

  lemma ForecourtSite(s0: State, s: State, u: Caller, op: ForecourtOp)
    requires SameSite(s0, s) && ForecourtStep(s, u, op).Ok?
    ensures SameSite(s0, ForecourtStep(s, u, op).state)
  {
  }

  lemma PurchaseSite(s0: State, s: State, u: Caller, op: PurchaseOp)
    requires SameSite(s0, s) && PurchaseStep(s, u, op).Ok?
    ensures SameSite(s0, PurchaseStep(s, u, op).state)
  {
  }

  lemma PaymentSite(s0: State, s: State, u: Caller, op: PaymentOp)
    requires SameSite(s0, s) && PaymentStep(s, u, op).Ok?
    ensures SameSite(s0, PaymentStep(s, u, op).state)
  {
  }

  lemma TakeBackSite(s0: State, s: State, r: Record, rev: Reversal)
    requires SameSite(s0, s) && Exists(s, r) && UndoFault(s, r).None?
    ensures SameSite(s0, TakeBack(s, r, rev))
  {
  }

  lemma ReversalSite(s0: State, s: State, u: Caller, op: ReversalOp)
    requires SameSite(s0, s) && ReversalStep(s, u, op).Ok?
    ensures SameSite(s0, ReversalStep(s, u, op).state)
  {
    var rev := ReversalShape(s, u, op);
    if op.Reverse? || op.ApproveReversal? {
      TakeBackSite(s0, s, op.record, rev);
    }
  }

  lemma TripSite(s0: State, s: State, u: Caller, op: TripOp)
    requires SameSite(s0, s) && TripStep(s, u, op).Ok?
    ensures SameSite(s0, TripStep(s, u, op).state)
  {
    if op.CompleteTrip? {
      PostedDeliveriesSite(s.customers, s.trips[op.tripId].deliveries);
    }
  }

  lemma OverrideSite(s0: State, s: State, u: Caller, op: OverrideOp)
    requires SameSite(s0, s) && OverrideStep(s, u, op).Ok?
    ensures SameSite(s0, OverrideStep(s, u, op).state)
  {
  }

  lemma SiteStep(s0: State, s: State, call: Call)
    requires SameSite(s0, s) && Perform(s, call).Ok?
    ensures SameSite(s0, Perform(s, call).state)
  {
    match call.op
    case Forecourt(op) => ForecourtSite(s0, s, call.caller, op);
    case Purchasing(op) => PurchaseSite(s0, s, call.caller, op);
    case Paying(op) => PaymentSite(s0, s, call.caller, op);
    case Reversing(op) => ReversalSite(s0, s, call.caller, op);
    case Hauling(op) => TripSite(s0, s, call.caller, op);
    case Staffing(op) =>
    case Lending(op) => OverrideSite(s0, s, call.caller, op);
  }

  // ---------------------------------------------------------------- the records

  lemma AmountSign(quantity: real, rate: real)
    requires quantity >= 0.0 && rate > 0.0
    ensures quantity * rate >= 0.0 && (quantity * rate == 0.0 <==> quantity == 0.0)
  {
  }

  lemma SaleRowGood(s0: State, s: State, u: Caller, d: SaleData)
    requires SameSite(s0, s) && CreateSaleFault(s, u, d).None?
    ensures GoodSale(s0, s.clock + 1, SaleRow(s, u, d))
  {
    AmountSign(Quantity(s, d), d.rate);
  }

  lemma ForecourtSalesGood(s0: State, s: State, u: Caller, op: ForecourtOp)
    requires SameSite(s0, s) && GoodSales(s0, s.sales, s.clock) && ForecourtStep(s, u, op).Ok?
    ensures GoodSales(s0, ForecourtStep(s, u, op).state.sales, s.clock + 1)
  {
    if op.CreateSale? {
      SaleRowGood(s0, s, u, op.sale);
    } else {
      ForecourtFrame(s, u, op);
    }
  }

  /** A reversal step leaves every record of the four kinds well formed. */
  lemma ReversalRecordsGood(s0: State, s: State, u: Caller, op: ReversalOp)
    requires GoodRecords(s0, s) && ReversalStep(s, u, op).Ok?
    ensures var t := ReversalStep(s, u, op).state;
      && GoodSales(s0, t.sales, s.clock + 1) && GoodPurchases(s0, t.purchases, s.clock + 1)
      && GoodCustomerPayments(s0, t.customerPayments, s.clock + 1)
        && GoodSupplierPayments(s0, t.supplierPayments, s.clock + 1)
  {
    var rev := ReversalShape(s, u, op);
    if op.RequestReversal? || op.RejectReversal? {
      SetRevGood(s0, s, op.record, rev);
    } else {
      SetRevGood(s0, s, op.record, rev);
      UndoTouchesNoRecord(s, op.record, rev);
    }
  }

  lemma UndoTouchesNoRecord(s: State, r: Record, rev: Reversal)
    requires Exists(s, r) && UndoFault(s, r).None?
    ensures var t, m := TakeBack(s, r, rev), SetRev(s, r, rev);
      t.sales == m.sales && t.purchases == m.purchases && t.customerPayments == m.customerPayments
        && t.supplierPayments == m.supplierPayments
  {
    match r
    case SaleRecord(i) =>
    case PurchaseRecord(i) =>
    case CustomerPaymentRecord(i) =>
    case SupplierPaymentRecord(i) =>
  }

  lemma SetRevGood(s0: State, s: State, r: Record, rev: Reversal)
    requires GoodRecords(s0, s) && Exists(s, r) && GoodReversal(rev, s.clock + 1)
    requires rev.isReversed || rev.review.Pending? ==> InForce(s, r)
    ensures var m := SetRev(s, r, rev);
      && GoodSales(s0, m.sales, s.clock + 1) && GoodPurchases(s0, m.purchases, s.clock + 1)
      && GoodCustomerPayments(s0, m.customerPayments, s.clock + 1)
        && GoodSupplierPayments(s0, m.supplierPayments, s.clock + 1)
  {
    RecordsStayGood(s0, s);
    match r
    case SaleRecord(i) =>
    case PurchaseRecord(i) =>
    case CustomerPaymentRecord(i) =>
    case SupplierPaymentRecord(i) =>
  }

  lemma RecordsStayGood(s0: State, s: State)
    requires GoodRecords(s0, s)
    ensures GoodSales(s0, s.sales, s.clock + 1) && GoodPurchases(s0, s.purchases, s.clock + 1)
    ensures GoodCustomerPayments(s0, s.customerPayments, s.clock + 1)
      && GoodSupplierPayments(s0, s.supplierPayments, s.clock + 1)
  {
  }

  lemma PurchasingGood(s0: State, s: State, u: Caller, op: PurchaseOp)
    requires SameSite(s0, s) && GoodPurchases(s0, s.purchases, s.clock) && PurchaseStep(s, u, op).Ok?
    ensures GoodPurchases(s0, PurchaseStep(s, u, op).state.purchases, s.clock + 1)
  {
    if op.CreatePurchase? {
      AmountSign(op.purchase.quantity, op.purchase.rate);
    }
  }

  lemma PayingGood(s0: State, s: State, u: Caller, op: PaymentOp)
    requires SameSite(s0, s) && PaymentStep(s, u, op).Ok?
    requires GoodCustomerPayments(s0, s.customerPayments, s.clock)
    requires GoodSupplierPayments(s0, s.supplierPayments, s.clock)
    ensures GoodCustomerPayments(s0, PaymentStep(s, u, op).state.customerPayments, s.clock + 1)
    ensures GoodSupplierPayments(s0, PaymentStep(s, u, op).state.supplierPayments, s.clock + 1)
  {
  }

  lemma TotalsNonNegative(s0: State, t: Trip)
    requires GoodTrip(s0, t)
    ensures Recomputed(t).totalQuantity >= 0.0 && Recomputed(t).fuelRevenue >= 0.0
  {
    SumNonNegative(t.deliveries, QuantityOf());
    SumNonNegative(t.deliveries, FuelAmountOf());
    RoundMonotone(0.0, Sum(t.deliveries, QuantityOf()));
    RoundMonotone(0.0, Sum(t.deliveries, FuelAmountOf()));
  }

  lemma TripPurchaseGood(s0: State, s: State, u: Caller, op: TripOp)
    requires SameSite(s0, s) && GoodPurchases(s0, s.purchases, s.clock) && GoodTrips(s0, s.trips)
    requires TripStep(s, u, op).Ok?
    ensures GoodPurchases(s0, TripStep(s, u, op).state.purchases, s.clock + 1)
  {
    if op.CompleteTrip? {
      TotalsNonNegative(s0, s.trips[op.tripId]);
    }
  }

  lemma DeliveryRowGood(s0: State, s: State, u: Caller, t: Id, d: DeliveryData)
    requires SameSite(s0, s) && AddDeliveryFault(s, u, t, d).None?
    ensures GoodDelivery(s0, DeliveryRow(d))
  {
    AmountSign(d.quantity, d.fuelRate);
    RoundMonotone(0.0, Gross(d));
    RoundMonotone(0.0, TotalValue(d) - d.paidAmount);
  }

  lemma HaulingGood(s0: State, s: State, u: Caller, op: TripOp)
    requires SameSite(s0, s) && GoodTrips(s0, s.trips) && TripStep(s, u, op).Ok?
    ensures GoodTrips(s0, TripStep(s, u, op).state.trips)
  {
    if op.AddDelivery? {
      DeliveryRowGood(s0, s, u, op.tripId, op.delivery);
    }
  }

  lemma RecordsStep(s0: State, s: State, call: Call)
    requires SameSite(s0, s) && GoodRecords(s0, s) && Perform(s, call).Ok?
    ensures GoodRecords(s0, Perform(s, call).state)
  {
    Frame(s, call);
    RecordsStayGood(s0, s);
    match call.op
    case Forecourt(op) => ForecourtSalesGood(s0, s, call.caller, op);
    case Purchasing(op) => PurchasingGood(s0, s, call.caller, op);
    case Paying(op) => PayingGood(s0, s, call.caller, op);
    case Reversing(op) => ReversalRecordsGood(s0, s, call.caller, op);
    case Hauling(op) =>
      TripPurchaseGood(s0, s, call.caller, op);
      HaulingGood(s0, s, call.caller, op);
    case Staffing(op) =>
    case Lending(op) =>
  }

  // ---------------------------------------------------------------- every run

  /** Every state reached from an initial one. */
  lemma {:induction false} RunKeepsRecords(s0: State, calls: seq<Call>)
    requires Initial(s0)
    ensures SameSite(s0, Run(s0, calls)) && GoodRecords(s0, Run(s0, calls))
  {
    if calls != [] {
      var last := |calls| - 1;
      var s := Run(s0, calls[..last]);
      RunKeepsRecords(s0, calls[..last]);
      if Perform(s, calls[last]).Ok? {
        SiteStep(s0, s, calls[last]);
        RecordsStep(s0, s, calls[last]);
      }
    }
  }
}
