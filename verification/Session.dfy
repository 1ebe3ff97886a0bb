/** The services as they run: a database session whose tables are changed one statement after
    another, then committed, or thrown away when a check fails part way. */
module Session {
  import opened Money
  import opened Sums
  import opened Rows
  import opened Rules

  lemma Outstanding(value: real, paid: real)
    requires WholeCents(value)
    ensures WholeCents(paid) ==> RoundCents(value - paid) == value - paid
    ensures paid <= value ==> RoundCents(value - paid) >= 0.0
  {
    if WholeCents(paid) {
      WholeCentsAdd(value, paid);
      RoundKeepsWholeCents(value - paid);
    }
    if paid <= value {
      RoundMonotone(0.0, value - paid);
      RoundKeepsWholeCents(0.0);
    }
  }

  class Session {
    /** The session's working copy of the tables. */
    var db: State
    /** What the database holds. */
    var committed: State

    /** Between calls nothing is left uncommitted. */
    ghost predicate Clean()
      reads this
    {
      committed == db
    }

    /** A call either fails and leaves the database as it was, or commits what the rules say. */
    ghost predicate Settled(before: State, r: Option<Fault>, result: Result)
      reads this
    {
      Clean() && match r case Some(f) => result == Err(f) && db == before case None => result == Ok(db)
    }

    constructor (s: State)
      ensures Clean() && db == s
    {
      db, committed := s, s;
    }

    method Commit()
      modifies this
      ensures Clean() && db == old(db).(clock := old(db).clock + 1)
    {
      db := db.(clock := db.clock + 1);
      committed := db;
    }

    /** An exception: the session is closed without a commit, and its changes are gone. */
    method Abort(f: Fault) returns (r: Option<Fault>)
      modifies this
      ensures Clean() && db == old(committed) && r == Some(f)
    {
      db := committed;
      r := Some(f);
    }

    // -------------------------------------------------------------- fuel sales

    /** The checks made before anything is written: all but the credit limit. */
    method CheckSale(u: Caller, d: SaleData) returns (f: Option<Fault>, shiftId: Option<Id>)
      ensures f == if CreateSaleFault(db, u, d) == Some(CreditLimitExceeded) then None else CreateSaleFault(db, u, d)
      ensures f.None? ==> shiftId == SaleShift(db, u.userId, d)
    {
      f, shiftId := None, d.shiftId;
      if !u.authorised { return Some(Forbidden), None; }
      if shiftId.None? {
        shiftId := FindOpenShift(db.shifts, u.userId, d.stationId);
      } else {
        if shiftId.value >= |db.shifts| { return Some(ShiftNotFound), None; }
        var shift := db.shifts[shiftId.value];
        if shift.stationId != d.stationId { return Some(WrongStation), None; }
        if !shift.status.Open? { return Some(ShiftNotOpen), None; }
      }
      if d.nozzleId >= |db.nozzles| { return Some(NozzleNotFound), None; }
      var nozzle := db.nozzles[d.nozzleId];
      if d.stationId >= db.stations { return Some(StationNotFound), None; }
      if d.fuelTypeId >= db.fuelTypes { return Some(FuelTypeNotFound), None; }
      if nozzle.stationId != d.stationId { return Some(WrongStation), None; }
      if nozzle.fuelTypeId != d.fuelTypeId { return Some(WrongFuelType), None; }
      var hasTank := nozzle.tankId < |db.tanks|;
      if hasTank && db.tanks[nozzle.tankId].fuelTypeId != d.fuelTypeId { return Some(WrongFuelType), None; }
      if d.customerId.Some? {
        if d.customerId.value >= |db.customers| { return Some(CustomerNotFound), None; }
        if db.customers[d.customerId.value].stationId != d.stationId { return Some(WrongStation), None; }
      }
      if d.saleType.Credit? && d.customerId.None? { return Some(CreditNeedsCustomer), None; }
      if d.closingMeter < nozzle.meterReading { return Some(MeterWentBack), None; }
      if d.rate <= 0.0 { return Some(BadRate), None; }
      if hasTank && d.closingMeter - nozzle.meterReading > db.tanks[nozzle.tankId].currentVolume {
        return Some(InsufficientStock), None;
      }
    }

    /** Adds the amount to the customer's balance, using up what it needs of an override. */
    method ChargeCustomer(c: Id, amount: real) returns (withinLimit: bool)
      requires c < |db.customers|
      modifies this`db
      ensures withinLimit == !OverLimit(old(db).customers[c], amount)
      ensures withinLimit ==> db == old(db).(customers := old(db).customers[c := Charge(old(db).customers[c], amount)])
    {
      var customer := db.customers[c];
      var projected := customer.outstandingBalance + amount;
      if customer.creditLimit > 0.0 && projected > customer.creditLimit + customer.overrideAmount {
        return false;
      }
      customer := customer.(outstandingBalance := projected);
      if projected > customer.creditLimit && customer.overrideAmount > 0.0 {
        var excess := projected - customer.creditLimit;
        customer := customer.(overrideAmount := Max(customer.overrideAmount - excess, 0.0));
        if customer.overrideAmount == 0.0 {
          customer := customer.(overrideStatus := NotRequested);
        }
        customer := customer.(overrideRequested := 0.0, overrideRequestedBy := None, overrideReviewedBy := None);
      }
      db := db.(customers := db.customers[c := customer]);
      return true;
    }

    method MoveVolume(t: Id, litres: real)
      modifies this`db
      ensures db == old(db).(tanks := AddVolume(old(db).tanks, t, litres))
    {
      if t < |db.tanks| {
        db := db.(tanks := db.tanks[t := db.tanks[t].(currentVolume := db.tanks[t].currentVolume + litres)]);
      }
    }

    method MoveOutstanding(c: Id, amount: real)
      modifies this`db
      ensures db == old(db).(customers := AddOutstanding(old(db).customers, c, amount))
    {
      if c < |db.customers| {
        var customer := db.customers[c];
        db := db.(customers := db.customers[c :=
                    customer.(outstandingBalance := customer.outstandingBalance + amount)]);
      }
    }

    method MovePayable(p: Id, amount: real)
      modifies this`db
      ensures db == old(db).(suppliers := AddPayable(old(db).suppliers, p, amount))
    {
      if p < |db.suppliers| {
        var supplier := db.suppliers[p];
        db := db.(suppliers := db.suppliers[p := supplier.(payableBalance := supplier.payableBalance + amount)]);
      }
    }

    /** Enters the sale and its nozzle reading, and moves the meter and the tank. */
    method WriteSale(d: SaleData, shiftId: Option<Id>) returns (totalAmount: real)
      requires d.nozzleId < |db.nozzles|
      modifies this`db
      ensures totalAmount == Quantity(old(db), d) * d.rate
      ensures db == old(db).(
        sales := old(db).sales + [FuelSale(d.nozzleId, d.stationId, d.fuelTypeId, d.customerId,
                                           old(db).nozzles[d.nozzleId].meterReading, d.closingMeter,
                                           Quantity(old(db), d), d.rate, totalAmount,
                                           d.saleType, shiftId, old(db).clock, FRESH)],
        readings := old(db).readings[|old(db).sales| := NozzleReading(d.nozzleId, d.closingMeter)],
        nozzles := old(db).nozzles[d.nozzleId := old(db).nozzles[d.nozzleId].(meterReading := d.closingMeter)],
        tanks := AddVolume(old(db).tanks, old(db).nozzles[d.nozzleId].tankId, -Quantity(old(db), d)))
    {
      var nozzle := db.nozzles[d.nozzleId];
      var quantity := d.closingMeter - nozzle.meterReading;
      totalAmount := quantity * d.rate;
      var saleId := |db.sales|;
      db := db.(sales := db.sales + [FuelSale(d.nozzleId, d.stationId, d.fuelTypeId, d.customerId, nozzle.meterReading,
                                              d.closingMeter, quantity, d.rate, totalAmount, d.saleType, shiftId,
                                              db.clock, FRESH)]);
      db := db.(readings := db.readings[saleId := NozzleReading(d.nozzleId, d.closingMeter)]);
      db := db.(nozzles := db.nozzles[d.nozzleId := nozzle.(meterReading := d.closingMeter)]);
      MoveVolume(nozzle.tankId, -quantity);
    }

    /** The credit limit is checked only after the sale, meter and tank have been written. */
    method CreateFuelSale(u: Caller, d: SaleData) returns (r: Option<Fault>)
      requires Clean()
      modifies this
      ensures Settled(old(db), r, ForecourtStep(old(db), u, CreateSale(d)))
    {
      var f, shiftId := CheckSale(u, d);
      if f.Some? { r := Abort(f.value); return; }
      ghost var row := SaleRow(db, u, d);
      var totalAmount := WriteSale(d, shiftId);
      assert db.sales == old(db).sales + [row] && totalAmount == row.totalAmount;
      if d.saleType.Credit? {
        var withinLimit := ChargeCustomer(d.customerId.value, totalAmount);
        if !withinLimit { r := Abort(CreditLimitExceeded); return; }
      }
      Commit();
      r := None;
    }

    // -------------------------------------------------------------- reversals

    method SetReversal(r: Record, rev: Reversal)
      requires Exists(db, r)
      modifies this`db
      ensures db == SetRev(old(db), r, rev)
    {
      match r
      case SaleRecord(i) => db := db.(sales := db.sales[i := db.sales[i].(rev := rev)]);
      case PurchaseRecord(i) => db := db.(purchases := db.purchases[i := db.purchases[i].(rev := rev)]);
      case CustomerPaymentRecord(i) =>
        db := db.(customerPayments := db.customerPayments[i := db.customerPayments[i].(rev := rev)]);
      case SupplierPaymentRecord(i) =>
        db := db.(supplierPayments := db.supplierPayments[i := db.supplierPayments[i].(rev := rev)]);
    }

    /** The customer is refunded before it is known whether the refund was possible. */
    method UndoSale(i: Id) returns (f: Option<Fault>)
      requires i < |db.sales|
      modifies this`db
      ensures f == UndoFault(old(db), SaleRecord(i))
      ensures f.None? ==> db == Undo(old(db), SaleRecord(i))
    {
      var sale := db.sales[i];
      if sale.nozzleId >= |db.nozzles| { return Some(NozzleNotFound); }
      var nozzle := db.nozzles[sale.nozzleId];
      if nozzle.meterReading != sale.closingMeter { return Some(LaterNozzleActivity); }
      if nozzle.tankId < |db.tanks|
         && db.tanks[nozzle.tankId].currentVolume + sale.quantity > db.tanks[nozzle.tankId].capacity
      {
        return Some(CapacityExceeded);
      }
      if sale.customerId.Some? {
        var c := sale.customerId.value;
        if c >= |db.customers| { return Some(CustomerNotFound); }
        MoveOutstanding(c, -sale.totalAmount);
        if db.customers[c].outstandingBalance < 0.0 { return Some(BalanceWouldBeNegative); }
      }
      db := db.(nozzles := db.nozzles[sale.nozzleId := nozzle.(meterReading := sale.openingMeter)]);
      MoveVolume(nozzle.tankId, sale.quantity);
      db := db.(readings := db.readings - {i});
      return None;
    }

    method UndoPurchase(i: Id) returns (f: Option<Fault>)
      requires i < |db.purchases|
      modifies this`db
      ensures f == UndoFault(old(db), PurchaseRecord(i))
      ensures f.None? ==> db == Undo(old(db), PurchaseRecord(i))
    {
      var p := db.purchases[i];
      if p.tankId >= |db.tanks| || p.supplierId >= |db.suppliers| { return Some(RecordNotFound); }
      if db.tanks[p.tankId].currentVolume < p.quantity { return Some(StockConsumed); }
      if db.suppliers[p.supplierId].payableBalance < p.totalAmount { return Some(BalanceSettled); }
      MoveVolume(p.tankId, -p.quantity);
      MovePayable(p.supplierId, -p.totalAmount);
      return None;
    }

    method UndoPayment(r: Record) returns (f: Option<Fault>)
      requires (r.CustomerPaymentRecord? || r.SupplierPaymentRecord?) && Exists(db, r)
      modifies this`db
      ensures f == UndoFault(old(db), r)
      ensures f.None? ==> db == Undo(old(db), r)
    {
      if r.CustomerPaymentRecord? {
        var p := db.customerPayments[r.id];
        if p.customerId >= |db.customers| { return Some(CustomerNotFound); }
        MoveOutstanding(p.customerId, p.amount);
      } else {
        var p := db.supplierPayments[r.id];
        if p.supplierId >= |db.suppliers| { return Some(SupplierNotFound); }
        MovePayable(p.supplierId, p.amount);
      }
      return None;
    }

    method UndoEffects(r: Record) returns (f: Option<Fault>)
      requires Exists(db, r)
      modifies this`db
      ensures f == UndoFault(old(db), r)
      ensures f.None? ==> db == Undo(old(db), r)
    {
      match r
      case SaleRecord(i) => f := UndoSale(i);
      case PurchaseRecord(i) => f := UndoPurchase(i);
      case _ => f := UndoPayment(r);
    }

    /** The reversal itself, inside a transaction that may already have changed the review. */
    method FinishReversal(u: Caller, r: Record) returns (res: Option<Fault>)
      requires Exists(db, r)
      modifies this
      ensures Clean() && res == ReverseFault(old(db), u, r)
      ensures db == if res.Some? then old(committed) else ReverseEffect(old(db), u, r)
    {
      if !u.authorised { res := Abort(Forbidden); return; }
      if !InForce(db, r) { res := Abort(NotApproved); return; }
      if !Rev(db, r).review.Approved? && !u.isAdmin { res := Abort(MustBeApproved); return; }
      if Rev(db, r).isReversed { res := Abort(AlreadyReversed); return; }
      var f := UndoEffects(r);
      if f.Some? { res := Abort(f.value); return; }
      UndoKeepsReview(old(db), r);
      SetReversal(r, Rev(db, r).(isReversed := true, reversedBy := Some(u.userId), reversedAt := Some(db.clock)));
      Commit();
      res := None;
    }

    method ReverseRecord(u: Caller, r: Record) returns (res: Option<Fault>)
      requires Clean()
      modifies this
      ensures Settled(old(db), res, ReversalStep(old(db), u, Reverse(r)))
    {
      if !Exists(db, r) { res := Abort(RecordNotFound); return; }
      res := FinishReversal(u, r);
    }

    method RequestRecordReversal(u: Caller, r: Record) returns (res: Option<Fault>)
      requires Clean()
      modifies this
      ensures Settled(old(db), res, ReversalStep(old(db), u, RequestReversal(r)))
    {
      if !Exists(db, r) { res := Abort(RecordNotFound); return; }
      if !u.authorised { res := Abort(Forbidden); return; }
      if !InForce(db, r) { res := Abort(NotApproved); return; }
      var rev := Rev(db, r);
      if rev.isReversed { res := Abort(AlreadyReversed); return; }
      if rev.review.Pending? { res := Abort(AlreadyPending); return; }
      SetReversal(r, rev.(review := Pending, requestedBy := Some(u.userId), reviewedBy := None));
      Commit();
      res := None;
    }

    method RejectRecordReversal(u: Caller, r: Record) returns (res: Option<Fault>)
      requires Clean()
      modifies this
      ensures Settled(old(db), res, ReversalStep(old(db), u, RejectReversal(r)))
    {
      if !Exists(db, r) { res := Abort(RecordNotFound); return; }
      if !u.authorised { res := Abort(Forbidden); return; }
      var rev := Rev(db, r);
      if rev.isReversed { res := Abort(AlreadyReversed); return; }
      if !rev.review.Pending? { res := Abort(NotPending); return; }
      SetReversal(r, rev.(review := Rejected, reviewedBy := Some(u.userId)));
      Commit();
      res := None;
    }

    /** Writes the approval and goes straight on to reverse; if that fails the approval is gone too. */
    method ApproveRecordReversal(u: Caller, r: Record) returns (res: Option<Fault>)
      requires Clean()
      modifies this
      ensures Settled(old(db), res, ReversalStep(old(db), u, ApproveReversal(r)))
    {
      if !Exists(db, r) { res := Abort(RecordNotFound); return; }
      if !u.authorised { res := Abort(Forbidden); return; }
      var rev := Rev(db, r);
      if rev.isReversed { res := Abort(AlreadyReversed); return; }
      if !rev.review.Pending? && !rev.review.Approved? { res := Abort(NotPending); return; }
      ApprovalReverses(db, u, r);
      SetReversal(r, rev.(review := Approved, reviewedBy := Some(u.userId)));
      res := FinishReversal(u, r);
    }

    // -------------------------------------------------------------- purchases

    method CheckPurchase(u: Caller, d: PurchaseData) returns (f: Option<Fault>)
      ensures f == CreatePurchaseFault(db, u, d)
    {
      if d.tankId >= |db.tanks| { return Some(TankNotFound); }
      var tank := db.tanks[d.tankId];
      if !u.authorised { return Some(Forbidden); }
      if d.supplierId >= |db.suppliers| { return Some(SupplierNotFound); }
      if d.fuelTypeId >= db.fuelTypes { return Some(FuelTypeNotFound); }
      if d.tankerId.Some? && d.tankerId.value >= |db.tankers| { return Some(TankerNotFound); }
      if tank.fuelTypeId != d.fuelTypeId { return Some(WrongFuelType); }
      if d.quantity <= 0.0 { return Some(BadQuantity); }
      if d.rate <= 0.0 { return Some(BadRate); }
      if tank.currentVolume + d.quantity > tank.capacity { return Some(CapacityExceeded); }
      return None;
    }

    method ApplyPurchase(p: Purchase)
      modifies this`db
      ensures db == Receive(old(db), p)
    {
      MoveVolume(p.tankId, p.quantity);
      MovePayable(p.supplierId, p.totalAmount);
      if p.tankerId.Some? && p.tankerId.value < |db.tankers| {
        db := db.(tankers := db.tankers[p.tankerId.value := db.tankers[p.tankerId.value].(status := "active")]);
      }
    }

    method CreatePurchaseRecord(u: Caller, d: PurchaseData) returns (r: Option<Fault>)
      requires Clean()
      modifies this
      ensures Settled(old(db), r, PurchaseStep(old(db), u, CreatePurchase(d)))
    {
      var f := CheckPurchase(u, d);
      if f.Some? { r := Abort(f.value); return; }
      var purchase := Purchase(d.supplierId, d.tankId, d.fuelTypeId, d.tankerId, d.quantity, d.rate,
                               d.quantity * d.rate, if u.isAdmin then Approved else Pending, u.userId,
                               if u.isAdmin then Some(u.userId) else None, db.clock, FRESH);
      db := db.(purchases := db.purchases + [purchase]);
      if u.isAdmin {
        ApplyPurchase(purchase);
      }
      Commit();
      r := None;
    }

    method ApprovePurchaseRecord(u: Caller, i: Id) returns (r: Option<Fault>)
      requires Clean()
      modifies this
      ensures Settled(old(db), r, PurchaseStep(old(db), u, ApprovePurchase(i)))
    {
      if i >= |db.purchases| { r := Abort(PurchaseNotFound); return; }
      var p := db.purchases[i];
      if !u.authorised { r := Abort(Forbidden); return; }
      if p.status.Approved? { r := Abort(AlreadyApproved); return; }
      if p.status.Rejected? { r := Abort(AlreadyRejected); return; }
      if p.tankId >= |db.tanks| || p.supplierId >= |db.suppliers| { r := Abort(RecordNotFound); return; }
      if db.tanks[p.tankId].currentVolume + p.quantity > db.tanks[p.tankId].capacity {
        r := Abort(CapacityExceeded);
        return;
      }
      db := db.(purchases := db.purchases[i := p.(status := Approved, approvedBy := Some(u.userId))]);
      ApplyPurchase(p);
      Commit();
      r := None;
    }

    method RejectPurchaseRecord(u: Caller, i: Id) returns (r: Option<Fault>)
      requires Clean()
      modifies this
      ensures Settled(old(db), r, PurchaseStep(old(db), u, RejectPurchase(i)))
    {
      if i >= |db.purchases| { r := Abort(PurchaseNotFound); return; }
      if !u.authorised { r := Abort(Forbidden); return; }
      if db.purchases[i].status.Approved? { r := Abort(AlreadyApproved); return; }
      if db.purchases[i].status.Rejected? { r := Abort(AlreadyRejected); return; }
      db := db.(purchases := db.purchases[i := db.purchases[i].(status := Rejected, approvedBy := None)]);
      Commit();
      r := None;
    }

    // -------------------------------------------------------------- payments

    method CreateCustomerPayment(u: Caller, c: Id, st: Id, amount: real) returns (r: Option<Fault>)
      requires Clean()
      modifies this
      ensures Settled(old(db), r, PaymentStep(old(db), u, PayCustomer(c, st, amount)))
    {
      if !u.authorised { r := Abort(Forbidden); return; }
      if amount <= 0.0 { r := Abort(BadAmount); return; }
      if c >= |db.customers| { r := Abort(CustomerNotFound); return; }
      if st >= db.stations { r := Abort(StationNotFound); return; }
      if db.customers[c].stationId != st { r := Abort(WrongStation); return; }
      if db.customers[c].outstandingBalance <= 0.0 { r := Abort(NothingOutstanding); return; }
      if amount > db.customers[c].outstandingBalance { r := Abort(ExceedsOutstanding); return; }
      db := db.(customerPayments := db.customerPayments + [CustomerPayment(c, st, amount, db.clock, FRESH)]);
      MoveOutstanding(c, -amount);
      Commit();
      r := None;
    }

    method CreateSupplierPayment(u: Caller, p: Id, st: Id, amount: real) returns (r: Option<Fault>)
      requires Clean()
      modifies this
      ensures Settled(old(db), r, PaymentStep(old(db), u, PaySupplier(p, st, amount)))
    {
      if !u.authorised { r := Abort(Forbidden); return; }
      if amount <= 0.0 { r := Abort(BadAmount); return; }
      if p >= |db.suppliers| { r := Abort(SupplierNotFound); return; }
      if st >= db.stations { r := Abort(StationNotFound); return; }
      if db.suppliers[p].payableBalance <= 0.0 { r := Abort(NothingOutstanding); return; }
      if amount > db.suppliers[p].payableBalance { r := Abort(ExceedsOutstanding); return; }
      db := db.(supplierPayments := db.supplierPayments + [SupplierPayment(p, st, amount, db.clock, FRESH)]);
      MovePayable(p, -amount);
      Commit();
      r := None;
    }

    // -------------------------------------------------------------- dips and meters

    method CreateTankDip(u: Caller, t: Id, volume: real) returns (r: Option<Fault>)
      requires Clean()
      modifies this
      ensures Settled(old(db), r, ForecourtStep(old(db), u, DipTank(t, volume)))
    {
      if t >= |db.tanks| { r := Abort(TankNotFound); return; }
      if !u.authorised { r := Abort(Forbidden); return; }
      var system := db.tanks[t].currentVolume;
      db := db.(dips := db.dips + [TankDip(t, volume, system, volume - system)]);
      db := db.(tanks := db.tanks[t := db.tanks[t].(currentVolume := volume)]);
      Commit();
      r := None;
    }

    method AdjustNozzleMeter(u: Caller, n: Id, reading: real) returns (r: Option<Fault>)
      requires Clean()
      modifies this
      ensures Settled(old(db), r, ForecourtStep(old(db), u, AdjustMeter(n, reading)))
    {
      if n >= |db.nozzles| { r := Abort(NozzleNotFound); return; }
      if !u.isAdmin { r := Abort(AdminOnly); return; }
      if !u.moduleEnabled { r := Abort(ModuleDisabled); return; }
      var nozzle := db.nozzles[n];
      if reading == nozzle.meterReading { r := Abort(SameReading); return; }
      var event := MeterAdjustment(n, nozzle.stationId, nozzle.meterReading, reading, u.userId);
      db := db.(adjustments := db.adjustments + [event]);
      nozzle := nozzle.(meterReading := reading);
      nozzle := nozzle.(segmentStart := reading, segmentStartedAt := db.clock);
      db := db.(nozzles := db.nozzles[n := nozzle]);
      Commit();
      r := None;
    }

    // -------------------------------------------------------------- tanker trips

    method RecomputeTrip(t: Id)
      requires t < |db.trips|
      modifies this`db
      ensures db == old(db).(trips := old(db).trips[t := Recomputed(old(db).trips[t])])
    {
      var trip := db.trips[t];
      trip := trip.(totalQuantity := RoundCents(Sum(trip.deliveries, QuantityOf())));
      trip := trip.(fuelRevenue := RoundCents(Sum(trip.deliveries, FuelAmountOf())));
      trip := trip.(deliveryRevenue := RoundCents(Sum(trip.deliveries, ChargeOf())));
      trip := trip.(expenseTotal := RoundCents(Sum(trip.expenses, AmountOf())));
      if trip.tripType.SupplierToStation? {
        trip := trip.(netProfit := RoundCents(0.0 - trip.expenseTotal));
      } else {
        trip := trip.(netProfit := RoundCents((trip.fuelRevenue + trip.deliveryRevenue) - trip.expenseTotal));
      }
      var outstanding := RoundCents(Sum(trip.deliveries, OutstandingOf()));
      var value := RoundCents(Sum(trip.deliveries, ValueOf()));
      if outstanding <= 0.0 {
        trip := trip.(settlement := Paid);
      } else if outstanding < value {
        trip := trip.(settlement := Partial);
      } else {
        trip := trip.(settlement := Unpaid);
      }
      db := db.(trips := db.trips[t := trip]);
    }

    method CreateTankerTrip(u: Caller, d: TripData) returns (r: Option<Fault>)
      requires Clean()
      modifies this
      ensures Settled(old(db), r, TripStep(old(db), u, CreateTrip(d)))
    {
      if d.tankerId >= |db.tankers| { r := Abort(TankerNotFound); return; }
      var station := db.tankers[d.tankerId].stationId;
      if !u.authorised { r := Abort(Forbidden); return; }
      if !u.moduleEnabled { r := Abort(ModuleDisabled); return; }
      if d.tripType.OtherTrip? { r := Abort(BadTripType); return; }
      if d.tripType.SupplierToStation? && d.linkedTankId.None? { r := Abort(TripNeedsTank); return; }
      if d.tripType.SupplierToCustomer? && !d.hasDestination { r := Abort(TripNeedsDestination); return; }
      if d.supplierId.Some? && d.supplierId.value >= |db.suppliers| { r := Abort(SupplierNotFound); return; }
      if d.linkedTankId.Some? {
        if d.linkedTankId.value >= |db.tanks| { r := Abort(TankNotFound); return; }
        if db.tanks[d.linkedTankId.value].stationId != station { r := Abort(WrongStation); return; }
        if db.tanks[d.linkedTankId.value].fuelTypeId != d.fuelTypeId { r := Abort(WrongFuelType); return; }
      }
      var trip := Trip(d.tankerId, station, d.supplierId, d.fuelTypeId, d.tripType, InProgress, Unpaid,
                       d.linkedTankId, None, 0.0, 0.0, 0.0, 0.0, 0.0, [], [], None);
      db := db.(trips := db.trips + [trip]);
      Commit();
      r := None;
    }

    method CheckDelivery(u: Caller, t: Id, d: DeliveryData) returns (f: Option<Fault>)
      ensures f == AddDeliveryFault(db, u, t, d)
    {
      if t >= |db.trips| { return Some(TripNotFound); }
      if !u.authorised { return Some(Forbidden); }
      if !u.moduleEnabled { return Some(ModuleDisabled); }
      if !db.trips[t].status.InProgress? { return Some(TripNotInProgress); }
      if d.quantity <= 0.0 || d.fuelRate <= 0.0 { return Some(BadQuantity); }
      if d.deliveryCharge < 0.0 { return Some(BadAmount); }
      if d.saleType.OtherType? { return Some(BadSaleType); }
      if d.customerId.Some? {
        if d.customerId.value >= |db.customers| { return Some(CustomerNotFound); }
        if db.customers[d.customerId.value].stationId != db.trips[t].stationId { return Some(WrongStation); }
      }
      if d.paidAmount < 0.0 || d.paidAmount > TotalValue(d) { return Some(BadPayment); }
      if d.saleType.Credit? && d.customerId.None? { return Some(CreditNeedsCustomer); }
      return None;
    }

    /** Both amounts are in whole cents; the fuel is within half a cent of its worth, what is left
        to pay within a cent of the delivery's - and if whole cents were paid, paid and outstanding
        make up the rounded value exactly. No more paid than that leaves nothing negative. */
    method PriceDelivery(d: DeliveryData, gross: real) returns (row: Delivery)
      ensures row == DeliveryWorth(d, gross)
      ensures WholeCents(row.fuelAmount) && -0.005 <= row.fuelAmount - gross <= 0.005
      ensures WholeCents(row.outstandingAmount)
      ensures -0.01 <= row.outstandingAmount - (gross + d.deliveryCharge - d.paidAmount) <= 0.01
      ensures WholeCents(d.paidAmount) ==>
        row.paidAmount + row.outstandingAmount == RoundCents(gross + d.deliveryCharge)
      ensures d.paidAmount <= RoundCents(gross + d.deliveryCharge) ==> row.outstandingAmount >= 0.0
    {
      var totalValue := RoundCents(gross + d.deliveryCharge);
      Outstanding(totalValue, d.paidAmount);
      row := Delivery(d.customerId, d.quantity, d.fuelRate, RoundCents(gross), d.deliveryCharge, d.saleType,
                      d.paidAmount, RoundCents(totalValue - d.paidAmount));
    }

    method AddTripDelivery(u: Caller, t: Id, d: DeliveryData) returns (r: Option<Fault>)
      requires Clean()
      modifies this
      ensures Settled(old(db), r, TripStep(old(db), u, AddDelivery(t, d)))
    {
      var f := CheckDelivery(u, t, d);
      if f.Some? { r := Abort(f.value); return; }
      var delivery := PriceDelivery(d, Gross(d));
      db := db.(trips := db.trips[t := db.trips[t].(deliveries := db.trips[t].deliveries + [delivery])]);
      RecomputeTrip(t);
      Commit();
      r := None;
    }

    method AddTripExpense(u: Caller, t: Id, amount: real) returns (r: Option<Fault>)
      requires Clean()
      modifies this
      ensures Settled(old(db), r, TripStep(old(db), u, AddExpense(t, amount)))
    {
      if t >= |db.trips| { r := Abort(TripNotFound); return; }
      if !u.authorised { r := Abort(Forbidden); return; }
      if !u.moduleEnabled { r := Abort(ModuleDisabled); return; }
      if amount <= 0.0 { r := Abort(BadAmount); return; }
      db := db.(trips := db.trips[t := db.trips[t].(expenses := db.trips[t].expenses + [amount])]);
      RecomputeTrip(t);
      Commit();
      r := None;
    }

    /** Books the trip's fuel as an approved purchase. */
    method BookTripPurchase(u: Caller, t: Id) returns (f: Option<Fault>)
      requires t < |db.trips|
      modifies this`db
      ensures f == PostingFault(old(db), old(db).trips[t])
      ensures f.None? ==>
        var row := TripPurchase(old(db), u, old(db).trips[t]);
        db == old(db).(tanks := AddVolume(old(db).tanks, row.tankId, row.quantity),
                       suppliers := AddPayable(old(db).suppliers, row.supplierId, row.totalAmount),
                       purchases := old(db).purchases + [row],
                       trips := old(db).trips[t := old(db).trips[t].(linkedPurchaseId := Some(|old(db).purchases|))])
    {
      var trip := db.trips[t];
      if !HasTankAndSupplier(db, trip) { return Some(TripNeedsTankAndSupplier); }
      var tankId, supplierId := trip.linkedTankId.value, trip.supplierId.value;
      if db.tanks[tankId].currentVolume + trip.totalQuantity > db.tanks[tankId].capacity {
        return Some(CapacityExceeded);
      }
      var rate := if trip.totalQuantity != 0.0 then trip.fuelRevenue / trip.totalQuantity else 0.0;
      var purchaseId := |db.purchases|;
      var purchase := Purchase(supplierId, tankId, trip.fuelTypeId, Some(trip.tankerId), trip.totalQuantity, rate,
                               trip.fuelRevenue, Approved, u.userId, Some(u.userId), db.clock, FRESH);
      db := db.(purchases := db.purchases + [purchase]);
      MoveVolume(tankId, trip.totalQuantity);
      MovePayable(supplierId, trip.fuelRevenue);
      db := db.(trips := db.trips[t := trip.(linkedPurchaseId := Some(purchaseId))]);
      return None;
    }

    /** Posts credit deliveries in turn; a customer with several of them is charged for each. */
    method PostTripDeliveries(ds: seq<Delivery>)
      modifies this`db
      ensures db == old(db).(customers := PostDeliveries(old(db).customers, ds))
    {
      for i := 0 to |ds|
        invariant db == old(db).(customers := PostDeliveries(old(db).customers, ds[..i]))
      {
        assert ds[..i + 1][..i] == ds[..i];
        if ds[i].saleType.Credit? && ds[i].customerId.Some? {
          MoveOutstanding(ds[i].customerId.value, ds[i].outstandingAmount);
        }
      }
      assert ds[..|ds|] == ds;
    }

    /** The totals are recomputed and, for a trip to the station, tank and supplier looked up, before
        it is known that the trip can be completed. */
    method CompleteTankerTrip(u: Caller, t: Id) returns (r: Option<Fault>)
      requires Clean()
      modifies this
      ensures Settled(old(db), r, TripStep(old(db), u, CompleteTrip(t)))
    {
      if t >= |db.trips| { r := Abort(TripNotFound); return; }
      if !u.authorised { r := Abort(Forbidden); return; }
      if !u.moduleEnabled { r := Abort(ModuleDisabled); return; }
      if db.trips[t].status.Completed? { r := Abort(AlreadyCompleted); return; }
      if db.trips[t].deliveries == [] { r := Abort(NoDeliveries); return; }
      RecomputeTrip(t);
      if db.trips[t].tripType.SupplierToStation? {
        var f := BookTripPurchase(u, t);
        if f.Some? { r := Abort(f.value); return; }
      } else {
        PostTripDeliveries(db.trips[t].deliveries);
      }
      db := db.(trips := db.trips[t := db.trips[t].(status := Completed, completedAt := Some(db.clock))]);
      Commit();
      r := None;
    }

    // -------------------------------------------------------------- shifts

    method CreateShift(u: Caller, st: Id, cash: real) returns (r: Option<Fault>)
      requires Clean()
      modifies this
      ensures Settled(old(db), r, ShiftStep(old(db), u, OpenShift(st, cash)))
    {
      if !u.authorised { r := Abort(Forbidden); return; }
      if FindOpenShift(db.shifts, u.userId, st).Some? { r := Abort(ShiftAlreadyOpen); return; }
      if st >= db.stations { r := Abort(StationNotFound); return; }
      db := db.(shifts := db.shifts + [Shift(st, u.userId, Open, cash, 0.0, 0.0, cash, None, None, None)]);
      Commit();
      r := None;
    }

    method CloseShiftRecord(u: Caller, k: Id, actualCash: real) returns (r: Option<Fault>)
      requires Clean()
      modifies this
      ensures Settled(old(db), r, ShiftStep(old(db), u, CloseShift(k, actualCash)))
    {
      if k >= |db.shifts| { r := Abort(ShiftNotFound); return; }
      var shift := db.shifts[k];
      if shift.status.Closed? { r := Abort(ShiftAlreadyClosed); return; }
      if shift.userId != u.userId { r := Abort(NotYourShift); return; }
      shift := shift.(totalCash := Sum(db.sales, ShiftSale(k, Cash)));
      shift := shift.(totalCredit := Sum(db.sales, ShiftSale(k, Credit)));
      shift := shift.(expectedCash := shift.initialCash + shift.totalCash);
      shift := shift.(actualCash := Some(actualCash));
      shift := shift.(difference := Some(actualCash - shift.expectedCash));
      shift := shift.(status := Closed, endTime := Some(db.clock));
      db := db.(shifts := db.shifts[k := shift]);
      Commit();
      r := None;
    }

    // -------------------------------------------------------------- credit overrides

    method RequestCreditOverride(u: Caller, c: Id, amount: real) returns (r: Option<Fault>)
      requires Clean()
      modifies this
      ensures Settled(old(db), r, OverrideStep(old(db), u, RequestOverride(c, amount)))
    {
      if c >= |db.customers| { r := Abort(CustomerNotFound); return; }
      if !u.authorised { r := Abort(Forbidden); return; }
      if amount <= 0.0 { r := Abort(BadAmount); return; }
      var customer := db.customers[c].(overrideStatus := Pending);
      customer := customer.(overrideRequested := amount);
      customer := customer.(overrideRequestedBy := Some(u.userId), overrideReviewedBy := None);
      db := db.(customers := db.customers[c := customer]);
      Commit();
      r := None;
    }

    method ReviewCreditOverride(u: Caller, c: Id, approve: bool) returns (r: Option<Fault>)
      requires Clean()
      modifies this
      ensures Settled(old(db), r, OverrideStep(old(db), u, if approve then ApproveOverride(c) else RejectOverride(c)))
    {
      if c >= |db.customers| { r := Abort(CustomerNotFound); return; }
      if !u.authorised { r := Abort(Forbidden); return; }
      var customer := db.customers[c];
      if !customer.overrideStatus.Pending? { r := Abort(NotPending); return; }
      if approve {
        customer := customer.(overrideStatus := Approved, overrideAmount := customer.overrideRequested);
      } else {
        customer := customer.(overrideStatus := Rejected, overrideAmount := 0.0);
      }
      customer := customer.(overrideReviewedBy := Some(u.userId));
      db := db.(customers := db.customers[c := customer]);
      Commit();
      r := None;
    }

    // -------------------------------------------------------------- whole runs

    method ServeForecourt(u: Caller, op: ForecourtOp) returns (r: Option<Fault>)
      requires Clean()
      modifies this
      ensures Settled(old(db), r, ForecourtStep(old(db), u, op))
    {
      match op
      case CreateSale(d) => r := CreateFuelSale(u, d);
      case DipTank(t, volume) => r := CreateTankDip(u, t, volume);
      case AdjustMeter(n, reading) => r := AdjustNozzleMeter(u, n, reading);
    }

    method ServePurchase(u: Caller, op: PurchaseOp) returns (r: Option<Fault>)
      requires Clean()
      modifies this
      ensures Settled(old(db), r, PurchaseStep(old(db), u, op))
    {
      match op
      case CreatePurchase(d) => r := CreatePurchaseRecord(u, d);
      case ApprovePurchase(i) => r := ApprovePurchaseRecord(u, i);
      case RejectPurchase(i) => r := RejectPurchaseRecord(u, i);
    }

    method ServeReversal(u: Caller, op: ReversalOp) returns (r: Option<Fault>)
      requires Clean()
      modifies this
      ensures Settled(old(db), r, ReversalStep(old(db), u, op))
    {
      match op
      case RequestReversal(x) => r := RequestRecordReversal(u, x);
      case ApproveReversal(x) => r := ApproveRecordReversal(u, x);
      case RejectReversal(x) => r := RejectRecordReversal(u, x);
      case Reverse(x) => r := ReverseRecord(u, x);
    }

    method ServeTrip(u: Caller, op: TripOp) returns (r: Option<Fault>)
      requires Clean()
      modifies this
      ensures Settled(old(db), r, TripStep(old(db), u, op))
    {
      match op
      case CreateTrip(d) => r := CreateTankerTrip(u, d);
      case AddDelivery(t, d) => r := AddTripDelivery(u, t, d);
      case AddExpense(t, amount) => r := AddTripExpense(u, t, amount);
      case CompleteTrip(t) => r := CompleteTankerTrip(u, t);
    }

    method ServeOther(u: Caller, op: Op) returns (r: Option<Fault>)
      requires Clean() && (op.Paying? || op.Staffing? || op.Lending?)
      modifies this
      ensures Settled(old(db), r, Perform(old(db), Call(u, op)))
    {
      match op
      case Paying(PayCustomer(c, st, amount)) => r := CreateCustomerPayment(u, c, st, amount);
      case Paying(PaySupplier(p, st, amount)) => r := CreateSupplierPayment(u, p, st, amount);
      case Staffing(OpenShift(st, cash)) => r := CreateShift(u, st, cash);
      case Staffing(CloseShift(k, cash)) => r := CloseShiftRecord(u, k, cash);
      case Lending(RequestOverride(c, amount)) => r := RequestCreditOverride(u, c, amount);
      case Lending(ApproveOverride(c)) => r := ReviewCreditOverride(u, c, true);
      case Lending(RejectOverride(c)) => r := ReviewCreditOverride(u, c, false);
    }

    method Serve(call: Call) returns (r: Option<Fault>)
      requires Clean()
      modifies this
      ensures Settled(old(db), r, Perform(old(db), call))
    {
      match call.op
      case Forecourt(op) => r := ServeForecourt(call.caller, op);
      case Purchasing(op) => r := ServePurchase(call.caller, op);
      case Reversing(op) => r := ServeReversal(call.caller, op);
      case Hauling(op) => r := ServeTrip(call.caller, op);
      case _ => r := ServeOther(call.caller, call.op);
    }

    /** Serving calls one after the other is a run: refused ones leave no trace. */
    method ServeAll(calls: seq<Call>)
      requires Clean()
      modifies this
      ensures Clean() && db == Run(old(db), calls)
    {
      for i := 0 to |calls|
        invariant Clean() && db == Run(old(db), calls[..i])
      {
        assert calls[..i + 1][..i] == calls[..i];
        var r := Serve(calls[i]);
      }
      assert calls[..|calls|] == calls;
    }
  }

  lemma UndoKeepsReview(s: State, r: Record)
    requires Exists(s, r) && UndoFault(s, r).None?
    ensures Exists(Undo(s, r), r) && Rev(Undo(s, r), r) == Rev(s, r) && Undo(s, r).clock == s.clock
  {
  }

  lemma UndoIgnoresReview(s: State, r: Record, rev: Reversal)
    requires Exists(s, r)
    ensures Exists(SetRev(s, r, rev), r) && UndoFault(SetRev(s, r, rev), r) == UndoFault(s, r)
    ensures UndoFault(s, r).None? ==> Exists(Undo(s, r), r) && Undo(SetRev(s, r, rev), r) == SetRev(Undo(s, r), r, rev)
  {
    match r
    case SaleRecord(i) =>
    case PurchaseRecord(i) =>
    case CustomerPaymentRecord(i) =>
    case SupplierPaymentRecord(i) =>
  }

  lemma SetRevTwice(s: State, r: Record, a: Reversal, b: Reversal)
    requires Exists(s, r)
    ensures Exists(SetRev(s, r, a), r) && Rev(SetRev(s, r, a), r) == a && InForce(SetRev(s, r, a), r) == InForce(s, r)
    ensures SetRev(SetRev(s, r, a), r, b) == SetRev(s, r, b)
  {
    match r
    case SaleRecord(i) =>
      assert s.sales[i := s.sales[i].(rev := a)][i := s.sales[i].(rev := b)] == s.sales[i := s.sales[i].(rev := b)];
    case PurchaseRecord(i) =>
      assert s.purchases[i := s.purchases[i].(rev := a)][i := s.purchases[i].(rev := b)]
          == s.purchases[i := s.purchases[i].(rev := b)];
    case CustomerPaymentRecord(i) =>
    case SupplierPaymentRecord(i) =>
  }

  /** Reversing after the approval is written is what approving promises. */
  lemma ApprovalReverses(s: State, u: Caller, r: Record)
    requires Exists(s, r) && u.authorised && !Rev(s, r).isReversed
      && (Rev(s, r).review.Pending? || Rev(s, r).review.Approved?)
    ensures
      var marked := SetRev(s, r, Rev(s, r).(review := Approved, reviewedBy := Some(u.userId)));
      && Exists(marked, r) && ReverseFault(marked, u, r) == ApproveFault(s, u, r)
      && (ApproveFault(s, u, r).None? ==> ReverseEffect(marked, u, r) == ApproveEffect(s, u, r))
  {
    var approved := Rev(s, r).(review := Approved, reviewedBy := Some(u.userId));
    UndoIgnoresReview(s, r, approved);
    SetRevTwice(s, r, approved, Reversed(s, u, approved));
    if UndoFault(s, r).None? {
      SetRevTwice(Undo(s, r), r, approved, Reversed(s, u, approved));
    }
  }
}
