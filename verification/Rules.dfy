/** What each service call may refuse and, when it does not, what it leaves behind: the
    specification of the transactions. `FaultOf` is the first check that fails, read off the
    state before the call; `Effect` is the committed state when none does. */
module Rules {
  import opened Money
  import opened Sums
  import opened Rows

  /** The user making a call. Role, organisation and station checks are summed up in `authorised`. */
  datatype Caller = Caller(userId: Id, isAdmin: bool, authorised: bool, moduleEnabled: bool)

  datatype SaleData = SaleData(
    nozzleId: Id, stationId: Id, fuelTypeId: Id, customerId: Option<Id>,
    closingMeter: real, rate: real, saleType: SaleType, shiftId: Option<Id>)

  datatype PurchaseData = PurchaseData(
    supplierId: Id, tankId: Id, fuelTypeId: Id, tankerId: Option<Id>, quantity: real, rate: real)

  datatype TripData = TripData(
    tankerId: Id, supplierId: Option<Id>, fuelTypeId: Id, tripType: TripType,
    linkedTankId: Option<Id>, hasDestination: bool)

  datatype DeliveryData = DeliveryData(
    customerId: Option<Id>, quantity: real, fuelRate: real, deliveryCharge: real,
    saleType: SaleType, paidAmount: real)

  /** A record that can be reversed. */
  datatype Record =
    SaleRecord(id: Id) | PurchaseRecord(id: Id) | CustomerPaymentRecord(id: Id) | SupplierPaymentRecord(id: Id)

  datatype ForecourtOp =
    | CreateSale(sale: SaleData)
    | DipTank(tankId: Id, calculatedVolume: real)
    | AdjustMeter(nozzleId: Id, newReading: real)

  datatype PurchaseOp =
    | CreatePurchase(purchase: PurchaseData)
    | ApprovePurchase(id: Id)
    | RejectPurchase(id: Id)

  datatype PaymentOp =
    | PayCustomer(customerId: Id, stationId: Id, amount: real)
    | PaySupplier(supplierId: Id, stationId: Id, amount: real)

  datatype ReversalOp =
    | RequestReversal(record: Record)
    | ApproveReversal(record: Record)
    | RejectReversal(record: Record)
    | Reverse(record: Record)

  datatype TripOp =
    | CreateTrip(trip: TripData)
    | AddDelivery(tripId: Id, delivery: DeliveryData)
    | AddExpense(tripId: Id, amount: real)
    | CompleteTrip(tripId: Id)

  datatype ShiftOp =
    | OpenShift(stationId: Id, initialCash: real)
    | CloseShift(shiftId: Id, actualCash: real)

  datatype OverrideOp =
    | RequestOverride(customerId: Id, amount: real)
    | ApproveOverride(customerId: Id)
    | RejectOverride(customerId: Id)

  datatype Op =
    | Forecourt(forecourt: ForecourtOp)
    | Purchasing(purchasing: PurchaseOp)
    | Paying(paying: PaymentOp)
    | Reversing(reversing: ReversalOp)
    | Hauling(hauling: TripOp)
    | Staffing(staffing: ShiftOp)
    | Lending(lending: OverrideOp)

  datatype Call = Call(caller: Caller, op: Op)

  datatype Fault =
    | Forbidden | ModuleDisabled | AdminOnly
    | ShiftNotFound | NozzleNotFound | StationNotFound | FuelTypeNotFound | CustomerNotFound
    | TankNotFound | SupplierNotFound | TankerNotFound | RecordNotFound | TripNotFound | PurchaseNotFound
    | WrongStation | WrongFuelType | ShiftNotOpen | CreditNeedsCustomer
    | MeterWentBack | BadRate | BadQuantity | BadAmount | InsufficientStock | CreditLimitExceeded
    | CapacityExceeded | NotApproved | AlreadyApproved | AlreadyRejected
    | AlreadyReversed | AlreadyPending | NotPending | MustBeApproved
    | LaterNozzleActivity | BalanceWouldBeNegative | StockConsumed | BalanceSettled
    | NothingOutstanding | ExceedsOutstanding | SameReading
    | BadTripType | TripNeedsTank | TripNeedsDestination | TripNotInProgress | BadSaleType | BadPayment
    | AlreadyCompleted | NoDeliveries | TripNeedsTankAndSupplier
    | ShiftAlreadyOpen | ShiftAlreadyClosed | NotYourShift

  datatype Result = Ok(state: State) | Err(fault: Fault)

  // ---------------------------------------------------------------- fuel sales

  function FindOpenShift(shifts: seq<Shift>, userId: Id, stationId: Id): (r: Option<Id>)
    ensures r.Some? ==> r.value < |shifts| && IsOpenFor(shifts[r.value], userId, stationId)
    ensures r.None? ==> forall i :: 0 <= i < |shifts| ==> !IsOpenFor(shifts[i], userId, stationId)
  {
    if shifts == [] then None
    else
      var last := |shifts| - 1;
      var earlier := FindOpenShift(shifts[..last], userId, stationId);
      if earlier.Some? then earlier
      else if IsOpenFor(shifts[last], userId, stationId) then Some(last) else None
  }

  predicate IsOpenFor(shift: Shift, userId: Id, stationId: Id) {
    shift.userId == userId && shift.stationId == stationId && shift.status.Open?
  }

  /** The shift a sale is booked on: the one named, or else the caller's open one at the station. */
  function SaleShift(s: State, user: Id, d: SaleData): Option<Id> {
    if d.shiftId.Some? then d.shiftId else FindOpenShift(s.shifts, user, d.stationId)
  }

  function Quantity(s: State, d: SaleData): real
    requires d.nozzleId < |s.nozzles|
  {
    d.closingMeter - s.nozzles[d.nozzleId].meterReading
  }

  function CreateSaleFault(s: State, caller: Caller, d: SaleData): Option<Fault> {
    if !caller.authorised then Some(Forbidden)
    else if d.shiftId.Some? && d.shiftId.value >= |s.shifts| then Some(ShiftNotFound)
    else if d.shiftId.Some? && s.shifts[d.shiftId.value].stationId != d.stationId then Some(WrongStation)
    else if d.shiftId.Some? && !s.shifts[d.shiftId.value].status.Open? then Some(ShiftNotOpen)
    else if d.nozzleId >= |s.nozzles| then Some(NozzleNotFound)
    else if d.stationId >= s.stations then Some(StationNotFound)
    else if d.fuelTypeId >= s.fuelTypes then Some(FuelTypeNotFound)
    else
      var nozzle := s.nozzles[d.nozzleId];
      if nozzle.stationId != d.stationId then Some(WrongStation)
      else if nozzle.fuelTypeId != d.fuelTypeId then Some(WrongFuelType)
      else if nozzle.tankId < |s.tanks| && s.tanks[nozzle.tankId].fuelTypeId != d.fuelTypeId then Some(WrongFuelType)
      else if d.customerId.Some? && d.customerId.value >= |s.customers| then Some(CustomerNotFound)
      else if d.customerId.Some? && s.customers[d.customerId.value].stationId != d.stationId then Some(WrongStation)
      else if d.saleType.Credit? && d.customerId.None? then Some(CreditNeedsCustomer)
      else if d.closingMeter < nozzle.meterReading then Some(MeterWentBack)
      else if d.rate <= 0.0 then Some(BadRate)
      else if nozzle.tankId < |s.tanks| && Quantity(s, d) > s.tanks[nozzle.tankId].currentVolume
        then Some(InsufficientStock)
      else if d.saleType.Credit? && OverLimit(s.customers[d.customerId.value], Quantity(s, d) * d.rate)
        then Some(CreditLimitExceeded)
      else None
  }

  /** A limit of zero means no limit. */
  predicate OverLimit(c: Customer, amount: real) {
    c.creditLimit > 0.0 && c.outstandingBalance + amount > c.creditLimit + c.overrideAmount
  }

  /** The customer after buying on credit: what exceeds the limit is taken out of the override. */
  function Charge(c: Customer, amount: real): Customer {
    var projected := c.outstandingBalance + amount;
    if projected > c.creditLimit && c.overrideAmount > 0.0 then
      var left := Max(c.overrideAmount - (projected - c.creditLimit), 0.0);
      c.(outstandingBalance := projected,
         overrideAmount := left,
         overrideStatus := if left == 0.0 then NotRequested else c.overrideStatus,
         overrideRequested := 0.0,
         overrideRequestedBy := None,
         overrideReviewedBy := None)
    else
      c.(outstandingBalance := projected)
  }

  function Max(x: real, y: real): real { if x >= y then x else y }

  function SaleRow(s: State, caller: Caller, d: SaleData): FuelSale
    requires d.nozzleId < |s.nozzles|
  {
    FuelSale(d.nozzleId, d.stationId, d.fuelTypeId, d.customerId,
             s.nozzles[d.nozzleId].meterReading, d.closingMeter, Quantity(s, d), d.rate, Quantity(s, d) * d.rate,
             d.saleType, SaleShift(s, caller.userId, d), s.clock, FRESH)
  }

  function CreateSaleEffect(s: State, caller: Caller, d: SaleData): State
    requires CreateSaleFault(s, caller, d).None?
  {
    var nozzle := s.nozzles[d.nozzleId];
    var row := SaleRow(s, caller, d);
    s.(sales := s.sales + [row],
       readings := s.readings[|s.sales| := NozzleReading(d.nozzleId, d.closingMeter)],
       nozzles := s.nozzles[d.nozzleId := nozzle.(meterReading := d.closingMeter)],
       tanks := AddVolume(s.tanks, nozzle.tankId, -row.quantity),
       customers := if d.saleType.Credit?
                    then s.customers[d.customerId.value := Charge(s.customers[d.customerId.value], row.totalAmount)]
                    else s.customers,
       clock := s.clock + 1)
  }

  function AddVolume(tanks: seq<Tank>, t: Id, litres: real): (r: seq<Tank>)
    ensures |r| == |tanks|
  {
    if t < |tanks| then tanks[t := tanks[t].(currentVolume := tanks[t].currentVolume + litres)] else tanks
  }

  function AddOutstanding(customers: seq<Customer>, c: Id, amount: real): (r: seq<Customer>)
    ensures |r| == |customers|
  {
    if c < |customers|
    then customers[c := customers[c].(outstandingBalance := customers[c].outstandingBalance + amount)]
    else customers
  }

  function AddPayable(suppliers: seq<Supplier>, p: Id, amount: real): (r: seq<Supplier>)
    ensures |r| == |suppliers|
  {
    if p < |suppliers|
    then suppliers[p := suppliers[p].(payableBalance := suppliers[p].payableBalance + amount)]
    else suppliers
  }

  // ---------------------------------------------------------------- purchases

  function CreatePurchaseFault(s: State, caller: Caller, d: PurchaseData): Option<Fault> {
    if d.tankId >= |s.tanks| then Some(TankNotFound)
    else if !caller.authorised then Some(Forbidden)
    else if d.supplierId >= |s.suppliers| then Some(SupplierNotFound)
    else if d.fuelTypeId >= s.fuelTypes then Some(FuelTypeNotFound)
    else if d.tankerId.Some? && d.tankerId.value >= |s.tankers| then Some(TankerNotFound)
    else if s.tanks[d.tankId].fuelTypeId != d.fuelTypeId then Some(WrongFuelType)
    else if d.quantity <= 0.0 then Some(BadQuantity)
    else if d.rate <= 0.0 then Some(BadRate)
    else if s.tanks[d.tankId].currentVolume + d.quantity > s.tanks[d.tankId].capacity then Some(CapacityExceeded)
    else None
  }

  /** A delivered purchase: fuel in the tank, money owed, tanker back in service. */
  function Receive(s: State, p: Purchase): State {
    s.(tanks := AddVolume(s.tanks, p.tankId, p.quantity),
       suppliers := AddPayable(s.suppliers, p.supplierId, p.totalAmount),
       tankers := if p.tankerId.Some? && p.tankerId.value < |s.tankers|
                  then s.tankers[p.tankerId.value := s.tankers[p.tankerId.value].(status := "active")]
                  else s.tankers)
  }

  function PurchaseRow(s: State, caller: Caller, d: PurchaseData): Purchase {
    Purchase(d.supplierId, d.tankId, d.fuelTypeId, d.tankerId, d.quantity, d.rate, d.quantity * d.rate,
             if caller.isAdmin then Approved else Pending, caller.userId,
             if caller.isAdmin then Some(caller.userId) else None, s.clock, FRESH)
  }

  function CreatePurchaseEffect(s: State, caller: Caller, d: PurchaseData): State {
    var row := PurchaseRow(s, caller, d);
    var received := if caller.isAdmin then Receive(s, row) else s;
    received.(purchases := s.purchases + [row], clock := s.clock + 1)
  }

  function ApprovePurchaseFault(s: State, caller: Caller, id: Id): Option<Fault> {
    if id >= |s.purchases| then Some(PurchaseNotFound)
    else
      var p := s.purchases[id];
      if !caller.authorised then Some(Forbidden)
      else if p.status.Approved? then Some(AlreadyApproved)
      else if p.status.Rejected? then Some(AlreadyRejected)
      else if p.tankId >= |s.tanks| || p.supplierId >= |s.suppliers| then Some(RecordNotFound)
      else if s.tanks[p.tankId].currentVolume + p.quantity > s.tanks[p.tankId].capacity then Some(CapacityExceeded)
      else None
  }

  function ApprovePurchaseEffect(s: State, caller: Caller, id: Id): State
    requires id < |s.purchases|
  {
    var p := s.purchases[id];
    Receive(s, p).(purchases := s.purchases[id := p.(status := Approved, approvedBy := Some(caller.userId))],
                   clock := s.clock + 1)
  }

  function RejectPurchaseFault(s: State, caller: Caller, id: Id): Option<Fault> {
    if id >= |s.purchases| then Some(PurchaseNotFound)
    else if !caller.authorised then Some(Forbidden)
    else if s.purchases[id].status.Approved? then Some(AlreadyApproved)
    else if s.purchases[id].status.Rejected? then Some(AlreadyRejected)
    else None
  }

  function RejectPurchaseEffect(s: State, id: Id): State
    requires id < |s.purchases|
  {
    s.(purchases := s.purchases[id := s.purchases[id].(status := Rejected, approvedBy := None)], clock := s.clock + 1)
  }

  // ---------------------------------------------------------------- payments

  function PayCustomerFault(s: State, caller: Caller, customerId: Id, stationId: Id, amount: real): Option<Fault> {
    if !caller.authorised then Some(Forbidden)
    else if amount <= 0.0 then Some(BadAmount)
    else if customerId >= |s.customers| then Some(CustomerNotFound)
    else if stationId >= s.stations then Some(StationNotFound)
    else if s.customers[customerId].stationId != stationId then Some(WrongStation)
    else if s.customers[customerId].outstandingBalance <= 0.0 then Some(NothingOutstanding)
    else if amount > s.customers[customerId].outstandingBalance then Some(ExceedsOutstanding)
    else None
  }

  function PayCustomerEffect(s: State, customerId: Id, stationId: Id, amount: real): State {
    s.(customers := AddOutstanding(s.customers, customerId, -amount),
       customerPayments := s.customerPayments + [CustomerPayment(customerId, stationId, amount, s.clock, FRESH)],
       clock := s.clock + 1)
  }

  function PaySupplierFault(s: State, caller: Caller, supplierId: Id, stationId: Id, amount: real): Option<Fault> {
    if !caller.authorised then Some(Forbidden)
    else if amount <= 0.0 then Some(BadAmount)
    else if supplierId >= |s.suppliers| then Some(SupplierNotFound)
    else if stationId >= s.stations then Some(StationNotFound)
    else if s.suppliers[supplierId].payableBalance <= 0.0 then Some(NothingOutstanding)
    else if amount > s.suppliers[supplierId].payableBalance then Some(ExceedsOutstanding)
    else None
  }

  function PaySupplierEffect(s: State, supplierId: Id, stationId: Id, amount: real): State {
    s.(suppliers := AddPayable(s.suppliers, supplierId, -amount),
       supplierPayments := s.supplierPayments + [SupplierPayment(supplierId, stationId, amount, s.clock, FRESH)],
       clock := s.clock + 1)
  }

  // ---------------------------------------------------------------- reversals

  predicate Exists(s: State, r: Record) {
    match r
    case SaleRecord(i) => i < |s.sales|
    case PurchaseRecord(i) => i < |s.purchases|
    case CustomerPaymentRecord(i) => i < |s.customerPayments|
    case SupplierPaymentRecord(i) => i < |s.supplierPayments|
  }

  function Rev(s: State, r: Record): Reversal
    requires Exists(s, r)
  {
    match r
    case SaleRecord(i) => s.sales[i].rev
    case PurchaseRecord(i) => s.purchases[i].rev
    case CustomerPaymentRecord(i) => s.customerPayments[i].rev
    case SupplierPaymentRecord(i) => s.supplierPayments[i].rev
  }

  function SetRev(s: State, r: Record, rev: Reversal): State
    requires Exists(s, r)
  {
    match r
    case SaleRecord(i) => s.(sales := s.sales[i := s.sales[i].(rev := rev)])
    case PurchaseRecord(i) => s.(purchases := s.purchases[i := s.purchases[i].(rev := rev)])
    case CustomerPaymentRecord(i) => s.(customerPayments := s.customerPayments[i := s.customerPayments[i].(rev := rev)])
    case SupplierPaymentRecord(i) => s.(supplierPayments := s.supplierPayments[i := s.supplierPayments[i].(rev := rev)])
  }

  /** A review step: only the record's reversal columns move. */
  function Mark(s: State, r: Record, rev: Reversal): State
    requires Exists(s, r)
  {
    SetRev(s, r, rev).(clock := s.clock + 1)
  }

  /** Only an approved purchase has effects to reverse; the other records have them from the start. */
  predicate InForce(s: State, r: Record)
    requires Exists(s, r)
  {
    r.PurchaseRecord? ==> s.purchases[r.id].status.Approved?
  }

  function RequestFault(s: State, caller: Caller, r: Record): Option<Fault> {
    if !Exists(s, r) then Some(RecordNotFound)
    else if !caller.authorised then Some(Forbidden)
    else if !InForce(s, r) then Some(NotApproved)
    else if Rev(s, r).isReversed then Some(AlreadyReversed)
    else if Rev(s, r).review.Pending? then Some(AlreadyPending)
    else None
  }

  function RequestEffect(s: State, caller: Caller, r: Record): State
    requires Exists(s, r)
  {
    Mark(s, r, Rev(s, r).(review := Pending, requestedBy := Some(caller.userId), reviewedBy := None))
  }

  function RejectFault(s: State, caller: Caller, r: Record): Option<Fault> {
    if !Exists(s, r) then Some(RecordNotFound)
    else if !caller.authorised then Some(Forbidden)
    else if Rev(s, r).isReversed then Some(AlreadyReversed)
    else if !Rev(s, r).review.Pending? then Some(NotPending)
    else None
  }

  function RejectEffect(s: State, caller: Caller, r: Record): State
    requires Exists(s, r)
  {
    Mark(s, r, Rev(s, r).(review := Rejected, reviewedBy := Some(caller.userId)))
  }

  /** Why the effects of a record can no longer be taken back. */
  function UndoFault(s: State, r: Record): Option<Fault>
    requires Exists(s, r)
  {
    match r
    case SaleRecord(i) =>
      var sale := s.sales[i];
      if sale.nozzleId >= |s.nozzles| then Some(NozzleNotFound)
      else
        var nozzle := s.nozzles[sale.nozzleId];
        if nozzle.meterReading != sale.closingMeter then Some(LaterNozzleActivity)
        else if nozzle.tankId < |s.tanks|
          && s.tanks[nozzle.tankId].currentVolume + sale.quantity > s.tanks[nozzle.tankId].capacity
        then Some(CapacityExceeded)
        else if sale.customerId.Some? && sale.customerId.value >= |s.customers| then Some(CustomerNotFound)
        else if sale.customerId.Some? && s.customers[sale.customerId.value].outstandingBalance - sale.totalAmount < 0.0
        then Some(BalanceWouldBeNegative)
        else None
    case PurchaseRecord(i) =>
      var p := s.purchases[i];
      if p.tankId >= |s.tanks| || p.supplierId >= |s.suppliers| then Some(RecordNotFound)
      else if s.tanks[p.tankId].currentVolume < p.quantity then Some(StockConsumed)
      else if s.suppliers[p.supplierId].payableBalance < p.totalAmount then Some(BalanceSettled)
      else None
    case CustomerPaymentRecord(i) =>
      if s.customerPayments[i].customerId >= |s.customers| then Some(CustomerNotFound) else None
    case SupplierPaymentRecord(i) =>
      if s.supplierPayments[i].supplierId >= |s.suppliers| then Some(SupplierNotFound) else None
  }

  /** The balances once the record's effects are taken back. */
  function Undo(s: State, r: Record): State
    requires Exists(s, r) && UndoFault(s, r).None?
  {
    match r
    case SaleRecord(i) =>
      var sale := s.sales[i];
      var nozzle := s.nozzles[sale.nozzleId];
      s.(nozzles := s.nozzles[sale.nozzleId := nozzle.(meterReading := sale.openingMeter)],
         tanks := AddVolume(s.tanks, nozzle.tankId, sale.quantity),
         customers := if sale.customerId.Some?
           then AddOutstanding(s.customers, sale.customerId.value, -sale.totalAmount) else s.customers,
         readings := s.readings - {i})
    case PurchaseRecord(i) =>
      s.(tanks := AddVolume(s.tanks, s.purchases[i].tankId, -s.purchases[i].quantity),
         suppliers := AddPayable(s.suppliers, s.purchases[i].supplierId, -s.purchases[i].totalAmount))
    case CustomerPaymentRecord(i) =>
      s.(customers := AddOutstanding(s.customers, s.customerPayments[i].customerId, s.customerPayments[i].amount))
    case SupplierPaymentRecord(i) =>
      s.(suppliers := AddPayable(s.suppliers, s.supplierPayments[i].supplierId, s.supplierPayments[i].amount))
  }

  function TakeBack(s: State, r: Record, rev: Reversal): State
    requires Exists(s, r) && UndoFault(s, r).None?
  {
    SetRev(Undo(s, r), r, rev).(clock := s.clock + 1)
  }

  function ReverseFault(s: State, caller: Caller, r: Record): Option<Fault> {
    if !Exists(s, r) then Some(RecordNotFound)
    else if !caller.authorised then Some(Forbidden)
    else if !InForce(s, r) then Some(NotApproved)
    else if !Rev(s, r).review.Approved? && !caller.isAdmin then Some(MustBeApproved)
    else if Rev(s, r).isReversed then Some(AlreadyReversed)
    else UndoFault(s, r)
  }

  function Reversed(s: State, caller: Caller, rev: Reversal): Reversal {
    rev.(isReversed := true, reversedBy := Some(caller.userId), reversedAt := Some(s.clock))
  }

  function ReverseEffect(s: State, caller: Caller, r: Record): State
    requires ReverseFault(s, caller, r).None?
  {
    TakeBack(s, r, Reversed(s, caller, Rev(s, r)))
  }

  function ApproveFault(s: State, caller: Caller, r: Record): Option<Fault> {
    if !Exists(s, r) then Some(RecordNotFound)
    else if !caller.authorised then Some(Forbidden)
    else if Rev(s, r).isReversed then Some(AlreadyReversed)
    else if !Rev(s, r).review.Pending? && !Rev(s, r).review.Approved? then Some(NotPending)
    else if !InForce(s, r) then Some(NotApproved)
    else UndoFault(s, r)
  }

  /** Approving a request reverses the record in the same transaction. */
  function ApproveEffect(s: State, caller: Caller, r: Record): State
    requires ApproveFault(s, caller, r).None?
  {
    TakeBack(s, r, Reversed(s, caller, Rev(s, r)).(review := Approved, reviewedBy := Some(caller.userId)))
  }

  // ---------------------------------------------------------------- dips and meters

  function DipFault(s: State, caller: Caller, t: Id): Option<Fault> {
    if t >= |s.tanks| then Some(TankNotFound)
    else if !caller.authorised then Some(Forbidden)
    else None
  }

  function DipEffect(s: State, t: Id, volume: real): State
    requires t < |s.tanks|
  {
    var system := s.tanks[t].currentVolume;
    s.(tanks := s.tanks[t := s.tanks[t].(currentVolume := volume)],
       dips := s.dips + [TankDip(t, volume, system, volume - system)],
       clock := s.clock + 1)
  }

  function AdjustFault(s: State, caller: Caller, n: Id, reading: real): Option<Fault> {
    if n >= |s.nozzles| then Some(NozzleNotFound)
    else if !caller.isAdmin then Some(AdminOnly)
    else if !caller.moduleEnabled then Some(ModuleDisabled)
    else if reading == s.nozzles[n].meterReading then Some(SameReading)
    else None
  }

  /** Setting a meter starts a new segment of sales on its nozzle. */
  function AdjustEffect(s: State, caller: Caller, n: Id, reading: real): State
    requires n < |s.nozzles|
  {
    var nozzle := s.nozzles[n];
    var event := MeterAdjustment(n, nozzle.stationId, nozzle.meterReading, reading, caller.userId);
    s.(nozzles := s.nozzles[n :=
         nozzle.(meterReading := reading, segmentStart := reading, segmentStartedAt := s.clock)],
       adjustments := s.adjustments + [event],
       clock := s.clock + 1)
  }

  // ---------------------------------------------------------------- tanker trips

  function QuantityOf(): Delivery -> real { (d: Delivery) => d.quantity }
  function FuelAmountOf(): Delivery -> real { (d: Delivery) => d.fuelAmount }
  function ChargeOf(): Delivery -> real { (d: Delivery) => d.deliveryCharge }
  function OutstandingOf(): Delivery -> real { (d: Delivery) => d.outstandingAmount }
  function ValueOf(): Delivery -> real { (d: Delivery) => d.fuelAmount + d.deliveryCharge }
  function AmountOf(): real -> real { (x: real) => x }

  function SettlementOf(ds: seq<Delivery>): Settlement {
    var outstanding := RoundCents(Sum(ds, OutstandingOf()));
    if outstanding <= 0.0 then Paid
    else if outstanding < RoundCents(Sum(ds, ValueOf())) then Partial
    else Unpaid
  }

  function NetProfit(tripType: TripType, revenue: real, delivery: real, expenses: real): real {
    if tripType.SupplierToStation? then RoundCents(0.0 - expenses) else RoundCents((revenue + delivery) - expenses)
  }

  /** The trip with its totals worked out afresh from its deliveries and expenses. */
  function Recomputed(t: Trip): Trip {
    var revenue := RoundCents(Sum(t.deliveries, FuelAmountOf()));
    var delivery := RoundCents(Sum(t.deliveries, ChargeOf()));
    var expenses := RoundCents(Sum(t.expenses, AmountOf()));
    t.(totalQuantity := RoundCents(Sum(t.deliveries, QuantityOf())),
       fuelRevenue := revenue,
       deliveryRevenue := delivery,
       expenseTotal := expenses,
       netProfit := NetProfit(t.tripType, revenue, delivery, expenses),
       settlement := SettlementOf(t.deliveries))
  }

  function CreateTripFault(s: State, caller: Caller, d: TripData): Option<Fault> {
    if d.tankerId >= |s.tankers| then Some(TankerNotFound)
    else if !caller.authorised then Some(Forbidden)
    else if !caller.moduleEnabled then Some(ModuleDisabled)
    else if d.tripType.OtherTrip? then Some(BadTripType)
    else if d.tripType.SupplierToStation? && d.linkedTankId.None? then Some(TripNeedsTank)
    else if d.tripType.SupplierToCustomer? && !d.hasDestination then Some(TripNeedsDestination)
    else if d.supplierId.Some? && d.supplierId.value >= |s.suppliers| then Some(SupplierNotFound)
    else if d.linkedTankId.Some? && d.linkedTankId.value >= |s.tanks| then Some(TankNotFound)
    else if d.linkedTankId.Some? && s.tanks[d.linkedTankId.value].stationId != s.tankers[d.tankerId].stationId
      then Some(WrongStation)
    else if d.linkedTankId.Some? && s.tanks[d.linkedTankId.value].fuelTypeId != d.fuelTypeId then Some(WrongFuelType)
    else None
  }

  function TripRow(s: State, d: TripData): Trip
    requires d.tankerId < |s.tankers|
  {
    Trip(d.tankerId, s.tankers[d.tankerId].stationId, d.supplierId, d.fuelTypeId, d.tripType,
         InProgress, Unpaid, d.linkedTankId, None, 0.0, 0.0, 0.0, 0.0, 0.0, [], [], None)
  }

  function CreateTripEffect(s: State, d: TripData): State
    requires d.tankerId < |s.tankers|
  {
    s.(trips := s.trips + [TripRow(s, d)], clock := s.clock + 1)
  }

  function Gross(d: DeliveryData): real { d.quantity * d.fuelRate }

  function TotalValue(d: DeliveryData): real { RoundCents(Gross(d) + d.deliveryCharge) }

  function DeliveryRow(d: DeliveryData): Delivery { DeliveryWorth(d, Gross(d)) }

  /** The delivery, its fuel being worth `gross` before rounding. */
  function DeliveryWorth(d: DeliveryData, gross: real): Delivery {
    Delivery(d.customerId, d.quantity, d.fuelRate, RoundCents(gross), d.deliveryCharge,
             d.saleType, d.paidAmount, RoundCents(RoundCents(gross + d.deliveryCharge) - d.paidAmount))
  }

  function AddDeliveryFault(s: State, caller: Caller, t: Id, d: DeliveryData): Option<Fault> {
    if t >= |s.trips| then Some(TripNotFound)
    else if !caller.authorised then Some(Forbidden)
    else if !caller.moduleEnabled then Some(ModuleDisabled)
    else if !s.trips[t].status.InProgress? then Some(TripNotInProgress)
    else if d.quantity <= 0.0 || d.fuelRate <= 0.0 then Some(BadQuantity)
    else if d.deliveryCharge < 0.0 then Some(BadAmount)
    else if d.saleType.OtherType? then Some(BadSaleType)
    else if d.customerId.Some? && d.customerId.value >= |s.customers| then Some(CustomerNotFound)
    else if d.customerId.Some? && s.customers[d.customerId.value].stationId != s.trips[t].stationId
      then Some(WrongStation)
    else if d.paidAmount < 0.0 || d.paidAmount > TotalValue(d) then Some(BadPayment)
    else if d.saleType.Credit? && d.customerId.None? then Some(CreditNeedsCustomer)
    else None
  }

  function AddDeliveryEffect(s: State, t: Id, d: DeliveryData): State
    requires t < |s.trips|
  {
    var trip := s.trips[t];
    s.(trips := s.trips[t := Recomputed(trip.(deliveries := trip.deliveries + [DeliveryRow(d)]))], clock := s.clock + 1)
  }

  function AddExpenseFault(s: State, caller: Caller, t: Id, amount: real): Option<Fault> {
    if t >= |s.trips| then Some(TripNotFound)
    else if !caller.authorised then Some(Forbidden)
    else if !caller.moduleEnabled then Some(ModuleDisabled)
    else if amount <= 0.0 then Some(BadAmount)
    else None
  }

  /** Expenses can be added to a trip at any time, also after completion. */
  function AddExpenseEffect(s: State, t: Id, amount: real): State
    requires t < |s.trips|
  {
    var trip := s.trips[t];
    s.(trips := s.trips[t := Recomputed(trip.(expenses := trip.expenses + [amount]))], clock := s.clock + 1)
  }

  function CompleteTripFault(s: State, caller: Caller, t: Id): Option<Fault> {
    if t >= |s.trips| then Some(TripNotFound)
    else
      var trip := s.trips[t];
      if !caller.authorised then Some(Forbidden)
      else if !caller.moduleEnabled then Some(ModuleDisabled)
      else if trip.status.Completed? then Some(AlreadyCompleted)
      else if trip.deliveries == [] then Some(NoDeliveries)
      else if trip.tripType.SupplierToStation? then PostingFault(s, Recomputed(trip))
      else None
  }

  function PostingFault(s: State, trip: Trip): Option<Fault> {
    if !HasTankAndSupplier(s, trip) then Some(TripNeedsTankAndSupplier)
    else if s.tanks[trip.linkedTankId.value].currentVolume + trip.totalQuantity
            > s.tanks[trip.linkedTankId.value].capacity
    then Some(CapacityExceeded)
    else None
  }

  predicate HasTankAndSupplier(s: State, trip: Trip) {
    && trip.linkedTankId.Some? && trip.linkedTankId.value < |s.tanks|
    && trip.supplierId.Some? && trip.supplierId.value < |s.suppliers|
  }

  /** The purchase a completed trip to the station stands for. */
  function TripPurchase(s: State, caller: Caller, trip: Trip): Purchase
    requires HasTankAndSupplier(s, trip)
  {
    Purchase(trip.supplierId.value, trip.linkedTankId.value, trip.fuelTypeId, Some(trip.tankerId),
             trip.totalQuantity,
             if trip.totalQuantity != 0.0 then trip.fuelRevenue / trip.totalQuantity else 0.0,
             trip.fuelRevenue, Approved, caller.userId, Some(caller.userId), s.clock, FRESH)
  }

  /** Credit deliveries to known customers, posted one after the other. */
  function PostDeliveries(customers: seq<Customer>, ds: seq<Delivery>): (r: seq<Customer>)
    ensures |r| == |customers|
  {
    if ds == [] then customers
    else
      var last := ds[|ds| - 1];
      var posted := PostDeliveries(customers, ds[..|ds| - 1]);
      if last.saleType.Credit? && last.customerId.Some?
        then AddOutstanding(posted, last.customerId.value, last.outstandingAmount)
      else posted
  }

  function CompleteTripEffect(s: State, caller: Caller, t: Id): State
    requires CompleteTripFault(s, caller, t).None?
  {
    var trip := Recomputed(s.trips[t]).(status := Completed, completedAt := Some(s.clock));
    if trip.tripType.SupplierToStation? then
      var row := TripPurchase(s, caller, trip);
      s.(tanks := AddVolume(s.tanks, row.tankId, row.quantity),
         suppliers := AddPayable(s.suppliers, row.supplierId, row.totalAmount),
         purchases := s.purchases + [row],
         trips := s.trips[t := trip.(linkedPurchaseId := Some(|s.purchases|))],
         clock := s.clock + 1)
    else
      s.(customers := PostDeliveries(s.customers, trip.deliveries),
         trips := s.trips[t := trip],
         clock := s.clock + 1)
  }

  // ---------------------------------------------------------------- shifts

  function OpenShiftFault(s: State, caller: Caller, stationId: Id): Option<Fault> {
    if !caller.authorised then Some(Forbidden)
    else if FindOpenShift(s.shifts, caller.userId, stationId).Some? then Some(ShiftAlreadyOpen)
    else if stationId >= s.stations then Some(StationNotFound)
    else None
  }

  function OpenShiftEffect(s: State, caller: Caller, stationId: Id, initialCash: real): State {
    var row := Shift(stationId, caller.userId, Open, initialCash, 0.0, 0.0, initialCash, None, None, None);
    s.(shifts := s.shifts + [row],
       clock := s.clock + 1)
  }

  function CloseShiftFault(s: State, caller: Caller, k: Id): Option<Fault> {
    if k >= |s.shifts| then Some(ShiftNotFound)
    else if s.shifts[k].status.Closed? then Some(ShiftAlreadyClosed)
    else if s.shifts[k].userId != caller.userId then Some(NotYourShift)
    else None
  }

  /** A sale of the shift that still stands, in one way of paying. */
  function ShiftSale(k: Id, saleType: SaleType): FuelSale -> real {
    (s: FuelSale) => if s.shiftId == Some(k) && s.saleType == saleType && !s.rev.isReversed then s.totalAmount else 0.0
  }

  function CloseShiftEffect(s: State, k: Id, actualCash: real): State
    requires k < |s.shifts|
  {
    var cash := Sum(s.sales, ShiftSale(k, Cash));
    var expected := s.shifts[k].initialCash + cash;
    s.(shifts := s.shifts[k := s.shifts[k].(
         totalCash := cash,
         totalCredit := Sum(s.sales, ShiftSale(k, Credit)),
         expectedCash := expected,
         actualCash := Some(actualCash),
         difference := Some(actualCash - expected),
         status := Closed,
         endTime := Some(s.clock))],
       clock := s.clock + 1)
  }

  // ---------------------------------------------------------------- credit overrides

  function RequestOverrideFault(s: State, caller: Caller, c: Id, amount: real): Option<Fault> {
    if c >= |s.customers| then Some(CustomerNotFound)
    else if !caller.authorised then Some(Forbidden)
    else if amount <= 0.0 then Some(BadAmount)
    else None
  }

  function RequestOverrideEffect(s: State, caller: Caller, c: Id, amount: real): State
    requires c < |s.customers|
  {
    s.(customers := s.customers[c := s.customers[c].(
         overrideStatus := Pending, overrideRequested := amount,
         overrideRequestedBy := Some(caller.userId), overrideReviewedBy := None)],
       clock := s.clock + 1)
  }

  function ReviewOverrideFault(s: State, caller: Caller, c: Id): Option<Fault> {
    if c >= |s.customers| then Some(CustomerNotFound)
    else if !caller.authorised then Some(Forbidden)
    else if !s.customers[c].overrideStatus.Pending? then Some(NotPending)
    else None
  }

  function ReviewOverrideEffect(s: State, caller: Caller, c: Id, approve: bool): State
    requires c < |s.customers|
  {
    s.(customers := s.customers[c := s.customers[c].(
         overrideStatus := if approve then Approved else Rejected,
         overrideAmount := if approve then s.customers[c].overrideRequested else 0.0,
         overrideReviewedBy := Some(caller.userId))],
       clock := s.clock + 1)
  }

  // ---------------------------------------------------------------- runs

  function ForecourtStep(s: State, u: Caller, op: ForecourtOp): Result {
    match op
    case CreateSale(d) =>
      (match CreateSaleFault(s, u, d) case Some(f) => Err(f) case None => Ok(CreateSaleEffect(s, u, d)))
    case DipTank(t, volume) => (match DipFault(s, u, t) case Some(f) => Err(f) case None => Ok(DipEffect(s, t, volume)))
    case AdjustMeter(n, reading) =>
      (match AdjustFault(s, u, n, reading) case Some(f) => Err(f) case None => Ok(AdjustEffect(s, u, n, reading)))
  }

  function PurchaseStep(s: State, u: Caller, op: PurchaseOp): Result {
    match op
    case CreatePurchase(d) =>
      (match CreatePurchaseFault(s, u, d) case Some(f) => Err(f) case None => Ok(CreatePurchaseEffect(s, u, d)))
    case ApprovePurchase(i) =>
      (match ApprovePurchaseFault(s, u, i) case Some(f) => Err(f) case None => Ok(ApprovePurchaseEffect(s, u, i)))
    case RejectPurchase(i) =>
      (match RejectPurchaseFault(s, u, i) case Some(f) => Err(f) case None => Ok(RejectPurchaseEffect(s, i)))
  }

  function PaymentStep(s: State, u: Caller, op: PaymentOp): Result {
    match op
    case PayCustomer(c, st, amount) =>
      (match PayCustomerFault(s, u, c, st, amount) case Some(f) => Err(f)
       case None => Ok(PayCustomerEffect(s, c, st, amount)))
    case PaySupplier(p, st, amount) =>
      (match PaySupplierFault(s, u, p, st, amount) case Some(f) => Err(f)
       case None => Ok(PaySupplierEffect(s, p, st, amount)))
  }

  function ReversalStep(s: State, u: Caller, op: ReversalOp): Result {
    match op
    case RequestReversal(r) =>
      (match RequestFault(s, u, r) case Some(f) => Err(f) case None => Ok(RequestEffect(s, u, r)))
    case ApproveReversal(r) =>
      (match ApproveFault(s, u, r) case Some(f) => Err(f) case None => Ok(ApproveEffect(s, u, r)))
    case RejectReversal(r) => (match RejectFault(s, u, r) case Some(f) => Err(f) case None => Ok(RejectEffect(s, u, r)))
    case Reverse(r) => (match ReverseFault(s, u, r) case Some(f) => Err(f) case None => Ok(ReverseEffect(s, u, r)))
  }

  function TripStep(s: State, u: Caller, op: TripOp): Result {
    match op
    case CreateTrip(d) =>
      (match CreateTripFault(s, u, d) case Some(f) => Err(f) case None => Ok(CreateTripEffect(s, d)))
    case AddDelivery(t, d) =>
      (match AddDeliveryFault(s, u, t, d) case Some(f) => Err(f) case None => Ok(AddDeliveryEffect(s, t, d)))
    case AddExpense(t, amount) =>
      (match AddExpenseFault(s, u, t, amount) case Some(f) => Err(f) case None => Ok(AddExpenseEffect(s, t, amount)))
    case CompleteTrip(t) =>
      (match CompleteTripFault(s, u, t) case Some(f) => Err(f) case None => Ok(CompleteTripEffect(s, u, t)))
  }

  function ShiftStep(s: State, u: Caller, op: ShiftOp): Result {
    match op
    case OpenShift(st, cash) =>
      (match OpenShiftFault(s, u, st) case Some(f) => Err(f) case None => Ok(OpenShiftEffect(s, u, st, cash)))
    case CloseShift(k, cash) =>
      (match CloseShiftFault(s, u, k) case Some(f) => Err(f) case None => Ok(CloseShiftEffect(s, k, cash)))
  }

  function OverrideStep(s: State, u: Caller, op: OverrideOp): Result {
    match op
    case RequestOverride(c, amount) =>
      (match RequestOverrideFault(s, u, c, amount) case Some(f) => Err(f)
       case None => Ok(RequestOverrideEffect(s, u, c, amount)))
    case ApproveOverride(c) =>
      (match ReviewOverrideFault(s, u, c) case Some(f) => Err(f) case None => Ok(ReviewOverrideEffect(s, u, c, true)))
    case RejectOverride(c) =>
      (match ReviewOverrideFault(s, u, c) case Some(f) => Err(f) case None => Ok(ReviewOverrideEffect(s, u, c, false)))
  }

  function Perform(s: State, call: Call): Result {
    match call.op
    case Forecourt(op) => ForecourtStep(s, call.caller, op)
    case Purchasing(op) => PurchaseStep(s, call.caller, op)
    case Paying(op) => PaymentStep(s, call.caller, op)
    case Reversing(op) => ReversalStep(s, call.caller, op)
    case Hauling(op) => TripStep(s, call.caller, op)
    case Staffing(op) => ShiftStep(s, call.caller, op)
    case Lending(op) => OverrideStep(s, call.caller, op)
  }

  /** One transaction: a refused call leaves the database as it was. */
  function Step(s: State, call: Call): State {
    var r := Perform(s, call);
    if r.Ok? then r.state else s
  }

  /** The state after a run of calls, refused ones included. */
  function Run(s: State, calls: seq<Call>): State {
    if calls == [] then s else Step(Run(s, calls[..|calls| - 1]), calls[|calls| - 1])
  }
}
