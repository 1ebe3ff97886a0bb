/** The tables of the station ledger. A row is a value; its id is its position in its
    table, and a table never loses rows. A foreign key past the end of its table is a
    row that cannot be found. Time is a logical clock that ticks once per transaction. */
module Rows {
  type Id = nat

  datatype Option<+T> = None | Some(value: T)

  /** Where a request (for a reversal, a purchase, a credit override) stands. */
  datatype Review = NotRequested | Pending | Approved | Rejected

  /** The reversal columns, the same in sales, purchases and both kinds of payment. */
  datatype Reversal = Reversal(
    isReversed: bool,
    review: Review,
    requestedBy: Option<Id>,
    reviewedBy: Option<Id>,
    reversedBy: Option<Id>,
    reversedAt: Option<nat>)

  const FRESH := Reversal(false, NotRequested, None, None, None, None)

  datatype SaleType = Cash | Credit | OtherType(name: string)

  datatype Tank = Tank(stationId: Id, fuelTypeId: Id, capacity: real, currentVolume: real)

  datatype Nozzle = Nozzle(
    stationId: Id, tankId: Id, fuelTypeId: Id,
    meterReading: real, segmentStart: real, segmentStartedAt: nat)

  datatype Customer = Customer(
    stationId: Id, creditLimit: real, outstandingBalance: real,
    overrideStatus: Review, overrideAmount: real, overrideRequested: real,
    overrideRequestedBy: Option<Id>, overrideReviewedBy: Option<Id>)

  datatype Supplier = Supplier(payableBalance: real)

  datatype Tanker = Tanker(stationId: Id, status: string)

  datatype FuelSale = FuelSale(
    nozzleId: Id, stationId: Id, fuelTypeId: Id, customerId: Option<Id>,
    openingMeter: real, closingMeter: real, quantity: real, rate: real, totalAmount: real,
    saleType: SaleType, shiftId: Option<Id>, createdAt: nat, rev: Reversal)

  datatype NozzleReading = NozzleReading(nozzleId: Id, reading: real)

  datatype Purchase = Purchase(
    supplierId: Id, tankId: Id, fuelTypeId: Id, tankerId: Option<Id>,
    quantity: real, rate: real, totalAmount: real,
    status: Review, submittedBy: Id, approvedBy: Option<Id>, createdAt: nat, rev: Reversal)

  datatype CustomerPayment = CustomerPayment(
    customerId: Id, stationId: Id, amount: real, createdAt: nat, rev: Reversal)

  datatype SupplierPayment = SupplierPayment(
    supplierId: Id, stationId: Id, amount: real, createdAt: nat, rev: Reversal)

  datatype TankDip = TankDip(
    tankId: Id, calculatedVolume: real, systemVolume: real, lossGain: real)

  datatype MeterAdjustment = MeterAdjustment(
    nozzleId: Id, stationId: Id, oldReading: real, newReading: real, adjustedBy: Id)

  datatype TripType = SupplierToStation | SupplierToCustomer | OtherTrip(name: string)
  datatype TripStatus = InProgress | Completed
  datatype Settlement = Unpaid | Partial | Paid

  datatype Delivery = Delivery(
    customerId: Option<Id>, quantity: real, fuelRate: real, fuelAmount: real,
    deliveryCharge: real, saleType: SaleType, paidAmount: real, outstandingAmount: real)

  datatype Trip = Trip(
    tankerId: Id, stationId: Id, supplierId: Option<Id>, fuelTypeId: Id, tripType: TripType,
    status: TripStatus, settlement: Settlement, linkedTankId: Option<Id>, linkedPurchaseId: Option<Id>,
    totalQuantity: real, fuelRevenue: real, deliveryRevenue: real, expenseTotal: real, netProfit: real,
    deliveries: seq<Delivery>, expenses: seq<real>, completedAt: Option<nat>)

  datatype ShiftStatus = Open | Closed

  datatype Shift = Shift(
    stationId: Id, userId: Id, status: ShiftStatus,
    initialCash: real, totalCash: real, totalCredit: real, expectedCash: real,
    actualCash: Option<real>, difference: Option<real>, endTime: Option<nat>)

  /** Everything one committed database holds. */
  datatype State = State(
    stations: nat,
    fuelTypes: nat,
    tanks: seq<Tank>,
    nozzles: seq<Nozzle>,
    customers: seq<Customer>,
    suppliers: seq<Supplier>,
    tankers: seq<Tanker>,
    sales: seq<FuelSale>,
    readings: map<Id, NozzleReading>,
    purchases: seq<Purchase>,
    customerPayments: seq<CustomerPayment>,
    supplierPayments: seq<SupplierPayment>,
    dips: seq<TankDip>,
    adjustments: seq<MeterAdjustment>,
    trips: seq<Trip>,
    shifts: seq<Shift>,
    clock: nat)
}
