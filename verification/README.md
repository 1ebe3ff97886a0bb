# Station ledger: a verified model

This project models the bookkeeping of a petrol-station management system and proves what its
running figures are worth. The system never recomputes a balance: tank volumes, nozzle meters,
customer and supplier balances, trip totals and shift totals are fields that some twenty operations
raise and lower as they go. The model keeps those operations as they are and proves, for every run of
calls in any order, that each field agrees with the records behind it, or says exactly when it does not.

## How it is built

* `Rows.dfy` holds the tables. A row is a value, its id is its position in its table, and a foreign key
  past the end of a table is a row that cannot be found. Time is a logical clock that ticks once per
  committed transaction. Litres and money are exact reals; `Money.dfy` rounds to cents, ties to even.
* `Rules.dfy` is the specification of the calls: the first check that fails, read off the state before the
  call, and the state left behind when none does. `Step` is one transaction, `Run` a sequence of calls,
  refused ones included.
* `Session.dfy` is the imperative side: a database session whose tables are changed statement by
  statement, in the order of the services, with a commit at the end and a rollback on every exception.
  Some services write first and check later; each method is proved to end in exactly the state `Rules`
  gives or in the state before the call. `ServeAll` is the link to runs.
* `Figures.dfy` says what the records add up to. `Tanks`, `Balances`, `Agreement`, `Meters`, `History`, `Log`,
  `Approvals`, `Trips`, `Shifts` and `CreditLimits` prove the theorems over all runs from an initial state: any tank volumes and
  meter readings, no records, nothing owed. `Counterexamples` holds runs where a tempting rule fails.
* `Acceptance.dfy` says when each call is accepted, as conditions that must all hold; `Log.dfy` that every table is
  the log of the accepted calls, each row still saying what its call asked for; `Approvals.dfy` what purchase
  decisions and reversal requests leave behind.
* `Reports.dfy` builds ledgers, statements and the stock report the way the endpoints do.
* `Tax.dfy`, `DocumentNumbers.dfy`, `Payroll.dfy`, `DeliveryQueue.dfy` and `PointOfSale.dfy` stand on their own.

## What the code does where one might expect otherwise

* Reversing a sale gives its total back to the customer it names even if the sale was not on credit.
  The balance then parts from the ledger. `Agreement.CustomerAgreement` gives the exact condition,
  `Counterexamples.CashRefundParts` a run.
* The repository's README says adjusting a meter does not break later sales math. The meter always
  telescopes; the current segment's sales add up to its movement exactly when no earlier segment's
  sale was reversed meanwhile (`Meters.SegmentRule`), which the reading comparison allows
  (`Counterexamples.EarlierSegmentReopens`).
* A zero-litre sale lets the sale below it be reversed (`Counterexamples.ZeroLitresBreakTheStack`). The
  standing sales of a nozzle form a gapless stack exactly as long as no call does that
  (`Meters.StandingSalesStack`, and `Meters.SegmentStack` for nozzles whose meter is adjusted).
* A credit override that a sale used up is not given back when the sale is reversed
  (`Agreement.TakeBackRestores`, `Counterexamples.OverrideNotGivenBack`), and a sale that draws on an old
  override silently wipes the amount of a new request that is still open; approving that request then takes
  away what was left of the old override (`CreditLimits.RequestSurvives`, `CreditLimits.ApprovalGrants`,
  `Counterexamples.RequestIsWiped`).
* An administrator's direct reversal leaves a request that is still pending pending, on a record that is
  reversed (`Counterexamples.RequestOutlivesReversal`); `Approvals.PendingAfterRequest` therefore speaks of
  records that are not reversed.
* Stock at the till is checked line by line, so two lines of one product can overdraw it
  (`PointOfSale.StockStaysNonNegative`, `PointOfSale.TwinLinesAccepted`).
* Rounded subtotal and tax can miss the rounded total by a cent. `Tax.PartsAddUp` says when, for any amount;
  `Tax.PartsCanMiss` and `Tax.SmallPartsCanMiss` are instances.

## Model

| member | source | states |
|---|---|---|
| `Session.Session.CreateFuelSale` | ppms/app/services/fuel_sales.py:30-149 | writes sale, reading, meter and tank before the credit limit is checked; ends in the committed effect or, refused at any point, in the state before |
| `Session.Session.CheckSale` | ppms/app/services/fuel_sales.py:34-94 | the checks made before anything is written, in their order, and the shift the sale is booked on |
| `Session.Session.ChargeCustomer` | ppms/app/services/fuel_sales.py:128-145 | refuses over limit plus override; otherwise charges and takes the excess out of the override |
| `Session.Session.UndoSale` | ppms/app/services/fuel_sales.py:159-181 | refunds the customer first, may still refuse, and otherwise restores meter, tank and reading |
| `Session.Session.FinishReversal` | ppms/app/services/fuel_sales.py:152-198 | a direct reversal: all checks, all effects, the mark on the record; any failure rolls everything back |
| `Session.Session.ReverseRecord` | ppms/app/services/payments.py:89-114 | the same protocol for sales, purchases, customer and supplier payments |
| `Session.Session.RequestRecordReversal` | ppms/app/services/purchases.py:245-283 | a request moves nothing but the reversal columns; only approved purchases can be requested |
| `Session.Session.ApproveRecordReversal` | ppms/app/services/fuel_sales.py:241-275 | approval and reversal are one transaction: if the reversal fails the pending request is still pending |
| `Session.Session.RejectRecordReversal` | ppms/app/services/fuel_sales.py:278-313 | only a pending request can be rejected; balances stay |
| `Session.ApprovalReverses` | ppms/app/services/fuel_sales.py:248-275 | reversing after the approval is written fails and succeeds exactly as approving promises |
| `Session.Session.UndoPurchase` | ppms/app/services/purchases.py:217-223 | refused if stock or payable balance no longer cover it |
| `Session.Session.UndoPayment` | ppms/app/services/payments.py:278-281 | restores the balance without any limit check |
| `Session.Session.CheckPurchase` | ppms/app/services/purchases.py:29-60 | all input checks in order, capacity included |
| `Session.Session.CreatePurchaseRecord` | ppms/app/services/purchases.py:70-117 | an administrator's purchase takes effect at once, another's only waits |
| `Session.Session.ApprovePurchaseRecord` | ppms/app/services/purchases.py:120-165 | capacity is checked again at approval; the effects come exactly then |
| `Session.Session.RejectPurchaseRecord` | ppms/app/services/purchases.py:168-204 | only undecided purchases can be rejected, without effects |
| `Session.Session.CreateCustomerPayment` | ppms/app/services/payments.py:44-86 | never more than is outstanding |
| `Session.Session.CreateSupplierPayment` | ppms/app/services/payments.py:229-269 | never more than is payable |
| `Session.Session.CreateTankDip` | ppms/app/services/tank_dips.py:11-31 | records the difference and overwrites the volume, unbounded |
| `Session.Session.AdjustNozzleMeter` | ppms/app/services/nozzle_meter.py:18-80 | logs old and new reading and starts a new segment |
| `Session.Session.RecomputeTrip` | ppms/app/services/tanker_ops.py:53-69 | totals, profit and settlement from deliveries and expenses, field by field |
| `Session.Session.CreateTankerTrip` | ppms/app/services/tanker_ops.py:100-149 | a fresh trip: in progress, unpaid, all totals zero |
| `Session.Session.AddTripDelivery` | ppms/app/services/tanker_ops.py:152-203 | a priced delivery is added and the totals recomputed |
| `Session.Session.PriceDelivery` | ppms/app/services/tanker_ops.py:170-186 | both amounts in whole cents, the fuel within half a cent of its worth, what is left within a cent of the delivery's; whole cents paid and outstanding make up the rounded value exactly, never negative for an accepted payment |
| `Session.Session.AddTripExpense` | ppms/app/services/tanker_ops.py:206-232 | expenses can be added to any trip, completed or not |
| `Session.Session.BookTripPurchase` | ppms/app/services/tanker_ops.py:245-271 | books the totals as an approved purchase, raises tank and supplier, links the purchase |
| `Session.Session.PostTripDeliveries` | ppms/app/services/tanker_ops.py:272-277 | the loop over deliveries, several of them perhaps to one customer |
| `Session.Session.CompleteTankerTrip` | ppms/app/services/tanker_ops.py:235-292 | completes once, with all postings, or leaves everything as it was |
| `Session.Session.CreateShift` | ppms/app/services/shifts.py:14-53 | refused while the user has an open shift at the station |
| `Session.Session.CloseShiftRecord` | ppms/app/services/shifts.py:56-93 | totals of the sales that stand, expected cash and difference |
| `Session.Session.RequestCreditOverride` | ppms/app/services/customers.py:60-84 | opens a request without touching the amount granted |
| `Session.Session.ReviewCreditOverride` | ppms/app/services/customers.py:87-132 | approval grants what is requested, rejection grants nothing |
| `Session.Session.Abort` | ppms/app/core/database.py:20-25 | an exception closes the session without commit: back to what is committed |
| `Session.Session.ServeAll` | ppms/app/core/database.py:20-25 | serving calls one after another is a run of the rules, refused calls leaving no trace |
| `Rules.FindOpenShift` | ppms/app/services/fuel_sales.py:36-42 | finds an open shift of the user at the station exactly when there is one |
| `Acceptance.AcceptedExactlyWhen` | ppms/app/services/fuel_sales.py:34-137 | every operation, in any state: the call is accepted if and only if its conditions on state and call all hold, whatever the order of the checks |
| `Log.OneRowPerCall` | ppms/app/services/fuel_sales.py:96-118 | every run: each table has one row per accepted call that adds to it, in the order of the calls |
| `Log.EveryCallHasARow` | ppms/app/services/payments.py:58-72 | every run: no accepted call of that kind is without its row |
| `Log.RowsComeFromCalls` | ppms/app/services/fuel_sales.py:34-118 | every run, every table: a row still says what its call asked for - a sale is booked on the shift named, or on the caller's open shift at the station exactly if there is one, at the meter's move times the rate; payments, dips, adjustments, shifts, trips and deliveries keep the call's figures |
| `Tanks.TankConservation` | ppms/app/services/reports.py:167-185 | every run: volume is opening volume plus unreversed approved purchases minus unreversed sales plus dip differences |
| `Tanks.TankBounds` | ppms/app/services/purchases.py:132-133 | every run whose dips are in range keeps every tank between empty and full, late approvals included |
| `Reports.StockReportAgrees` | ppms/app/services/reports.py:185-197 | every run: the reported volume is opening volume, reported net movement and dips, to a hundredth of a litre |
| `Reports.BuildStockMovement` | ppms/app/services/reports.py:167-199 | one item per tank, its purchases in force and its unreversed sales added up record by record, each figure to the nearest hundredth, the net within a hundredth of the other two |
| `Reports.TotalPurchased` | ppms/app/services/reports.py:168-172 | the loop over purchases is the sum that tank conservation speaks about |
| `Reports.TotalSold` | ppms/app/services/reports.py:173-176 | the loop over sales likewise |
| `Balances.BalancesAgree` | ppms/app/services/fuel_sales.py:167-173 | every run: the exact make-up of every customer and supplier balance, and none is negative |
| `Balances.PostedDeliveries` | ppms/app/services/tanker_ops.py:272-277 | posting in sequence adds to each customer exactly the sum of their credit deliveries |
| `Agreement.CustomerAgreement` | ppms/app/api/ledger.py:24-69 | every run: balance equals ledger plus trip deliveries if and only if no uncharged sale in the customer's name that dispensed fuel was reversed |
| `Agreement.CreditOnlyNamingAgrees` | ppms/app/services/fuel_sales.py:128-133 | runs that name the customer on credit sales only always agree with the ledger |
| `Agreement.SupplierAgreement` | ppms/app/services/financial_documents.py:231-251 | every run: balance equals ledger, equals the sum of all stations' statements, is not negative |
| `Agreement.TakeBackAccepted` | ppms/app/services/fuel_sales.py:159-173 | when exactly a sale just made can be reversed |
| `Agreement.TakeBackRestores` | ppms/app/services/fuel_sales.py:159-181 | sell then reverse restores meter, tank, reading and balances; the customer wholly if and only if no override was used |
| `Counterexamples.CashRefundParts` | ppms/app/services/fuel_sales.py:167-171 | a run after which ledger and balance differ |
| `Counterexamples.ZeroLitresBreakTheStack` | ppms/app/services/fuel_sales.py:162-163 | a run in which a sale is reversed from under another |
| `Counterexamples.EarlierSegmentReopens` | ppms/app/services/nozzle_meter.py:47-49 | a run in which the meter is set away and back and an ended segment's sale is reversed: the segment's sales no longer add up to its movement |
| `Counterexamples.OverrideNotGivenBack` | ppms/app/services/fuel_sales.py:134-145 | a run in which a sale over the limit is reversed: the balance is back, twenty of the override are gone |
| `Counterexamples.RequestIsWiped` | ppms/app/services/fuel_sales.py:139-145 | a run in which a sale empties an open request, and approving it takes away the override that was left |
| `Counterexamples.RequestOutlivesReversal` | ppms/app/services/fuel_sales.py:154-186 | a run that ends with a pending request on a reversed sale |
| `Reports.BuildCustomerLedger` | ppms/app/api/ledger.py:19-69 | the unreversed credit sales and payments in date order, each line the sum so far, ending on the ledger total |
| `Reports.BuildSupplierLedger` | ppms/app/api/ledger.py:75-125 | the same for approved purchases and supplier payments |
| `Reports.BuildSupplierStatement` | ppms/app/services/financial_documents.py:231-251 | one station's part of the supplier balance, as a running balance |
| `Reports.CustomerLineTells` | ppms/app/api/ledger.py:24-62 | the last line of any date shows the unreversed credit sales created by then less the unreversed payments made by then |
| `Reports.SupplierLineTells` | ppms/app/api/ledger.py:82-118 | the same for a supplier, at one station or at all |
| `Reports.CollectSupplierEntries` | ppms/app/services/financial_documents.py:231-246 | which purchases and payments enter a ledger or a statement |
| `Reports.RunBalance` | ppms/app/api/ledger.py:58-62 | each line shows the sum of the entries up to it |
| `Reports.SortByDate` | ppms/app/api/ledger.py:55-56 | sorted by date, nothing lost or added |
| `Reports.SortIsStable` | ppms/app/api/ledger.py:55-56 | entries of one date keep the order they came in |
| `Sums.SumPermutation` | ppms/app/api/ledger.py:55-62 | the final balance is the same whatever order the sort gives |
| `Meters.MeterTelescoping` | ppms/app/services/nozzle_meter.py:32-49 | every run: reading equals first reading plus standing quantities plus adjustment jumps; within a segment likewise; one reading per standing sale |
| `Meters.SegmentRule` | ppms/app/services/nozzle_meter.py:47-49 | every run: a segment's standing sales add up to its movement if and only if no earlier sale was taken back during it |
| `Meters.StandingSalesStack` | ppms/app/services/fuel_sales.py:84-126 | the standing sales of a nozzle chain from first reading to meter at every point of a run if and only if no accepted call sets the meter or takes back a sale with litres in it from under a standing one |
| `Meters.SegmentStack` | ppms/app/services/nozzle_meter.py:32-49 | the same for the current segment, adjustments included: its stack lasts if and only if no accepted call takes back such a sale from under a standing one or from an earlier segment |
| `Meters.SegmentStarts` | ppms/app/services/nozzle_meter.py:47-49 | at the beginning and after every adjustment the segment's stack is in order |
| `Meters.GuardAdmitsTop` | ppms/app/services/fuel_sales.py:162-163 | the reading comparison admits a sale of the segment's stack if and only if no standing sale above it dispensed anything |
| `Meters.BelowTop` | ppms/app/services/fuel_sales.py:162-163 | the same for any gapless chain, which ends at or above every closing reading in it |
| `Meters.Pop` | ppms/app/services/fuel_sales.py:162-175 | reversing an admitted sale keeps the chain if and only if the sale is empty or on top of it |
| `Meters.CalmNozzleStacks` | ppms/app/services/fuel_sales.py:84-163 | without adjustments and zero-litre sales the chain is always there and the comparison admits its top and nothing else |
| `History.RunEvolves` | ppms/app/services/fuel_sales.py:156-186 | every run from every state: records are never lost or rewritten; reversed records, decided purchases and closed shifts are final |
| `History.TakenBackAtMostOnce` | ppms/app/services/payments.py:93-99 | every run: the effects of any record of the four kinds are taken back exactly once if it ends up reversed, else never |
| `History.ApprovalsAreCarriedOut` | ppms/app/services/purchases.py:286-319 | no reachable state holds an approved but unreversed record; without administrator rights a direct reversal always fails |
| `Approvals.ReversalsTellCalls` | ppms/app/services/fuel_sales.py:201-313 | every run, all four kinds: request status, requester, reviewer and reverser are those of the last accepted request, review and reversal of the record |
| `Approvals.PendingAfterRequest` | ppms/app/services/payments.py:117-226 | every run: an unreversed record is pending if and only if the last accepted reversal call about it is a request, rejected if and only if it is a rejection |
| `Approvals.PendingCanBeApproved` | ppms/app/services/fuel_sales.py:241-275 | every run: an authorised approval of a pending record is accepted if and only if meter, tank and balances can bear the reversal - for payments always - and then the record is approved and reversed |
| `Approvals.PurchaseStatus` | ppms/app/services/purchases.py:72-92 | every run: a purchase is approved if and only if an administrator's call or a trip created it or an accepted call approved it, rejected if and only if otherwise one rejected it, else pending |
| `Approvals.PurchaseMoves` | ppms/app/services/purchases.py:63-67 | submitting without administrator rights and rejecting move nothing; otherwise exactly the tank, the supplier and the tanker of the purchase |
| `Trips.TripPosting` | ppms/app/services/tanker_ops.py:245-271 | every run: stored totals equal a recomputation, each completed trip to the station matches one purchase of its totals, no purchase serves two trips |
| `Trips.TripFigures` | ppms/app/services/tanker_ops.py:53-69 | every run: litres, charges and expenses are the rounded sums of their columns, fuel revenue exactly that of the fuel amounts, profit follows; paid, partial and unpaid each if and only if so much is still owed |
| `Trips.CompletionMoves` | ppms/app/services/tanker_ops.py:245-277 | completing puts the deliveries' litres, rounded, into the linked tank and owes their worth to the supplier, or charges each customer their own credit deliveries; nothing else moves |
| `Trips.CompletedTripIsFrozen` | ppms/app/services/tanker_ops.py:206-232 | after completion nothing but expenses and profit can change, and the posting still matches |
| `Trips.TripRounding` | ppms/app/services/tanker_ops.py:170-186 | every run: paid plus outstanding misses stored revenue by at most a cent per delivery |
| `Shifts.ShiftSnapshots` | ppms/app/services/shifts.py:62-75 | every run: one open shift per user and station, no sale joins a closed shift, closed totals are the sales standing then |
| `Shifts.ClosedShiftTellsCalls` | ppms/app/services/shifts.py:62-75 | every run: a closed shift's totals are the worth of the sale calls accepted on it before its closing call and not reversed by then; the cash found and the difference are those of that call |
| `Shifts.ClosedShiftIsFrozen` | ppms/app/services/shifts.py:57-58 | a closed shift never changes again |
| `CreditLimits.OverrideConservation` | ppms/app/services/fuel_sales.py:128-145 | positive limit, no review in between: override left plus all excess charged is what was granted |
| `CreditLimits.ApprovalGrants` | ppms/app/services/customers.py:87-95 | every run from an accepted request to its review: approval is refused exactly if sales meanwhile used an earlier override up, grants the amount asked for if they drew nothing on one, and otherwise grants nothing |
| `CreditLimits.GrantsComeFromCalls` | ppms/app/services/customers.py:87-116 | every run: the request holds what calls made it hold; the override is at most what the last accepted review granted, which is nothing unless it was an approval |
| `CreditLimits.ReviewGrants` | ppms/app/services/customers.py:60-132 | a request sets the amount held, an approval turns it into the override, a rejection makes the override nothing |
| `CreditLimits.BalanceCeiling` | ppms/app/services/fuel_sales.py:128-133 | every run: balance at most limit plus largest override, itself at most the largest amount an accepted approval granted, plus what reversed payments and trips added unchecked |
| `CreditLimits.RequestSurvives` | ppms/app/services/fuel_sales.py:139-145 | an open request keeps its amount if and only if no later sale drew on an earlier override, and stays open if and only if none did or some of that override is left |
| `Tax.TaxRoundTrip` | ppms/app/services/compliance.py:117-131 | splitting an exclusive total again inclusively returns subtotal, difference and total exactly, for any rate from zero up |
| `Tax.PartsWithinACent` | ppms/app/services/compliance.py:123-131 | subtotal plus tax is within a cent of total, any amount, both modes |
| `Tax.PartsAreTaxed` | ppms/app/services/compliance.py:117-131 | no tax without profile, for an exempt one or at rate zero; otherwise each part is, to the nearest cent, the net amount, the rate's share of it, and both together |
| `Tax.PartsAddUp` | ppms/app/services/compliance.py:117-131 | any amount, rate and mode: they add up if and only if rounding takes less than half a cent off both shares together, or just half a cent where the parts make an even number of cents |
| `Tax.WholeCentsAddUp` | ppms/app/services/compliance.py:123-131 | for whole cents that is: no half cent meets an odd amount |
| `Tax.PartsCanMiss` | ppms/app/services/compliance.py:127-131 | one cent at fifty per cent: the parts miss the total |
| `Tax.SmallPartsCanMiss` | ppms/app/services/financial_documents.py:303-303 | an amount below half a cent, as a sale's unrounded total may be, misses without any half cent |
| `DocumentNumbers.CleanedJoinsWords` | ppms/app/services/compliance.py:62-64 | a segment is the capitalised runs of letters and digits joined by single dashes |
| `DocumentNumbers.UpperAt` | ppms/app/services/compliance.py:62-64 | capitalising changes small letters to their capitals and nothing else |
| `DocumentNumbers.NumberIsJoined` | ppms/app/services/compliance.py:102-114 | a number is the words of prefix (or DOC), series and code and the zero-filled id, joined by dashes; six digits unless the profile says otherwise |
| `DocumentNumbers.NormalizeIdempotent` | ppms/app/services/compliance.py:62-64 | the result is clean and normalising it again changes nothing |
| `DocumentNumbers.PaddedId` | ppms/app/services/compliance.py:114-114 | padded to any width, the digits still read as the id |
| `DocumentNumbers.SuffixIsSegment` | ppms/app/services/compliance.py:108-114 | normalising a numbered suffix keeps its padding and dash |
| `DocumentNumbers.DocumentNumbersInjective` | ppms/app/services/compliance.py:102-114 | one prefix and series: equal numbers only for equal code segments and ids, whatever the widths |
| `DocumentNumbers.CodesInUseDiffer` | ppms/app/services/financial_documents.py:58-309 | the five document codes, at lines 58, 114, 182, 253 and 309, stay apart after normalising |
| `Payroll.StaffOffice.CheckIn` | ppms/app/services/attendance.py:37-72 | refused if the day is already recorded; keeps one record a day |
| `Payroll.StaffOffice.CreateRecord` | ppms/app/services/attendance.py:97-130 | all checks in order; keeps one record a day |
| `Payroll.StaffOffice.UpdateRecord` | ppms/app/services/attendance.py:133-153 | changes a status, never whose day it is |
| `Payroll.StaffOffice.WorkOutLine` | ppms/app/services/payroll.py:76-104 | a line from the counted attendance of the period |
| `Payroll.StaffOffice.WorkOutRun` | ppms/app/services/payroll.py:71-118 | one line per eligible user, totals accumulated and rounded |
| `Payroll.StaffOffice.CreatePayrollRun` | ppms/app/services/payroll.py:33-131 | refuses a second run of a station and period; keeps the office's invariant that stored runs differ in station or period and that the paid and absent days of each stored line make up its run's period, whatever attendance is edited later |
| `Payroll.StaffOffice.FinalizeRun` | ppms/app/services/payroll.py:134-154 | a draft is finalized once, and all runs keep their lines and stay distinct |
| `Payroll.PaidDaysFit` | ppms/app/services/payroll.py:90-91 | pigeonhole: with one record a day, paid days never exceed the period |
| `Payroll.DayPartition` | ppms/app/services/payroll.py:87-91 | paid plus absent days is the period exactly, the clamp never bites |
| `Payroll.LineFigures` | ppms/app/services/payroll.py:87-95 | days are counted by status; gross is a thirtieth of the salary per paid day, deductions the same per absent day beyond leave, each to the cent; net is what is left, if anything |
| `Payroll.EveryoneOnce` | ppms/app/services/payroll.py:49-57 | one line for each active user of the station on the payroll, and for nobody else |
| `Payroll.RunPartition` | ppms/app/services/payroll.py:76-91 | the same for every line of a run |
| `Payroll.PayBounds` | ppms/app/services/payroll.py:92-95 | salary not negative: nothing below zero, net at most gross, gross at most full pay for the period |
| `Payroll.RunTotals` | ppms/app/services/payroll.py:111-118 | run totals are the sums of the lines, gross within half a cent per employee of the exact figure |
| `Payroll.RunIsBalanced` | ppms/app/services/payroll.py:71-118 | with one attendance record a day every run that is worked out has the day partition and its lines' totals |
| `DeliveryQueue.Queue.Process` | ppms/app/services/notifications.py:146-178 | one attempt, column by column, for every outcome |
| `DeliveryQueue.Queue.Enqueue` | ppms/app/services/notifications.py:99-112 | each new delivery is attempted at once |
| `DeliveryQueue.Queue.ProcessDue` | ppms/app/services/notifications.py:372-389 | exactly the due deliveries with the lowest ids, up to the limit, each once |
| `DeliveryQueue.Queue.Retry` | ppms/app/services/notifications.py:359-369 | only failed or retrying deliveries, whatever their attempts |
| `DeliveryQueue.DueFrom` | ppms/app/services/notifications.py:374-383 | in id order, all of them if fewer than the limit, never a later before an earlier one |
| `DeliveryQueue.AttemptIsSound` | ppms/app/services/delivery_queue.py:9-15 | a retrying delivery has one or two attempts and a retry time at most ten minutes away, a finished one its stamp |
| `DeliveryQueue.AttemptOutcome` | ppms/app/services/notifications.py:146-178 | sent is delivered, unconfigured is skipped, a failure waits five minutes, then ten, then is final |
| `DeliveryQueue.FirstAttempt` | ppms/app/services/notifications.py:99-112 | a new delivery's first attempt, for every outcome |
| `DeliveryQueue.BackoffKept` | ppms/app/services/delivery_queue.py:5-15 | every run: a delivery to be retried waits five or ten minutes from its last attempt |
| `DeliveryQueue.NoEarlyAttempt` | ppms/app/services/notifications.py:374-383 | every run: a batch takes no delivery before its backoff is over |
| `DeliveryQueue.AtMostThreeAttempts` | ppms/app/services/delivery_queue.py:5-15 | every run, manual retries included: at most three automatic attempts per delivery |
| `DeliveryQueue.BatchProgress` | ppms/app/services/notifications.py:384-388 | the sum of attempts left falls by at least one per delivery processed |
| `DeliveryQueue.WaitingIsBounded` | ppms/app/services/notifications.py:359-389 | rounds of any size ten minutes apart, with arrivals and user retries in between: at most three per delivery and three per retry find any of the deliveries still waiting |
| `DeliveryQueue.QueueDrains` | ppms/app/services/notifications.py:372-389 | whatever users retried before, three such rounds per delivery without further retries leave none of them waiting, whatever arrives meanwhile |
| `PointOfSale.Till.CreateSale` | ppms/app/services/pos.py:64-119 | checks all lines first, then lowers stock line by line |
| `PointOfSale.Till.CollectItems` | ppms/app/services/pos.py:71-92 | the first faulty line decides; otherwise priced items and their total |
| `PointOfSale.Till.ReverseSale` | ppms/app/services/pos.py:122-139 | gives every line's quantity back, once |
| `PointOfSale.SellAndTakeBack` | ppms/app/services/pos.py:103-131 | reversing restores every stock, repeated products included |
| `PointOfSale.SaleBooksLines` | ppms/app/services/pos.py:64-114 | accepted if and only if every line can be sold by itself; each line is booked at quantity times the product's price, the total is what the lines cost |
| `PointOfSale.StockStaysNonNegative` | ppms/app/services/pos.py:85-86 | stock falls by what the request's lines ask for together and stays non-negative if and only if that is no more than there is; distinct products always do |
| `PointOfSale.BookedAsAsked` | ppms/app/services/pos.py:71-92 | what is booked of a product is what the lines ask for |
| `PointOfSale.TwinLinesOverdraw` | ppms/app/services/pos.py:85-86 | two lines of one product are both taken from its stock, which goes negative if and only if it is less than both |
| `PointOfSale.TwinLinesAccepted` | ppms/app/services/pos.py:85-86 | two lines of three pass against a stock of five and leave it at minus one |
| `PointOfSale.StockConservation` | ppms/app/services/pos.py:103-131 | every run: stock is what it was less everything in sales that stand |

## Left out

- Rows are values in the session's tables, not objects; two references to one row are two uses of its id, so identity-map aliasing is by id.
- Creating or editing tanks, nozzles, customers, suppliers and tankers: they exist from the start, with fixed links, capacities and credit limits.
- Ids start at zero and are positions; that the services treat id zero as missing is not modelled, because their ids start at one.
- Authorisation, organisation scope and module switches are input booleans of a call; concurrent requests are not modelled.
- Floating-point error: all arithmetic is exact, with explicit rounding to cents.
- Reasons, notes, free texts and most timestamps of records; the audit log and notifications sent by a call.
- The date and station filters of the stock movement report, and the other reports.
- Characters beyond ASCII in document segments, and negative ids.
- Email, SMS and WhatsApp providers: a delivery attempt's outcome and clock are inputs.
- Check-out of attendance, edits and deletions of point-of-sale products, document dispatch batches, rendering.
- DeliveryQueue.QueueDrains: assumes the batches are run, each ten minutes after all attempts and retries up to the one before it; the scheduler that runs them is not modelled.
