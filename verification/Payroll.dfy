/** Attendance and the payroll worked out from it. */
module Payroll {
  import opened Money
  import opened Sums
  import opened Rows

  datatype DayStatus = Present | Absent | Leave | HalfDay | OtherStatus(name: string)

  datatype Attendance = Attendance(userId: Id, stationId: Id, day: int, status: DayStatus)

  datatype User = User(stationId: Option<Id>, isActive: bool, payrollEnabled: bool, monthlySalary: real)

  datatype PayrollLine = PayrollLine(
    userId: Id, presentDays: int, leaveDays: int, absentDays: int, payableDays: int,
    monthlySalary: real, gross: real, deductions: real, net: real)

  datatype RunStatus = Draft | Finalized

  datatype PayrollRun = PayrollRun(
    stationId: Id, periodStart: int, periodEnd: int, status: RunStatus,
    totalStaff: int, totalGross: real, totalDeductions: real, totalNet: real, lines: seq<PayrollLine>)

  datatype StaffFault =
    | NotAuthorised | AlreadyRecorded | InvalidStatus | UserNotFound | UserElsewhere | RecordNotFound
    | PeriodBackwards | RunExists | RunNotFound | AlreadyFinalized

  // ---------------------------------------------------------------- attendance

  predicate SameDay(a: Attendance, userId: Id, stationId: Id, day: int) {
    a.userId == userId && a.stationId == stationId && a.day == day
  }

  predicate Recorded(records: seq<Attendance>, userId: Id, stationId: Id, day: int) {
    exists i :: 0 <= i < |records| && SameDay(records[i], userId, stationId, day)
  }

  /** At most one record per user, station and day. */
  ghost predicate OnePerDay(records: seq<Attendance>) {
    forall i, j :: 0 <= i < j < |records| ==>
      !SameDay(records[i], records[j].userId, records[j].stationId, records[j].day)
  }

  // ---------------------------------------------------------------- days

  /** How many records a period, a user and a set of statuses pick out. */
  function Days(records: seq<Attendance>, userId: Id, stationId: Id, from: int, to: int, pick: DayStatus -> bool): nat {
    if records == [] then 0
    else
      var a := records[|records| - 1];
      Days(records[..|records| - 1], userId, stationId, from, to, pick)
      + if a.userId == userId && a.stationId == stationId && from <= a.day <= to && pick(a.status) then 1 else 0
  }

  predicate IsPresent(s: DayStatus) { s.Present? }
  predicate IsLeave(s: DayStatus) { s.Leave? }
  predicate IsHalf(s: DayStatus) { s.HalfDay? }
  predicate Paid(s: DayStatus) { s.Present? || s.Leave? || s.HalfDay? }

  lemma {:induction false} PaidDays(records: seq<Attendance>, u: Id, st: Id, from: int, to: int)
    ensures Days(records, u, st, from, to, Paid) ==
      Days(records, u, st, from, to, IsPresent) + Days(records, u, st, from, to, IsLeave)
        + Days(records, u, st, from, to, IsHalf)
  {
    if records != [] {
      PaidDays(records[..|records| - 1], u, st, from, to);
    }
  }

  /** Nothing recorded on a day counts for nothing. */
  lemma {:induction false} NoDays(records: seq<Attendance>, u: Id, st: Id, day: int)
    requires forall i :: 0 <= i < |records| ==> !SameDay(records[i], u, st, day)
    ensures Days(records, u, st, day, day, Paid) == 0
  {
    if records != [] {
      NoDays(records[..|records| - 1], u, st, day);
    }
  }

  lemma {:induction false} AtMostOneDay(records: seq<Attendance>, u: Id, st: Id, day: int)
    requires OnePerDay(records)
    ensures Days(records, u, st, day, day, Paid) <= 1
  {
    if records != [] {
      var last := |records| - 1;
      if SameDay(records[last], u, st, day) {
        NoDays(records[..last], u, st, day);
      } else {
        AtMostOneDay(records[..last], u, st, day);
      }
    }
  }

  lemma {:induction false} LastDayApart(records: seq<Attendance>, u: Id, st: Id, from: int, to: int)
    requires from <= to
    ensures Days(records, u, st, from, to, Paid)
      == Days(records, u, st, from, to - 1, Paid) + Days(records, u, st, to, to, Paid)
  {
    if records != [] {
      LastDayApart(records[..|records| - 1], u, st, from, to);
    }
  }

  lemma {:induction false} NoPeriod(records: seq<Attendance>, u: Id, st: Id, from: int)
    ensures Days(records, u, st, from, from - 1, Paid) == 0
  {
    if records != [] {
      NoPeriod(records[..|records| - 1], u, st, from);
    }
  }

  /** Pigeonhole: with one record a day, no one is paid for more days than the period has. */
  lemma {:induction false} PaidDaysFit(records: seq<Attendance>, u: Id, st: Id, from: int, to: int)
    requires OnePerDay(records) && from <= to + 1
    ensures Days(records, u, st, from, to, Paid) <= DateCount(from, to)
    decreases 1 + to - from
  {
    if from == to + 1 {
      NoPeriod(records, u, st, from);
    } else {
      LastDayApart(records, u, st, from, to);
      AtMostOneDay(records, u, st, to);
      PaidDaysFit(records, u, st, from, to - 1);
    }
  }

  function DateCount(from: int, to: int): int { to - from + 1 }

  // ---------------------------------------------------------------- pay

  function MaxInt(x: int, y: int): int { if x >= y then x else y }

  /** Pay for a number of days, at a thirtieth of the monthly salary a day. */
  function Pay(salary: real, days: real): real { (salary / 30.0) * days }

  function PaidShare(present: int, leave: int, half: int): real {
    (present + leave) as real + half as real * 0.5
  }

  function NetOf(gross: real, deductions: real): real {
    if RoundCents(gross - deductions) >= 0.0 then RoundCents(gross - deductions) else 0.0
  }

  function LineFor(records: seq<Attendance>, users: seq<User>, u: Id, st: Id, from: int, to: int): PayrollLine
    requires u < |users|
  {
    var present := Days(records, u, st, from, to, IsPresent);
    var leave := Days(records, u, st, from, to, IsLeave);
    var half := Days(records, u, st, from, to, IsHalf);
    var absent := MaxInt(DateCount(from, to) - (present + leave + half), 0);
    var salary := RoundCents(users[u].monthlySalary);
    var gross := RoundCents(Pay(salary, PaidShare(present, leave, half)));
    var deductions := if salary != 0.0 then RoundCents(Pay(salary, MaxInt(absent - leave, 0) as real)) else 0.0;
    PayrollLine(u, present, leave, absent, present + leave + half, salary, gross, deductions, NetOf(gross, deductions))
  }

  predicate OnPayroll(user: User, st: Id) {
    user.stationId == Some(st) && user.isActive && user.payrollEnabled
  }

  /** One line per user on the station's payroll, in id order. */
  function Lines(records: seq<Attendance>, users: seq<User>, n: nat, st: Id, from: int, to: int): (ls: seq<PayrollLine>)
    requires n <= |users|
  {
    if n == 0 then []
    else
      Lines(records, users, n - 1, st, from, to)
      + if OnPayroll(users[n - 1], st) then [LineFor(records, users, n - 1, st, from, to)] else []
  }

  function GrossOf(): PayrollLine -> real { (l: PayrollLine) => l.gross }
  function DeductionsOf(): PayrollLine -> real { (l: PayrollLine) => l.deductions }
  function NetPayOf(): PayrollLine -> real { (l: PayrollLine) => l.net }

  function RunOf(records: seq<Attendance>, users: seq<User>, st: Id, from: int, to: int): PayrollRun {
    var ls := Lines(records, users, |users|, st, from, to);
    PayrollRun(st, from, to, Draft, |ls|, RoundCents(Sum(ls, GrossOf())), RoundCents(Sum(ls, DeductionsOf())),
               RoundCents(Sum(ls, NetPayOf())), ls)
  }

  predicate RunFor(run: PayrollRun, st: Id, from: int, to: int) {
    run.stationId == st && run.periodStart == from && run.periodEnd == to
  }

  /** At most one run per station and period. */
  ghost predicate OneRunPerPeriod(runs: seq<PayrollRun>) {
    forall i, j :: 0 <= i < j < |runs| ==> !RunFor(runs[i], runs[j].stationId, runs[j].periodStart, runs[j].periodEnd)
  }

  /** Paid and absent days of each line make up the run's period, and its totals are its lines'. */
  ghost predicate Balanced(run: PayrollRun) {
    && run.periodStart <= run.periodEnd && run.totalStaff == |run.lines|
    && (forall i :: 0 <= i < |run.lines| ==>
          && run.lines[i].payableDays + run.lines[i].absentDays == DateCount(run.periodStart, run.periodEnd)
          && run.lines[i].payableDays >= 0 && run.lines[i].absentDays >= 0)
    && run.totalGross == Sum(run.lines, GrossOf())
    && run.totalDeductions == Sum(run.lines, DeductionsOf())
    && run.totalNet == Sum(run.lines, NetPayOf())
  }

  ghost predicate AllBalanced(runs: seq<PayrollRun>) {
    forall k :: 0 <= k < |runs| ==> Balanced(runs[k])
  }

  lemma RunAdded(runs: seq<PayrollRun>, run: PayrollRun)
    requires OneRunPerPeriod(runs) && AllBalanced(runs) && Balanced(run)
    requires forall k :: 0 <= k < |runs| ==> !RunFor(runs[k], run.stationId, run.periodStart, run.periodEnd)
    ensures OneRunPerPeriod(runs + [run]) && AllBalanced(runs + [run])
  {
  }

  // ---------------------------------------------------------------- the service

  class StaffOffice {
    var users: seq<User>
    var records: seq<Attendance>
    var runs: seq<PayrollRun>

    ghost predicate Valid()
      reads this
    {
      && OnePerDay(records) && OneRunPerPeriod(runs)
      && AllBalanced(runs)
    }

    constructor (staff: seq<User>)
      ensures Valid() && users == staff && records == [] && runs == []
    {
      users, records, runs := staff, [], [];
    }

    method FindRecord(userId: Id, stationId: Id, day: int) returns (found: bool)
      ensures found <==> Recorded(records, userId, stationId, day)
    {
      for i := 0 to |records|
        invariant forall k :: 0 <= k < i ==> !SameDay(records[k], userId, stationId, day)
      {
        if SameDay(records[i], userId, stationId, day) { return true; }
      }
      return false;
    }

    method CheckIn(userId: Id, stationId: Id, authorised: bool, today: int) returns (r: Option<StaffFault>)
      requires Valid()
      modifies this`records
      ensures Valid()
      ensures r == if !authorised then Some(NotAuthorised)
                   else if Recorded(old(records), userId, stationId, today) then Some(AlreadyRecorded) else None
      ensures records == old(records) + if r.None? then [Attendance(userId, stationId, today, Present)] else []
    {
      if !authorised { return Some(NotAuthorised); }
      var found := FindRecord(userId, stationId, today);
      if found { return Some(AlreadyRecorded); }
      records := records + [Attendance(userId, stationId, today, Present)];
      return None;
    }

    method CreateRecord(a: Attendance, authorised: bool) returns (r: Option<StaffFault>)
      requires Valid()
      modifies this`records
      ensures Valid()
      ensures r == if !authorised then Some(NotAuthorised)
                   else if a.status.OtherStatus? then Some(InvalidStatus)
                   else if a.userId >= |users| then Some(UserNotFound)
                   else if users[a.userId].stationId != Some(a.stationId) then Some(UserElsewhere)
                   else if Recorded(old(records), a.userId, a.stationId, a.day) then Some(AlreadyRecorded) else None
      ensures records == old(records) + if r.None? then [a] else []
    {
      if !authorised { return Some(NotAuthorised); }
      if a.status.OtherStatus? { return Some(InvalidStatus); }
      if a.userId >= |users| { return Some(UserNotFound); }
      if users[a.userId].stationId != Some(a.stationId) { return Some(UserElsewhere); }
      var found := FindRecord(a.userId, a.stationId, a.day);
      if found { return Some(AlreadyRecorded); }
      records := records + [a];
      return None;
    }

    /** An update may change the status, never whose day it is. */
    method UpdateRecord(i: Id, status: Option<DayStatus>, authorised: bool) returns (r: Option<StaffFault>)
      requires Valid()
      modifies this`records
      ensures Valid()
      ensures r == if i >= |old(records)| then Some(RecordNotFound)
                   else if !authorised then Some(NotAuthorised)
                   else if status.Some? && status.value.OtherStatus? then Some(InvalidStatus) else None
      ensures records == if r.None? && status.Some? then old(records)[i := old(records)[i].(status := status.value)]
        else old(records)
    {
      if i >= |records| { return Some(RecordNotFound); }
      if !authorised { return Some(NotAuthorised); }
      if status.Some? {
        if status.value.OtherStatus? { return Some(InvalidStatus); }
        records := records[i := records[i].(status := status.value)];
      }
      return None;
    }

    /** One user's line, from the attendance in the period. */
    method WorkOutLine(u: Id, st: Id, from: int, to: int) returns (line: PayrollLine)
      requires u < |users|
      ensures line == LineFor(records, users, u, st, from, to)
    {
      var present, leave, half := 0, 0, 0;
      for i := 0 to |records|
        invariant present == Days(records[..i], u, st, from, to, IsPresent)
        invariant leave == Days(records[..i], u, st, from, to, IsLeave)
        invariant half == Days(records[..i], u, st, from, to, IsHalf)
      {
        assert records[..i + 1][..i] == records[..i];
        var a := records[i];
        if a.userId == u && a.stationId == st && from <= a.day <= to {
          match a.status {
            case Present => present := present + 1;
            case Leave => leave := leave + 1;
            case HalfDay => half := half + 1;
            case _ =>
          }
        }
      }
      assert records[..|records|] == records;
      var payable := present + leave + half;
      var absent := MaxInt(DateCount(from, to) - payable, 0);
      var salary := RoundCents(users[u].monthlySalary);
      var gross := RoundCents(Pay(salary, PaidShare(present, leave, half)));
      var deductions := 0.0;
      if salary != 0.0 {
        deductions := RoundCents(Pay(salary, MaxInt(absent - leave, 0) as real));
      }
      return PayrollLine(u, present, leave, absent, payable, salary, gross, deductions, NetOf(gross, deductions));
    }

    method FindRun(st: Id, from: int, to: int) returns (found: bool)
      ensures found <==> exists k :: 0 <= k < |runs| && RunFor(runs[k], st, from, to)
    {
      for k := 0 to |runs|
        invariant forall j :: 0 <= j < k ==> !RunFor(runs[j], st, from, to)
      {
        if RunFor(runs[k], st, from, to) { return true; }
      }
      return false;
    }

    method WorkOutRun(st: Id, from: int, to: int) returns (run: PayrollRun)
      requires Valid() && from <= to
      ensures run == RunOf(records, users, st, from, to) && RunFor(run, st, from, to) && Balanced(run)
    {
      var lines: seq<PayrollLine> := [];
      var gross, deductions, net, staff := 0.0, 0.0, 0.0, 0;
      for u := 0 to |users|
        invariant lines == Lines(records, users, u, st, from, to) && staff == |lines|
        invariant gross == Sum(lines, GrossOf()) && deductions == Sum(lines, DeductionsOf())
          && net == Sum(lines, NetPayOf())
      {
        if OnPayroll(users[u], st) {
          var line := WorkOutLine(u, st, from, to);
          SumsAppend(lines, line);
          lines := lines + [line];
          staff := staff + 1;
          gross, deductions, net := gross + line.gross, deductions + line.deductions, net + line.net;
        }
      }
      RunIsBalanced(records, users, st, from, to);
      return PayrollRun(st, from, to, Draft, staff, RoundCents(gross), RoundCents(deductions), RoundCents(net), lines);
    }

    method CreatePayrollRun(st: Id, from: int, to: int, authorised: bool) returns (r: Option<StaffFault>)
      requires Valid()
      modifies this`runs
      ensures Valid()
      ensures r == if !authorised then Some(NotAuthorised)
                   else if to < from then Some(PeriodBackwards)
                   else if exists k :: 0 <= k < |old(runs)| && RunFor(old(runs)[k], st, from, to) then Some(RunExists)
                     else None
      ensures runs == old(runs) + if r.None? then [RunOf(records, users, st, from, to)] else []
    {
      if !authorised { return Some(NotAuthorised); }
      if to < from { return Some(PeriodBackwards); }
      var found := FindRun(st, from, to);
      if found { return Some(RunExists); }
      var run := WorkOutRun(st, from, to);
      RunAdded(runs, run);
      runs := runs + [run];
      return None;
    }

    method FinalizeRun(k: Id, authorised: bool) returns (r: Option<StaffFault>)
      requires Valid()
      modifies this`runs
      ensures Valid()
      ensures r == if k >= |old(runs)| then Some(RunNotFound)
                   else if !authorised then Some(NotAuthorised)
                   else if old(runs)[k].status.Finalized? then Some(AlreadyFinalized) else None
      ensures runs == if r.None? then old(runs)[k := old(runs)[k].(status := Finalized)] else old(runs)
    {
      if k >= |runs| { return Some(RunNotFound); }
      if !authorised { return Some(NotAuthorised); }
      if runs[k].status.Finalized? { return Some(AlreadyFinalized); }
      runs := runs[k := runs[k].(status := Finalized)];
      return None;
    }
  }

  // ---------------------------------------------------------------- what a run promises

  /** Paid and absent days make up the period exactly: the clamp at zero never bites. */
  lemma DayPartition(records: seq<Attendance>, users: seq<User>, u: Id, st: Id, from: int, to: int)
    requires OnePerDay(records) && u < |users| && from <= to
    ensures var l := LineFor(records, users, u, st, from, to);
      l.payableDays + l.absentDays == DateCount(from, to) && l.absentDays >= 0
        && l.payableDays >= l.presentDays + l.leaveDays
  {
    PaidDays(records, u, st, from, to);
    PaidDaysFit(records, u, st, from, to);
  }

  /** So it is for every line of a payroll run. */
  lemma {:induction false} RunPartition(records: seq<Attendance>, users: seq<User>, n: nat, st: Id, from: int, to: int)
    requires OnePerDay(records) && n <= |users| && from <= to
    ensures forall i :: 0 <= i < |Lines(records, users, n, st, from, to)| ==>
      var l := Lines(records, users, n, st, from, to)[i];
      && l.payableDays + l.absentDays == DateCount(from, to) && l.payableDays >= 0 && l.absentDays >= 0
  {
    if n > 0 {
      RunPartition(records, users, n - 1, st, from, to);
      DayPartition(records, users, n - 1, st, from, to);
    }
  }

  lemma PayGrows(salary: real, x: real, y: real)
    requires salary >= 0.0 && 0.0 <= x <= y
    ensures 0.0 <= Pay(salary, x) <= Pay(salary, y)
  {
    var rate := salary / 30.0;
    assert rate * (y - x) >= 0.0;
  }

  lemma NetBetween(gross: real, deductions: real)
    requires gross >= 0.0 && deductions >= 0.0 && WholeCents(gross)
    ensures 0.0 <= NetOf(gross, deductions) <= gross
  {
    RoundMonotone(gross - deductions, gross);
    RoundKeepsWholeCents(gross);
  }

  /** For a salary that is not negative: nobody is paid less than nothing, more than gross, or more
      than full pay for the period. */
  lemma PayBounds(records: seq<Attendance>, users: seq<User>, u: Id, st: Id, from: int, to: int)
    requires OnePerDay(records) && u < |users| && from <= to && users[u].monthlySalary >= 0.0
    ensures var l := LineFor(records, users, u, st, from, to);
      0.0 <= l.net <= l.gross <= RoundCents(Pay(l.monthlySalary, DateCount(from, to) as real))
  {
    var l := LineFor(records, users, u, st, from, to);
    DayPartition(records, users, u, st, from, to);
    RoundMonotone(0.0, users[u].monthlySalary);
    var half := Days(records, u, st, from, to, IsHalf);
    GrossBounds(l.monthlySalary, PaidShare(l.presentDays, l.leaveDays, half), DateCount(from, to) as real);
    GrossBounds(l.monthlySalary, MaxInt(l.absentDays - l.leaveDays, 0) as real, DateCount(from, to) as real);
    NetBetween(l.gross, l.deductions);
  }

  lemma GrossBounds(salary: real, days: real, period: real)
    requires salary >= 0.0 && 0.0 <= days <= period
    ensures 0.0 <= RoundCents(Pay(salary, days)) <= RoundCents(Pay(salary, period))
  {
    PayGrows(salary, days, period);
    RoundMonotone(0.0, Pay(salary, days));
    RoundMonotone(Pay(salary, days), Pay(salary, period));
  }

  /** The gross a line would show without rounding. */
  function ExactGross(): PayrollLine -> real {
    (l: PayrollLine) =>
      Pay(l.monthlySalary, PaidShare(l.presentDays, l.leaveDays, l.payableDays - l.presentDays - l.leaveDays))
  }

  predicate InCents(l: PayrollLine) {
    && WholeCents(l.gross) && WholeCents(l.deductions) && WholeCents(l.net)
    && -0.005 <= l.gross - ExactGross()(l) <= 0.005
  }

  lemma LineInCents(records: seq<Attendance>, users: seq<User>, u: Id, st: Id, from: int, to: int)
    requires u < |users|
    ensures InCents(LineFor(records, users, u, st, from, to))
  {
  }

  lemma {:induction false} LinesInCents(records: seq<Attendance>, users: seq<User>, n: nat, st: Id, from: int, to: int)
    requires n <= |users|
    ensures forall i :: 0 <= i < |Lines(records, users, n, st, from, to)| ==>
      InCents(Lines(records, users, n, st, from, to)[i])
  {
    if n > 0 {
      LinesInCents(records, users, n - 1, st, from, to);
      LineInCents(records, users, n - 1, st, from, to);
    }
  }

  lemma {:induction false} LinesAddUp(ls: seq<PayrollLine>)
    requires forall i :: 0 <= i < |ls| ==> InCents(ls[i])
    ensures WholeCents(Sum(ls, GrossOf())) && WholeCents(Sum(ls, DeductionsOf())) && WholeCents(Sum(ls, NetPayOf()))
    ensures -0.005 * |ls| as real <= Sum(ls, GrossOf()) - Sum(ls, ExactGross()) <= 0.005 * |ls| as real
  {
    if ls != [] {
      var before, l := ls[..|ls| - 1], ls[|ls| - 1];
      LinesAddUp(before);
      WholeCentsAdd(Sum(before, GrossOf()), l.gross);
      WholeCentsAdd(Sum(before, DeductionsOf()), l.deductions);
      WholeCentsAdd(Sum(before, NetPayOf()), l.net);
    }
  }

  /** A run's totals are exactly the sums of its lines, and its gross is within half a cent per
      employee of the unrounded figure. */
  lemma RunTotals(records: seq<Attendance>, users: seq<User>, st: Id, from: int, to: int)
    ensures
      var run := RunOf(records, users, st, from, to);
      && run.totalStaff == |run.lines|
      && run.totalGross == Sum(run.lines, GrossOf())
      && run.totalDeductions == Sum(run.lines, DeductionsOf())
      && run.totalNet == Sum(run.lines, NetPayOf())
      && -0.005 * |run.lines| as real <= run.totalGross - Sum(run.lines, ExactGross()) <= 0.005 * |run.lines| as real
  {
    var ls := Lines(records, users, |users|, st, from, to);
    LinesInCents(records, users, |users|, st, from, to);
    LinesAddUp(ls);
    RoundKeepsWholeCents(Sum(ls, GrossOf()));
    RoundKeepsWholeCents(Sum(ls, DeductionsOf()));
    RoundKeepsWholeCents(Sum(ls, NetPayOf()));
  }

  /** With one attendance record a day, every run that is worked out is balanced. */
  lemma RunIsBalanced(records: seq<Attendance>, users: seq<User>, st: Id, from: int, to: int)
    requires OnePerDay(records) && from <= to
    ensures Balanced(RunOf(records, users, st, from, to))
  {
    RunPartition(records, users, |users|, st, from, to);
    RunTotals(records, users, st, from, to);
  }

  // ---------------------------------------------------------------- what a line is made of

  /** The records of a user at a station in the period with a given status. */
  function Having(records: seq<Attendance>, u: Id, st: Id, from: int, to: int, status: DayStatus): set<nat> {
    set i | 0 <= i < |records| && records[i].userId == u && records[i].stationId == st
            && from <= records[i].day <= to && records[i].status == status
  }

  lemma {:induction false} DaysCounted(records: seq<Attendance>, u: Id, st: Id, from: int, to: int,
                                       pick: DayStatus -> bool, status: DayStatus)
    requires forall s :: pick(s) <==> s == status
    ensures Days(records, u, st, from, to, pick) == |Having(records, u, st, from, to, status)|
  {
    if records == [] {
      assert Having(records, u, st, from, to, status) == {};
    } else {
      var last := |records| - 1;
      var rest := Having(records[..last], u, st, from, to, status);
      DaysCounted(records[..last], u, st, from, to, pick, status);
      if last in Having(records, u, st, from, to, status) {
        assert Having(records, u, st, from, to, status) == rest + {last};
      } else {
        assert Having(records, u, st, from, to, status) == rest;
      }
    }
  }

  lemma LineCounts(records: seq<Attendance>, users: seq<User>, u: Id, st: Id, from: int, to: int)
    requires OnePerDay(records) && u < |users| && from <= to
    ensures
      var l := LineFor(records, users, u, st, from, to);
      && l.presentDays == |Having(records, u, st, from, to, Present)|
      && l.leaveDays == |Having(records, u, st, from, to, Leave)|
      && l.payableDays == l.presentDays + l.leaveDays + |Having(records, u, st, from, to, HalfDay)|
      && l.absentDays == DateCount(from, to) - l.payableDays
  {
    DaysCounted(records, u, st, from, to, IsPresent, Present);
    DaysCounted(records, u, st, from, to, IsLeave, Leave);
    DaysCounted(records, u, st, from, to, IsHalf, HalfDay);
    DayPartition(records, users, u, st, from, to);
  }

  /** A paid day earns a thirtieth of the monthly salary, half a day half of it. */
  predicate EarnedFor(gross: real, salary: real, paid: int, half: int) {
    NearestCent(gross, (salary / 30.0) * (paid as real + half as real * 0.5))
  }

  /** An absent day costs a thirtieth too, except that leave days are set against absent ones. */
  predicate DeductedFor(deductions: real, salary: real, absent: int, leave: int) {
    && WholeCents(deductions)
    && if absent > leave then NearestCent(deductions, (salary / 30.0) * (absent - leave) as real) else deductions == 0.0
  }

  /** The net is what is left, if anything. */
  predicate PaidAsWorked(l: PayrollLine, half: int) {
    && EarnedFor(l.gross, l.monthlySalary, l.presentDays + l.leaveDays, half)
    && DeductedFor(l.deductions, l.monthlySalary, l.absentDays, l.leaveDays)
    && l.net == if l.gross >= l.deductions then l.gross - l.deductions else 0.0
  }

  lemma NoPay(salary: real)
    ensures RoundCents(Pay(salary, 0.0)) == 0.0
  {
    RoundKeepsWholeCents(0.0);
  }

  lemma NoSalary(days: real)
    ensures Pay(0.0, days) == 0.0
  {
  }

  lemma NetIsRest(gross: real, deductions: real)
    requires WholeCents(gross) && WholeCents(deductions)
    ensures NetOf(gross, deductions) == if gross >= deductions then gross - deductions else 0.0
  {
    WholeCentsAdd(gross, deductions);
    RoundKeepsWholeCents(gross - deductions);
  }

  lemma GrossEarned(salary: real, present: int, leave: int, half: int)
    ensures EarnedFor(RoundCents(Pay(salary, PaidShare(present, leave, half))), salary, present + leave, half)
  {
  }

  lemma DaysDeducted(salary: real, absent: int, leave: int)
    requires absent >= 0 && leave >= 0
    ensures DeductedFor(if salary != 0.0 then RoundCents(Pay(salary, MaxInt(absent - leave, 0) as real)) else 0.0,
                        salary, absent, leave)
  {
    NoPay(salary);
    NoSalary((absent - leave) as real);
  }

  lemma LineIsPaid(records: seq<Attendance>, users: seq<User>, u: Id, st: Id, from: int, to: int)
    requires u < |users|
    ensures PaidAsWorked(LineFor(records, users, u, st, from, to), Days(records, u, st, from, to, IsHalf))
  {
    var l := LineFor(records, users, u, st, from, to);
    GrossEarned(l.monthlySalary, l.presentDays, l.leaveDays, Days(records, u, st, from, to, IsHalf));
    DaysDeducted(l.monthlySalary, l.absentDays, l.leaveDays);
    NetIsRest(l.gross, l.deductions);
  }

  /** A line counts the user's records of the period by status, and pays for them. */
  lemma LineFigures(records: seq<Attendance>, users: seq<User>, u: Id, st: Id, from: int, to: int)
    requires OnePerDay(records) && u < |users| && from <= to
    ensures
      var l := LineFor(records, users, u, st, from, to);
      && l.userId == u && NearestCent(l.monthlySalary, users[u].monthlySalary)
      && l.presentDays == |Having(records, u, st, from, to, Present)|
      && l.leaveDays == |Having(records, u, st, from, to, Leave)|
      && l.payableDays == l.presentDays + l.leaveDays + |Having(records, u, st, from, to, HalfDay)|
      && l.absentDays == DateCount(from, to) - l.payableDays
      && PaidAsWorked(l, |Having(records, u, st, from, to, HalfDay)|)
  {
    LineCounts(records, users, u, st, from, to);
    DaysCounted(records, u, st, from, to, IsHalf, HalfDay);
    LineIsPaid(records, users, u, st, from, to);
  }

  /** The lines of a run are those of the station's active users on the payroll, each once, in order. */
  lemma {:induction false} EveryoneOnce(records: seq<Attendance>, users: seq<User>, n: nat, st: Id, from: int, to: int)
    requires n <= |users|
    ensures
      var ls := Lines(records, users, n, st, from, to);
      && (forall i :: 0 <= i < |ls| ==>
        ls[i].userId < n && ls[i] == LineFor(records, users, ls[i].userId, st, from, to))
      && (forall i, j :: 0 <= i < j < |ls| ==> ls[i].userId < ls[j].userId)
      && (forall u :: 0 <= u < n ==>
            ((exists i :: 0 <= i < |ls| && ls[i].userId == u)
             <==> users[u].stationId == Some(st) && users[u].isActive && users[u].payrollEnabled))
  {
    if n > 0 {
      var before, ls := Lines(records, users, n - 1, st, from, to), Lines(records, users, n, st, from, to);
      EveryoneOnce(records, users, n - 1, st, from, to);
      assert forall i :: 0 <= i < |before| ==> ls[i] == before[i];
      if OnPayroll(users[n - 1], st) {
        assert ls[|before|].userId == n - 1;
      }
    }
  }
}
