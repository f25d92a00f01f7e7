/**
  The time-off extension of hr_timeoff_late_block_v18 (models/hr_leave.py): a request whose start
  date lies more days in the past than the company allows is refused when it is created, written,
  submitted or confirmed. Dates are day numbers; `today` is `fields.Date.context_today`.
*/
module HrLeave {
  import opened Common
  import opened ResCompany

  /** A datetime as its day and the second within that day; `.date()` is the day. */
  datatype DateTime = DateTime(day: int, second: nat)

  /** An `hr.leave` as the policy reads it: the employee's company and the two start fields. */
  datatype Leave = Leave(id: int, name: string, employeeCompany: Option<Company>,
                         requestDateFrom: Option<int>, dateFrom: Option<DateTime>)

  /** The contents of the ValidationError: the leave, its start, today, the threshold and the lateness. */
  datatype LateError = LateError(leave: int, start: int, today: int, threshold: nat, late: int)

  /** What a guarded call gives: the value of the call, or the error that blocked it. */
  datatype Guarded<+T> = Done(value: T) | Blocked(error: LateError)

  /** `leave.employee_id.company_id or self.env.company`. */
  function PolicyCompany(l: Leave, envCompany: Company): (c: Company)
    ensures l.employeeCompany.Some? ==> c == l.employeeCompany.value
    ensures l.employeeCompany.None? ==> c == envCompany
  {
    if l.employeeCompany.Some? then l.employeeCompany.value else envCompany
  }

  /** `max(int(company.late_timeoff_threshold_days or 0), 0)`: an unset or negative threshold is 0. */
  function Threshold(c: Company): (t: nat)
    ensures c.thresholdDays.Some? && c.thresholdDays.value >= 0 ==> t == c.thresholdDays.value
    ensures c.thresholdDays.None? || c.thresholdDays.value < 0 ==> t == 0
  {
    var days := if c.thresholdDays.Some? then c.thresholdDays.value else 0;
    if days > 0 then days else 0
  }

  /** `leave.request_date_from or (leave.date_from and leave.date_from.date())`. */
  function StartDate(l: Leave): (d: Option<int>)
    ensures l.requestDateFrom.Some? ==> d == l.requestDateFrom
    ensures l.requestDateFrom.None? && l.dateFrom.Some? ==> d == Some(l.dateFrom.value.day)
    ensures d.None? <==> l.requestDateFrom.None? && l.dateFrom.None?
  {
    if l.requestDateFrom.Some? then l.requestDateFrom
    else if l.dateFrom.Some? then Some(l.dateFrom.value.day)
    else None
  }

  /**
    One leave of `_check_late_submission_policy`: it is late exactly when its company blocks late
    submissions, it has a start date and today is more than the threshold days after that date.
  */
  function Late(l: Leave, envCompany: Company, today: int): (r: Option<LateError>)
    ensures r.Some? <==> && PolicyCompany(l, envCompany).restrictLate
                         && StartDate(l).Some?
                         && today - StartDate(l).value > Threshold(PolicyCompany(l, envCompany))
    ensures r.Some? ==> r.value == LateError(l.id, StartDate(l).value, today, Threshold(PolicyCompany(l, envCompany)),
                                             today - StartDate(l).value)
  {
    var company := PolicyCompany(l, envCompany);
    if !company.restrictLate then None
    else
      var threshold := Threshold(company);
      var start := StartDate(l);
      if start.None? then None
      else if today - start.value > threshold then
        Some(LateError(l.id, start.value, today, threshold, today - start.value))
      else None
  }

  /** `_check_late_submission_policy` over a recordset: it raises for the first late leave. */
  function CheckLateSubmission(leaves: seq<Leave>, envCompany: Company, today: int): (r: Outcome<LateError>)
    ensures r.Fail? <==> exists i :: 0 <= i < |leaves| && Late(leaves[i], envCompany, today).Some?
    ensures r.Fail? ==> exists i :: && 0 <= i < |leaves| && Late(leaves[i], envCompany, today) == Some(r.error)
                                    && forall j :: 0 <= j < i ==> Late(leaves[j], envCompany, today).None?
    decreases |leaves|
  {
    if leaves == [] then Pass
    else
      var first := Late(leaves[0], envCompany, today);
      if first.Some? then Fail(first.value)
      else
        var rest := CheckLateSubmission(leaves[1..], envCompany, today);
        assert forall i :: 1 <= i < |leaves| ==> leaves[i] == leaves[1..][i - 1];
        rest
  }

  /** `create`: the created records are checked after `super().create`; the call fails if one is late. */
  function Create(records: seq<Leave>, envCompany: Company, today: int): (r: Guarded<seq<Leave>>)
    ensures r.Blocked? <==> exists i :: 0 <= i < |records| && Late(records[i], envCompany, today).Some?
    ensures r.Blocked? ==> CheckLateSubmission(records, envCompany, today) == Fail(r.error)
    ensures r.Done? ==> r.value == records
  {
    match CheckLateSubmission(records, envCompany, today)
    case Fail(e) => Blocked(e)
    case Pass => Done(records)
  }

  /** `write`: the records are checked after `super().write(vals)`, so with their new values `update(l)`. */
  function Write(records: seq<Leave>, update: Leave -> Leave, superResult: bool, envCompany: Company, today: int): (r: Guarded<bool>)
    ensures r.Blocked? <==> exists i :: 0 <= i < |records| && Late(update(records[i]), envCompany, today).Some?
    ensures r.Done? ==> r.value == superResult
  {
    var written := seq(|records|, i requires 0 <= i < |records| => update(records[i]));
    assert forall i :: 0 <= i < |records| ==> written[i] == update(records[i]);
    match CheckLateSubmission(written, envCompany, today)
    case Fail(e) => Blocked(e)
    case Pass => Done(superResult)
  }

  /**
    `action_submit` and `action_confirm`, which have the same shape: the records are checked as
    they are, before the parent action `parent` runs; a late record keeps it from running at all.
  */
  function CheckThenRun<R>(records: seq<Leave>, parent: seq<Leave> -> R, envCompany: Company, today: int): (r: Guarded<R>)
    ensures r.Blocked? <==> exists i :: 0 <= i < |records| && Late(records[i], envCompany, today).Some?
    ensures r.Done? ==> r.value == parent(records)
  {
    match CheckLateSubmission(records, envCompany, today)
    case Fail(e) => Blocked(e)
    case Pass => Done(parent(records))
  }

  /** For a blocking company, a leave is late exactly from `threshold + 1` days after its start on. */
  lemma LateWindow(l: Leave, envCompany: Company, today: int)
    requires PolicyCompany(l, envCompany).restrictLate && StartDate(l).Some?
    ensures Late(l, envCompany, today).Some? <==> today >= StartDate(l).value + Threshold(PolicyCompany(l, envCompany)) + 1
  {
  }

  /** Exactly `threshold` days late is allowed, and a start today or later is never blocked. */
  lemma NotLateWithinThreshold(l: Leave, envCompany: Company, today: int)
    requires StartDate(l).Some?
    requires today - StartDate(l).value <= Threshold(PolicyCompany(l, envCompany)) || StartDate(l).value >= today
    ensures Late(l, envCompany, today).None?
  {
  }

  /** Once late, a leave stays late on every later day. */
  lemma LateStaysLate(l: Leave, envCompany: Company, today: int, later: int)
    requires Late(l, envCompany, today).Some? && later >= today
    ensures Late(l, envCompany, later).Some?
  {
  }

  /** A company whose threshold is negative behaves as one whose threshold is 0. */
  lemma NegativeActsAsZero(l: Leave, c: Company, envCompany: Company, today: int)
    requires l.employeeCompany == Some(c) && NegativeThreshold(c)
    ensures Late(l, envCompany, today) == Late(l.(employeeCompany := Some(c.(thresholdDays := Some(0)))), envCompany, today)
  {
  }

  /**
    The help example of the threshold field: with the default of 2 days, a leave starting on
    day 1 can still be submitted on day 3 but no longer on day 4.
  */
  lemma HelpExample(l: Leave, envCompany: Company)
    requires l.employeeCompany.Some? && l.employeeCompany.value.restrictLate
    requires l.employeeCompany.value.thresholdDays == Some(DefaultThresholdDays) && l.requestDateFrom == Some(1)
    ensures Late(l, envCompany, 3).None? && Late(l, envCompany, 4).Some?
  {
  }

  /** A write that leaves the records as they were checks what `action_submit` would check. */
  lemma WriteChecksLikeSubmit(records: seq<Leave>, update: Leave -> Leave, superResult: bool, envCompany: Company, today: int)
    requires forall i :: 0 <= i < |records| ==> update(records[i]) == records[i]
    ensures Write(records, update, superResult, envCompany, today).Blocked? <==>
            CheckThenRun(records, (s: seq<Leave>) => superResult, envCompany, today).Blocked?
  {
  }
}
