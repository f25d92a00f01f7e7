/**
  The company settings of hr_timeoff_late_block_v18 (models/res_company.py): whether late time-off
  submissions are blocked, and the allowed lateness in days, which must not be negative.
*/
module ResCompany {
  import opened Common

  /** A `res.company` as the policy reads it; `thresholdDays` is None when the field holds no value. */
  datatype Company = Company(id: int, restrictLate: bool, thresholdDays: Option<int>)

  /** The default of `late_timeoff_threshold_days`. */
  const DefaultThresholdDays := 2

  /** The field the constraint is declared on. */
  const ThresholdField := "late_timeoff_threshold_days"

  const ThresholdMessage := "Late Time Off Threshold must be 0 or a positive integer."

  /** A company created without values for the two fields: no blocking, the default threshold. */
  function NewCompany(id: int): (c: Company)
    ensures c.id == id && !c.restrictLate && c.thresholdDays == Some(DefaultThresholdDays)
  {
    Company(id, false, Some(DefaultThresholdDays))
  }

  predicate NegativeThreshold(c: Company) {
    c.thresholdDays.Some? && c.thresholdDays.value < 0
  }

  /** `_check_threshold_non_negative`: it raises at the first company with a negative threshold. */
  function CheckThresholdNonNegative(companies: seq<Company>): (r: Outcome<string>)
    ensures r.Fail? <==> exists i :: 0 <= i < |companies| && NegativeThreshold(companies[i])
    ensures r.Fail? ==> r.error == ThresholdMessage
    decreases |companies|
  {
    if companies == [] then Pass
    else if NegativeThreshold(companies[0]) then Fail(ThresholdMessage)
    else
      var rest := CheckThresholdNonNegative(companies[1..]);
      assert forall i :: 1 <= i < |companies| ==> companies[i] == companies[1..][i - 1];
      rest
  }

  /**
    `@api.constrains('late_timeoff_threshold_days')`: the check runs when the written fields include
    the threshold, over the written companies.
  */
  function ConstrainsThreshold(companies: seq<Company>, written: set<string>): (r: Outcome<string>)
    ensures ThresholdField !in written ==> r == Pass
    ensures ThresholdField in written ==>
              (r.Fail? <==> exists i :: 0 <= i < |companies| && NegativeThreshold(companies[i]))
  {
    if ThresholdField in written then CheckThresholdNonNegative(companies) else Pass
  }

  /** Zero, positive and unset thresholds never raise, whatever the other companies' flags. */
  lemma AcceptedThresholds(companies: seq<Company>)
    requires forall i :: 0 <= i < |companies| ==> companies[i].thresholdDays.None? || companies[i].thresholdDays.value >= 0
    ensures CheckThresholdNonNegative(companies) == Pass
  {
  }

  /** One offender among any companies suffices to raise. */
  lemma OneOffenderSuffices(before: seq<Company>, bad: Company, after: seq<Company>)
    requires NegativeThreshold(bad)
    ensures CheckThresholdNonNegative(before + [bad] + after) == Fail(ThresholdMessage)
  {
    assert (before + [bad] + after)[|before|] == bad;
  }
}
