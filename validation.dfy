/**
 * The chart-number validators. The three report programs share one body
 * (a leading-zero rule, int(), an inclusive range read from the
 * configuration); the patch script replaces it by a version without an upper
 * bound; the HFA diagnostic script returns a reason with its verdict; the
 * date-debug script checks the range only.
 */
module Validation {
  import opened Strings

  /** A configuration value read with config['validation'][key]. */
  datatype Bound = Absent | Null | Int(v: int)

  /**
   * The outcome of a validator call. Raise stands for the TypeError that
   * escapes when a bound is JSON null and Python compares an int with None.
   */
  datatype Verdict = Accept | Reject | Raise

  /** chart_num_str.startswith('0') and len(chart_num_str) > 1 */
  predicate LeadingZero(s: string)
  {
    |s| > 1 && s[0] == '0'
  }

  /**
   * is_valid_chart_number of the three report programs: leading zero, then
   * int(), then the two KeyErrors, then the chained comparison lo <= n <= hi,
   * which stops at the first false comparison.
   */
  function ChartNumberVerdict(s: string, lo: Bound, hi: Bound): (v: Verdict)
    ensures v == Accept <==> Canonical(s) && lo.Int? && hi.Int? && lo.v <= DigitsValue(s) <= hi.v
    ensures v == Raise <==>
      Canonical(s) && !lo.Absent? && !hi.Absent? && (lo.Null? || (lo.v <= DigitsValue(s) && hi.Null?))
  {
    if LeadingZero(s) then Reject
    else match ParseNat(s)
      case None => Reject
      case Some(n) =>
        if lo.Absent? || hi.Absent? then Reject
        else if lo.Null? then Raise
        else if n < lo.v then Reject
        else if hi.Null? then Raise
        else if n <= hi.v then Accept
        else Reject
  }

  /** The replacement validator from the patch: no upper bound when max is null or missing. */
  function PatchedVerdict(s: string, lo: Bound, hi: Bound): (v: Verdict)
    ensures v == Accept <==>
      Canonical(s) && lo.Int? && lo.v <= DigitsValue(s) && (hi.Int? ==> DigitsValue(s) <= hi.v)
    ensures v == Raise <==> Canonical(s) && lo.Null?
  {
    if LeadingZero(s) then Reject
    else match ParseNat(s)
      case None => Reject
      case Some(n) =>
        if lo.Absent? then Reject
        else if lo.Null? then Raise
        else if n < lo.v then Reject
        else if hi.Int? && n > hi.v then Reject
        else Accept
  }

  /** Every validator variant with the leading-zero rule rejects such a string. */
  lemma LeadingZeroRejected(s: string, lo: Bound, hi: Bound)
    requires |s| > 1 && s[0] == '0'
    ensures ChartNumberVerdict(s, lo, hi) == Reject
    ensures PatchedVerdict(s, lo, hi) == Reject
  {
  }

  /**
   * The patched validator agrees with the original whenever both bounds are
   * integers, and, once the patch script has set max to null, accepts what the
   * original would have crashed on.
   */
  lemma {:induction false} PatchedAgreesWithBoundedConfig(s: string, lo: int, hi: Bound)
    ensures hi.Int? ==> PatchedVerdict(s, Int(lo), hi) == ChartNumberVerdict(s, Int(lo), hi)
    ensures hi.Null? && ChartNumberVerdict(s, Int(lo), hi) == Raise ==> PatchedVerdict(s, Int(lo), hi) == Accept
    ensures hi.Null? && ChartNumberVerdict(s, Int(lo), hi) == Reject ==> PatchedVerdict(s, Int(lo), hi) == Reject
  {
  }

  // ------------------------------------------------ the HFA diagnostic script

  /** The reason strings the diagnostic validator reports. */
  datatype Reason = LeadingZeroReason | NotANumber | OutOfRange(n: int) | Fine

  /**
   * A verdict of the diagnostic script's validator: a (bool, reason) pair, or
   * a crash of the script (a None identifier reaching startswith, or a null
   * bound reaching the comparison).
   */
  datatype Diagnosis = Checked(ok: bool, reason: Reason) | Crash

  /** The script reads both bounds before defining the validator, so they are plain values here. */
  function DiagnoseChartNumber(s: Option<string>, lo: Bound, hi: Bound): (d: Diagnosis)
    requires !lo.Absent? && !hi.Absent?
    ensures d.Checked? && d.ok <==>
      s.Some? && Canonical(s.value) && lo.Int? && hi.Int? && lo.v <= DigitsValue(s.value) <= hi.v
    ensures d.Checked? && d.ok ==> d.reason == Fine
    ensures d.Checked? && d.reason == LeadingZeroReason <==> s.Some? && LeadingZero(s.value)
    ensures d.Checked? && d.reason == NotANumber <==> s.Some? && !LeadingZero(s.value) && ParseNat(s.value).None?
  {
    match s
    case None => Crash
    case Some(t) =>
      if LeadingZero(t) then Checked(false, LeadingZeroReason)
      else match ParseNat(t)
        case None => Checked(false, NotANumber)
        case Some(n) =>
          if lo.Null? then Crash
          else if n < lo.v then Checked(false, OutOfRange(n))
          else if hi.Null? then Crash
          else if n > hi.v then Checked(false, OutOfRange(n))
          else Checked(true, Fine)
  }

  /** On every input that neither crashes, the two validators agree. */
  lemma DiagnosisAgreesWithReport(s: string, lo: Bound, hi: Bound)
    requires !lo.Absent? && !hi.Absent?
    ensures DiagnoseChartNumber(Some(s), lo, hi).Checked? <==> ChartNumberVerdict(s, lo, hi) != Raise
    ensures DiagnoseChartNumber(Some(s), lo, hi).Checked? ==>
      (DiagnoseChartNumber(Some(s), lo, hi).ok <==> ChartNumberVerdict(s, lo, hi) == Accept)
  {
  }

  // --------------------------------------------------- the date-debug script

  /**
   * The range-only check of the date-debug script: int() and the chained
   * comparison under a bare except, so every error only means "not added".
   * A group that did not participate (None) fails int() as well.
   */
  function RangeOnlyAccepts(s: Option<string>, lo: Bound, hi: Bound): (ok: bool)
    ensures ok <==> s.Some? && ParseNat(s.value).Some? && lo.Int? && hi.Int? &&
                    lo.v <= ParseNat(s.value).value <= hi.v
  {
    match s
    case None => false
    case Some(t) =>
      match ParseNat(t)
      case None => false
      case Some(n) => lo.Int? && hi.Int? && lo.v <= n && n <= hi.v
  }

  /** The range-only check accepts everything the report validator accepts, and also '0123'. */
  lemma RangeOnlyIsWeaker(s: string, lo: Bound, hi: Bound)
    ensures ChartNumberVerdict(s, lo, hi) == Accept ==> RangeOnlyAccepts(Some(s), lo, hi)
    ensures RangeOnlyAccepts(Some("0123"), Int(1), Int(1000))
    ensures ChartNumberVerdict("0123", Int(1), Int(1000)) == Reject
  {
    assert "0123"[1..] == "123";
    assert DigitsValue("0123") == 123 by {
      assert "0123"[..3] == "012" && "012"[..2] == "01" && "01"[..1] == "0" && "0"[..0] == "";
    }
  }
}
