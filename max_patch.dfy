/**
 * The patch that removes the upper bound on chart numbers
 * (remove_max_validation.py): it sets chart_number_max to null in the
 * configuration, reporting the old value, and, when the operator agrees,
 * rewrites the validator of the fast report, but only if the exact old
 * text of that validator is present. The replacement validator itself is
 * Validation.PatchedVerdict.
 */
module MaxPatch {
  import opened Strings
  import opened Validation

  /**
   * code.replace(old_code, new_code) when old_code occurs in code; None when
   * it does not, and the file is then left unwritten.
   */
  function PatchCode(code: string, oldCode: string, newCode: string): (r: Option<string>)
    requires |oldCode| > 0
    ensures r.None? <==> !Contains(code, oldCode)
    ensures r.Some? ==> Contains(r.value, newCode)
  {
    if Contains(code, oldCode) then
      ReplacePresent(code, oldCode, newCode);
      Some(Replace(code, oldCode, newCode))
    else None
  }

  /** What the script reports: nothing when reading the old maximum raises, else the old maximum and whether the source was rewritten. */
  datatype PatchRun = Aborted | Ran(oldMax: Bound, rewritten: bool)

  /** The two files the patch touches: the validation bounds of config.json and the text of daily_report_fast.py. */
  class Workspace {
    var lo: Bound
    var hi: Bound
    var code: string

    constructor (lo: Bound, hi: Bound, code: string)
      ensures this.lo == lo && this.hi == hi && this.code == code
    {
      this.lo := lo;
      this.hi := hi;
      this.code := code;
    }

    /**
     * The script: a missing chart_number_max raises before anything is
     * written; otherwise max becomes null, and the source is rewritten only
     * when the operator answers 'y' and the old validator text is found.
     */
    method RemoveMaxValidation(autoPatch: bool, oldCode: string, newCode: string) returns (r: PatchRun)
      requires |oldCode| > 0
      modifies this
      ensures old(hi).Absent? ==> r == Aborted && hi == old(hi) && code == old(code)
      ensures !old(hi).Absent? ==> r.Ran? && r.oldMax == old(hi) && hi == Null
      ensures !old(hi).Absent? ==>
        r.rewritten == (autoPatch && PatchCode(old(code), oldCode, newCode).Some?) &&
        code == (if r.rewritten then PatchCode(old(code), oldCode, newCode).value else old(code))
      ensures lo == old(lo)
    {
      if hi.Absent? {
        return Aborted;
      }
      var oldMax := hi;
      hi := Null;
      var rewritten := false;
      if autoPatch {
        var patched := PatchCode(code, oldCode, newCode);
        if patched.Some? {
          code := patched.value;
          rewritten := true;
        }
      }
      r := Ran(oldMax, rewritten);
    }
  }

  /**
   * With max null and an integer min, the replacement validator accepts
   * every canonical number from min upwards, while the original validator
   * raises on it: the configuration step alone, without the source
   * rewrite, turns every such number into a TypeError of the report.
   */
  lemma {:induction false} NullMaxEffect(s: string, lo: int)
    requires Canonical(s) && lo <= DigitsValue(s)
    ensures PatchedVerdict(s, Int(lo), Null) == Accept
    ensures ChartNumberVerdict(s, Int(lo), Null) == Raise
  {
  }

  /** The replacement keeps the leading-zero rule and the lower bound whatever max is. */
  lemma {:induction false} PatchKeepsLowerRules(s: string, lo: int, hi: Bound)
    ensures LeadingZero(s) ==> PatchedVerdict(s, Int(lo), hi) == Reject
    ensures Canonical(s) && DigitsValue(s) < lo ==> PatchedVerdict(s, Int(lo), hi) == Reject
    ensures ParseNat(s).None? ==> PatchedVerdict(s, Int(lo), hi) == Reject
  {
  }
}
