/**
 * Regular-expression matching, kept abstract: a search function from a
 * pattern text and a name to the tuple of groups of the first match (None
 * when the pattern does not match). A group that did not take part in the
 * match is None. The HFA script also reads match.lastindex, so its search
 * returns the groups together with the lastindex the engine reports. On top
 * of these, the four ways the programs pick the chart number out of a match.
 */
module Patterns {
  import opened Strings

  /** match.groups(): one entry per capturing group of the pattern. */
  type Groups = seq<Option<string>>

  /** re.search(pattern, name), with the regex engine left uninterpreted. */
  type Search = (string, string) -> Option<Groups>

  /** match.group(i) for i >= 1: an IndexError, None, or the captured text. */
  datatype GroupResult = NoSuchGroup | Unmatched | Captured(text: string)

  function Group(gs: Groups, i: nat): (r: GroupResult)
    requires i >= 1
    ensures r.NoSuchGroup? <==> i > |gs|
    ensures r.Captured? ==> gs[i - 1] == Some(r.text)
  {
    if i > |gs| then NoSuchGroup
    else match gs[i - 1]
      case None => Unmatched
      case Some(t) => Captured(t)
  }

  /** Python truthiness of an optional string: present and non-empty. */
  predicate Truthy(g: Option<string>)
  {
    g.Some? && |g.value| > 0
  }

  /**
   * The highest-numbered group that took part, or None when none did. This
   * is match.lastindex only when no group encloses a later one: Python's
   * lastindex is the last group to close, so `((\d*))` on "abc" has
   * lastindex 1 although group 2 took part as well.
   */
  function LastIndex(gs: Groups): (r: Option<nat>)
    ensures r.Some? ==> 1 <= r.value <= |gs| && gs[r.value - 1].Some?
    ensures r.Some? ==> forall k | r.value <= k < |gs| :: gs[k].None?
    ensures r.None? ==> forall k | 0 <= k < |gs| :: gs[k].None?
    decreases |gs|
  {
    if gs == [] then None
    else if gs[|gs| - 1].Some? then Some(|gs|)
    else LastIndex(gs[..|gs| - 1])
  }

  /**
   * A match object as the HFA script reads it: match.groups() and
   * match.lastindex, both reported by the regex engine.
   */
  datatype MatchObject = MatchObject(groups: Groups, lastIndex: Option<nat>)

  /** re.search(pattern, name) returning the whole match object. */
  type MatchSearch = (string, string) -> Option<MatchObject>

  /** What Python promises of lastindex: None exactly when no group took part, otherwise a group that took part. */
  predicate Coherent(m: MatchObject)
  {
    (m.lastIndex.None? <==> forall k | 0 <= k < |m.groups| :: m.groups[k].None?) &&
    (m.lastIndex.Some? ==> 1 <= m.lastIndex.value <= |m.groups| && m.groups[m.lastIndex.value - 1].Some?)
  }

  /** No group encloses a later one, so the last group to close is the highest that took part. */
  predicate Sequential(m: MatchObject)
  {
    m.lastIndex == LastIndex(m.groups)
  }

  /**
   * The rule of the upgraded report: with exactly two groups, the first if it
   * is non-empty, else the second; otherwise the first group, or None for a
   * pattern without groups.
   */
  function ExtractTwoGroup(gs: Groups): (r: Option<string>)
    ensures |gs| == 2 && Truthy(gs[0]) ==> r == gs[0]
    ensures |gs| == 2 && !Truthy(gs[0]) ==> r == gs[1]
    ensures |gs| != 2 && |gs| > 0 ==> r == gs[0]
    ensures |gs| == 0 ==> r.None?
  {
    if |gs| == 2 then (if Truthy(gs[0]) then gs[0] else gs[1])
    else if |gs| > 0 then gs[0]
    else None
  }

  /** A choice of the HFA diagnostic script: an identifier (maybe None), or the script's crash. */
  datatype Pick = Picked(chart: Option<string>) | PickCrash

  /**
   * match.group(1) or (match.group(2) if match.lastindex > 1 else None).
   * group(1) raises IndexError for a pattern without groups, group(2) for a
   * pattern with one group, and the comparison raises TypeError when
   * lastindex is None.
   */
  function ExtractLastIndexGuarded(m: MatchObject): (r: Pick)
    ensures r.Picked? && r.chart.Some? ==> r.chart in m.groups
    ensures |m.groups| >= 1 && Truthy(m.groups[0]) ==> r == Picked(m.groups[0])
    ensures |m.groups| >= 1 && !Truthy(m.groups[0]) && m.lastIndex.Some? ==>
      r == (if m.lastIndex.value <= 1 then Picked(None)
            else if |m.groups| >= 2 then Picked(m.groups[1])
            else PickCrash)
    ensures r == PickCrash <==>
      |m.groups| == 0 || (!Truthy(m.groups[0]) && (m.lastIndex.None? || (m.lastIndex.value > 1 && |m.groups| < 2)))
    ensures Coherent(m) ==>
      (r == PickCrash <==> |m.groups| == 0 || (!Truthy(m.groups[0]) && forall k | 0 <= k < |m.groups| :: m.groups[k].None?))
  {
    var g1 := Group(m.groups, 1);
    if g1.NoSuchGroup? then PickCrash
    else if g1.Captured? && g1.text != [] then Picked(Some(g1.text))
    else match m.lastIndex
      case None => PickCrash
      case Some(li) =>
        if li > 1 then
          (match Group(m.groups, 2)
           case NoSuchGroup => PickCrash
           case Unmatched => Picked(None)
           case Captured(u) => Picked(Some(u)))
        else Picked(None)
  }

  /** An MCP choice: an identifier, or the IndexError of a pattern without groups. */
  datatype McpPick = McpChart(chart: Option<string>) | McpIndexError

  /** groups[0] if groups[0] else (groups[1] if len(groups) > 1 else groups[0]) */
  function ExtractMcp(gs: Groups): (r: McpPick)
    ensures r.McpIndexError? <==> |gs| == 0
    ensures |gs| > 0 && Truthy(gs[0]) ==> r == McpChart(gs[0])
    ensures |gs| > 1 && !Truthy(gs[0]) ==> r == McpChart(gs[1])
    ensures |gs| == 1 ==> r == McpChart(gs[0])
  {
    if |gs| == 0 then McpIndexError
    else if Truthy(gs[0]) then McpChart(gs[0])
    else if |gs| > 1 then McpChart(gs[1])
    else McpChart(gs[0])
  }

  /**
   * On every match that yields a non-empty identifier under both rules, the
   * upgraded report and the MCP server pick the same identifier whenever the
   * pattern has one or two groups, and the HFA script agrees with them too
   * when no group encloses the other.
   */
  lemma {:induction false} ExtractionRulesAgree(gs: Groups)
    requires 1 <= |gs| <= 2
    ensures Truthy(ExtractTwoGroup(gs)) ==> ExtractMcp(gs) == McpChart(ExtractTwoGroup(gs))
    ensures Truthy(ExtractTwoGroup(gs)) ==> ExtractLastIndexGuarded(MatchObject(gs, LastIndex(gs))) == Picked(ExtractTwoGroup(gs))
  {
    if |gs| == 2 && !Truthy(gs[0]) && Truthy(gs[1]) {
      assert LastIndex(gs) == Some(2);
    }
  }

  /** With three groups the rules part ways: the upgraded report takes group 1 even when it is empty. */
  lemma ThreeGroupsDisagree()
    ensures ExtractTwoGroup([None, Some("123"), None]) == None
    ensures ExtractLastIndexGuarded(MatchObject([None, Some("123"), None], Some(2))) == Picked(Some("123"))
    ensures Sequential(MatchObject([None, Some("123"), None], Some(2)))
    ensures ExtractMcp([None, Some("123"), None]) == McpChart(Some("123"))
  {
    var gs: Groups := [None, Some("123"), None];
    assert gs[..2] == [None, Some("123")];
    assert LastIndex(gs) == Some(2);
  }
}
