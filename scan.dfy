/**
 * What every scanner does with one listed name, and how the names of a
 * listing add up. Each name either adds a chart number, adds nothing, or
 * raises an exception (Fail) that the scanner's outer handler catches; from
 * then on the scanner returns the set it has gathered so far.
 */
module Scan {
  import opened Strings
  import opened Validation
  import opened Patterns

  /** The equipment's scan_type: 'file', 'both', or any other text (which scans nothing). */
  datatype ScanType = FileOnly | Both | OtherType

  predicate ScansFiles(t: ScanType) { t == FileOnly || t == Both }

  /** The effect of one listed name on a scanner's set. */
  datatype Outcome = Add(chart: string) | Skip | Fail

  /** A scanner's result: the numbers gathered, and whether an exception ended the loop. */
  datatype Partial = Partial(charts: set<string>, raised: bool)

  /** The outcomes processed left to right, starting from acc, stopping at the first Fail. */
  function Collect(acc: set<string>, os: seq<Outcome>): (p: Partial)
    ensures acc <= p.charts
    decreases |os|
  {
    if os == [] then Partial(acc, false)
    else match os[0]
      case Add(c) => Collect(acc + {c}, os[1..])
      case Skip => Collect(acc, os[1..])
      case Fail => Partial(acc, true)
  }

  /** The index of the first Fail, or |os|. */
  function FirstFail(os: seq<Outcome>): (n: nat)
    ensures n <= |os| && (n < |os| ==> os[n].Fail?)
    ensures forall k | 0 <= k < n :: !os[k].Fail?
  {
    if os == [] then 0 else if os[0].Fail? then 0 else 1 + FirstFail(os[1..])
  }

  /** The numbers added by the outcomes before the first Fail. */
  function Added(os: seq<Outcome>): (r: set<string>)
    ensures forall c :: c in r <==> exists k | 0 <= k < |os| :: os[k] == Add(c)
  {
    set k | 0 <= k < |os| && os[k].Add? :: os[k].chart
  }

  /**
   * The fold means: what was there, plus every number added before the first
   * exception; and it reports an exception exactly when there was one.
   */
  lemma {:induction false} CollectMeaning(acc: set<string>, os: seq<Outcome>)
    ensures Collect(acc, os).charts == acc + Added(os[..FirstFail(os)])
    ensures Collect(acc, os).raised <==> exists k | 0 <= k < |os| :: os[k].Fail?
    decreases |os|
  {
    if os != [] {
      var n := FirstFail(os);
      if os[0].Fail? {
        assert os[..n] == [];
      } else {
        CollectMeaning(if os[0].Add? then acc + {os[0].chart} else acc, os[1..]);
        assert os[1..][..n - 1] == os[..n][1..];
        assert os[..n] == [os[0]] + os[1..][..n - 1];
        var rest := os[1..][..n - 1];
        forall c ensures c in Added(os[..n]) <==> (os[0] == Add(c) || c in Added(rest)) {
          if c in Added(os[..n]) {
            var k :| 0 <= k < n && os[..n][k] == Add(c);
            if k > 0 { assert rest[k - 1] == Add(c); }
          }
          if c in Added(rest) {
            var k :| 0 <= k < |rest| && rest[k] == Add(c);
            assert os[..n][k + 1] == Add(c);
          }
          if os[0] == Add(c) { assert os[..n][0] == Add(c); }
        }
        if exists k | 0 <= k < |os| :: os[k].Fail? {
          var k :| 0 <= k < |os| && os[k].Fail?;
          assert k > 0 && os[1..][k - 1].Fail?;
        }
      }
    }
  }

  /** Without an exception every added number is in the result, and nothing else is. */
  lemma CollectWithoutFail(os: seq<Outcome>)
    requires forall k | 0 <= k < |os| :: !os[k].Fail?
    ensures !Collect({}, os).raised
    ensures forall c :: c in Collect({}, os).charts <==> exists k | 0 <= k < |os| :: os[k] == Add(c)
  {
    CollectMeaning({}, os);
    assert os[..FirstFail(os)] == os;
  }

  /** Everything in the result was added by some outcome, exception or not. */
  lemma CollectSound(os: seq<Outcome>, c: string)
    requires c in Collect({}, os).charts
    ensures exists k | 0 <= k < |os| :: os[k] == Add(c)
  {
    CollectMeaning({}, os);
    var k :| 0 <= k < FirstFail(os) && os[..FirstFail(os)][k] == Add(c);
    assert os[k] == Add(c);
  }

  /** Folding two listings one after the other is folding their concatenation. */
  lemma {:induction false} CollectAppend(acc: set<string>, a: seq<Outcome>, b: seq<Outcome>)
    ensures Collect(acc, a + b) ==
      (var p := Collect(acc, a); if p.raised then p else Collect(p.charts, b))
    decreases |a|
  {
    if a != [] {
      assert (a + b)[0] == a[0];
      assert (a + b)[1..] == a[1..] + b;
      if !a[0].Fail? {
        CollectAppend(if a[0].Add? then acc + {a[0].chart} else acc, a[1..], b);
      }
    } else {
      assert a + b == b;
    }
  }

  /** One step of a loop that folds outcome o into the set so far. */
  function Step(p: Partial, o: Outcome): (q: Partial)
    requires !p.raised
    ensures q.charts == p.charts + (if o.Add? then {o.chart} else {})
    ensures q.raised <==> o.Fail?
  {
    match o
    case Add(c) => Partial(p.charts + {c}, false)
    case Skip => p
    case Fail => Partial(p.charts, true)
  }

  /** A loop that has folded os[..i] with Step can go on with os[i]. */
  lemma StepCollect(acc: set<string>, os: seq<Outcome>, i: nat, p: Partial)
    requires i < |os| && !p.raised && p == Collect(acc, os[..i])
    ensures Step(p, os[i]) == Collect(acc, os[..i + 1])
  {
    assert os[..i + 1] == os[..i] + [os[i]];
    CollectAppend(acc, os[..i], [os[i]]);
    assert [os[i]][1..] == [];
  }

  /** A loop that stopped at an exception has the fold of the whole listing. */
  lemma FailedCollect(acc: set<string>, os: seq<Outcome>, i: nat)
    requires i <= |os| && Collect(acc, os[..i]).raised
    ensures Collect(acc, os) == Collect(acc, os[..i])
  {
    assert os == os[..i] + os[i..];
    CollectAppend(acc, os[..i], os[i..]);
  }

  // ---------------------------------------------------- match.group(1) rule

  /**
   * match = pattern.search(name); if match: chart = match.group(1); if
   * valid(chart): add. group(1) raises IndexError on a pattern without groups;
   * a group that did not take part gives None, whose startswith raises
   * AttributeError inside the validator, which catches only ValueError and
   * KeyError; a null bound gives the validator's TypeError.
   */
  function Group1Outcome(m: Option<Groups>, lo: Bound, hi: Bound): (o: Outcome)
    ensures o.Add? <==> m.Some? && |m.value| >= 1 && m.value[0].Some? &&
                        ChartNumberVerdict(m.value[0].value, lo, hi) == Accept
    ensures o.Add? ==> m.value[0] == Some(o.chart) && Canonical(o.chart)
    ensures o.Skip? <==> (m.None? ||
      (|m.value| >= 1 && m.value[0].Some? && ChartNumberVerdict(m.value[0].value, lo, hi) == Reject))
  {
    match m
    case None => Skip
    case Some(gs) =>
      match Group(gs, 1)
      case NoSuchGroup => Fail
      case Unmatched => Fail
      case Captured(t) =>
        match ChartNumberVerdict(t, lo, hi)
        case Accept => Add(t)
        case Reject => Skip
        case Raise => Fail
  }
}
