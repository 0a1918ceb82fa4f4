/**
 * The directory-pattern analyser (analyze_directory_patterns.py): for each
 * equipment it samples the first entries of its today folder, tests seven
 * candidate chart-number patterns on today's files (or on the first twenty
 * samples when none is from today), ranks the patterns that match by their
 * number of matches, and looks for a date inside the file names.
 */
module PatternAnalysis {
  import opened Strings
  import opened Dates
  import opened Files
  import opened Patterns
  import opened DatePaths

  /** The seven candidate chart-number patterns, in the order they are tried. */
  const ChartPatterns: seq<string> := [
    "\\s(\\d+)_", "\\s(\\d+)-", "\\s(\\d+)\\s", "_(\\d+)\\.", "^(\\d+)_", "__(\\\\d+)_", "[a-zA-Z,\\s]+\\s(\\d+)\\s"
  ]

  /** The four date patterns looked for in file names. */
  const DatePatterns: seq<string> := [
    "_(\\d{8})\\.", "_(\\d{6})\\.", "(\\d{4}-\\d{2}-\\d{2})", "(\\d{4}\\.\\d{2}\\.\\d{2})"
  ]

  /** Only the first 100 listing entries are examined. */
  const MaxItems := 100

  /** Only the first 20 samples are tested when no file is from today, and for dates. */
  const FallbackSamples := 20

  /** At most three (name, chart number) pairs are kept per pattern. */
  const MaxPairs := 3

  // ---------------------------------------------------------- sampling

  /** A sampled file and whether its creation date is today (a failing getctime counts as not today). */
  datatype FileSample = FileSample(name: string, isToday: bool)

  datatype Samples = Samples(files: seq<FileSample>, dirs: seq<string>)

  function SampleOf(e: Entry, d: Date): FileSample
  {
    FileSample(e.name, e.created == Some(d))
  }

  /**
   * The samples after walking a list of entries: files and folders are kept
   * in order, and the walk stops after the item that brings the file
   * samples to max_samples.
   */
  function Examined(es: seq<Entry>, d: Date, maxSamples: nat): (s: Samples)
    ensures |s.files| + |s.dirs| <= |es|
    ensures es != [] && maxSamples >= 1 ==> |s.files| <= maxSamples
  {
    if es == [] then Samples([], [])
    else
      var init := es[..|es| - 1];
      var last := es[|es| - 1];
      var p := Examined(init, d, maxSamples);
      if |init| > 0 && |p.files| >= maxSamples then p
      else if last.isDir then Samples(p.files, p.dirs + [last.name])
      else Samples(p.files + [SampleOf(last, d)], p.dirs)
  }

  /** Once the walk has stopped, later entries change nothing. */
  lemma {:induction false} ExaminedStops(es: seq<Entry>, k: nat, d: Date, maxSamples: nat)
    requires 0 < k <= |es| && |Examined(es[..k], d, maxSamples).files| >= maxSamples
    ensures Examined(es, d, maxSamples) == Examined(es[..k], d, maxSamples)
    decreases |es|
  {
    if k < |es| {
      var init := es[..|es| - 1];
      assert init[..k] == es[..k];
      ExaminedStops(init, k, d, maxSamples);
    } else {
      assert es[..k] == es;
    }
  }

  /** The first n elements of a sequence, or all of it when shorter (xs[:n]). */
  function Head<T>(xs: seq<T>, n: nat): (r: seq<T>)
    ensures |r| == (if |xs| <= n then |xs| else n) && r == xs[..|r|]
  {
    if |xs| <= n then xs else xs[..n]
  }

  /** The sampling loop over items[:100]. */
  method CollectSamples(es: seq<Entry>, d: Date, maxSamples: nat) returns (s: Samples)
    ensures s == Examined(Head(es, MaxItems), d, maxSamples)
  {
    var items := Head(es, MaxItems);
    var files: seq<FileSample> := [];
    var dirs: seq<string> := [];
    var i := 0;
    while i < |items|
      invariant 0 <= i <= |items|
      invariant Samples(files, dirs) == Examined(items[..i], d, maxSamples)
      invariant i > 0 ==> |files| < maxSamples
    {
      assert items[..i + 1][..i] == items[..i];
      if items[i].isDir {
        dirs := dirs + [items[i].name];
      } else {
        files := files + [SampleOf(items[i], d)];
      }
      if |files| >= maxSamples {
        ExaminedStops(items, i + 1, d, maxSamples);
        return Samples(files, dirs);
      }
      i := i + 1;
    }
    assert items[..i] == items;
    s := Samples(files, dirs);
  }

  /** The samples created today, in sampling order. */
  function TodayFiles(fs: seq<FileSample>): (r: seq<FileSample>)
    ensures |r| <= |fs|
    ensures forall x | x in r :: x in fs && x.isToday
    ensures forall x | x in fs && x.isToday :: x in r
  {
    if fs == [] then []
    else
      var rest := TodayFiles(fs[1..]);
      if fs[0].isToday then [fs[0]] + rest else rest
  }

  // ---------------------------------------------------- pattern testing

  /** How many of the samples the pattern matches. */
  function MatchCount(search: Search, p: string, fs: seq<FileSample>): (n: nat)
    ensures n <= |fs|
    ensures n > 0 <==> exists k | 0 <= k < |fs| :: search(p, fs[k].name).Some?
  {
    if fs == [] then 0
    else
      var init := fs[..|fs| - 1];
      assert forall k | 0 <= k < |init| :: init[k] == fs[k];
      MatchCount(search, p, init) + (if search(p, fs[|fs| - 1].name).Some? then 1 else 0)
  }

  /** A pattern whose every match has a first group, as each literal pattern above has. */
  ghost predicate HasGroupOne(search: Search, p: string)
  {
    forall n :: search(p, n).Some? ==> |search(p, n).value| >= 1
  }

  /** The first three matches of a pattern: the name and match.group(1). */
  function FirstPairs(search: Search, p: string, fs: seq<FileSample>): (r: seq<(string, Option<string>)>)
    requires HasGroupOne(search, p)
    ensures |r| <= MaxPairs && |r| <= MatchCount(search, p, fs)
    ensures |r| == (if MatchCount(search, p, fs) <= MaxPairs then MatchCount(search, p, fs) else MaxPairs)
    ensures forall k | 0 <= k < |r| :: exists j | 0 <= j < |fs| ::
      fs[j].name == r[k].0 && search(p, fs[j].name).Some? && search(p, fs[j].name).value[0] == r[k].1
  {
    if fs == [] then []
    else
      var init := fs[..|fs| - 1];
      var last := fs[|fs| - 1];
      var prev := FirstPairs(search, p, init);
      assert forall j | 0 <= j < |init| :: init[j] == fs[j];
      match search(p, last.name)
      case None => prev
      case Some(gs) => if |prev| < MaxPairs then prev + [(last.name, gs[0])] else prev
  }

  /** One reported pattern: its text, how many samples it matched, and up to three example pairs. */
  datatype PatternReport = PatternReport(pattern: string, matches: nat, pairs: seq<(string, Option<string>)>)

  /** The loop for one pattern: a match counter and the first three pairs. */
  method TestPattern(search: Search, p: string, fs: seq<FileSample>) returns (r: PatternReport)
    requires HasGroupOne(search, p)
    ensures r == PatternReport(p, MatchCount(search, p, fs), FirstPairs(search, p, fs))
  {
    var matches := 0;
    var pairs: seq<(string, Option<string>)> := [];
    var i := 0;
    while i < |fs|
      invariant 0 <= i <= |fs|
      invariant matches == MatchCount(search, p, fs[..i])
      invariant pairs == FirstPairs(search, p, fs[..i])
    {
      TestPatternStep(search, p, fs, i);
      var m := search(p, fs[i].name);
      if m.Some? {
        matches := matches + 1;
        if |pairs| < MaxPairs {
          pairs := pairs + [(fs[i].name, m.value[0])];
        }
      }
      i := i + 1;
    }
    assert fs[..i] == fs;
    r := PatternReport(p, matches, pairs);
  }

  lemma TestPatternStep(search: Search, p: string, fs: seq<FileSample>, i: nat)
    requires HasGroupOne(search, p) && i < |fs|
    ensures MatchCount(search, p, fs[..i + 1]) ==
      MatchCount(search, p, fs[..i]) + (if search(p, fs[i].name).Some? then 1 else 0)
    ensures FirstPairs(search, p, fs[..i + 1]) ==
      if search(p, fs[i].name).Some? && |FirstPairs(search, p, fs[..i])| < MaxPairs
      then FirstPairs(search, p, fs[..i]) + [(fs[i].name, search(p, fs[i].name).value[0])]
      else FirstPairs(search, p, fs[..i])
  {
    assert fs[..i + 1][..i] == fs[..i];
  }

  /** The entry reported for one pattern. */
  function ReportOf(search: Search, p: string, fs: seq<FileSample>): PatternReport
    requires HasGroupOne(search, p)
  {
    PatternReport(p, MatchCount(search, p, fs), FirstPairs(search, p, fs))
  }

  /** The patterns that match at least once, in the order tried. */
  function Matching(search: Search, ps: seq<string>, fs: seq<FileSample>): (r: seq<PatternReport>)
    requires forall k | 0 <= k < |ps| :: HasGroupOne(search, ps[k])
    ensures |r| <= |ps|
    ensures forall x | x in r :: x.pattern in ps && HasGroupOne(search, x.pattern) && x.matches > 0 && x == ReportOf(search, x.pattern, fs)
  {
    if ps == [] then []
    else
      var init := ps[..|ps| - 1];
      var p := ps[|ps| - 1];
      assert forall k | 0 <= k < |init| :: init[k] == ps[k];
      var prev := Matching(search, init, fs);
      assert forall x | x in prev :: x.pattern in ps;
      var n := MatchCount(search, p, fs);
      if n > 0 then prev + [ReportOf(search, p, fs)] else prev
  }

  /** Every pattern that matches a sample is among those reported. */
  lemma {:induction false} MatchingComplete(search: Search, ps: seq<string>, fs: seq<FileSample>, k: nat)
    requires forall i | 0 <= i < |ps| :: HasGroupOne(search, ps[i])
    requires k < |ps| && MatchCount(search, ps[k], fs) > 0
    ensures ReportOf(search, ps[k], fs) in Matching(search, ps, fs)
    decreases |ps|
  {
    var init := ps[..|ps| - 1];
    if k < |ps| - 1 {
      assert init[k] == ps[k];
      MatchingComplete(search, init, fs, k);
    }
  }

  // ------------------------------------------------------------ ranking

  predicate ByMatchesDesc(s: seq<PatternReport>)
  {
    forall i, j | 0 <= i < j < |s| :: s[i].matches >= s[j].matches
  }

  /** Insert after every report with at least as many matches: what a stable sort does to a new last element. */
  function InsertByMatches(x: PatternReport, t: seq<PatternReport>): (r: seq<PatternReport>)
    ensures multiset(r) == multiset(t) + multiset{x} && |r| == |t| + 1
    ensures forall y | y in r :: y == x || y in t
    ensures ByMatchesDesc(t) ==> ByMatchesDesc(r)
  {
    if t == [] then [x]
    else if t[|t| - 1].matches >= x.matches then t + [x]
    else
      var init := t[..|t| - 1];
      var last := t[|t| - 1];
      assert t == init + [last];
      var rest := InsertByMatches(x, init);
      InsertAfterSmaller(x, init, last, rest);
      rest + [last]
  }

  lemma InsertAfterSmaller(x: PatternReport, init: seq<PatternReport>, last: PatternReport, rest: seq<PatternReport>)
    requires last.matches < x.matches
    requires forall y | y in rest :: y == x || y in init
    requires ByMatchesDesc(init + [last]) ==> ByMatchesDesc(rest)
    ensures ByMatchesDesc(init + [last]) ==> ByMatchesDesc(rest + [last])
  {
    if ByMatchesDesc(init + [last]) {
      var t := init + [last];
      forall y | y in init ensures y.matches >= last.matches {
        var i :| 0 <= i < |init| && init[i] == y;
        assert t[i] == y && t[|t| - 1] == last;
      }
      var r := rest + [last];
      forall i, j | 0 <= i < j < |r| ensures r[i].matches >= r[j].matches {
        if j < |rest| {
          assert r[i] == rest[i] && r[j] == rest[j];
        } else {
          assert r[i] == rest[i] && rest[i] in rest;
        }
      }
    }
  }

  /** matched_patterns.sort(key=matches, reverse=True): stable, most matches first. */
  function RankByMatches(rs: seq<PatternReport>): (r: seq<PatternReport>)
    ensures ByMatchesDesc(r)
    ensures multiset(r) == multiset(rs) && |r| == |rs|
  {
    if rs == [] then []
    else
      var init := rs[..|rs| - 1];
      assert rs == init + [rs[|rs| - 1]];
      InsertByMatches(rs[|rs| - 1], RankByMatches(init))
  }

  // ------------------------------------------------------- date patterns

  /** found_date_pattern: some date pattern matches one of the first twenty samples. */
  method DetectDatePattern(search: Search, fs: seq<FileSample>) returns (found: bool)
    ensures found <==> exists k, j | 0 <= k < |DatePatterns| && 0 <= j < |Head(fs, FallbackSamples)| ::
      search(DatePatterns[k], Head(fs, FallbackSamples)[j].name).Some?
  {
    var firsts := Head(fs, FallbackSamples);
    found := false;
    var k := 0;
    while k < |DatePatterns|
      invariant 0 <= k <= |DatePatterns|
      invariant found <==> exists k', j | 0 <= k' < k && 0 <= j < |firsts| :: search(DatePatterns[k'], firsts[j].name).Some?
    {
      var matches := 0;
      var j := 0;
      while j < |firsts|
        invariant 0 <= j <= |firsts|
        invariant matches == MatchCount(search, DatePatterns[k], firsts[..j])
      {
        assert firsts[..j + 1][..j] == firsts[..j];
        if search(DatePatterns[k], firsts[j].name).Some? {
          matches := matches + 1;
        }
        j := j + 1;
      }
      assert firsts[..j] == firsts;
      if matches > 0 {
        found := true;
      }
      k := k + 1;
    }
  }

  // ------------------------------------------------------ one equipment

  /** The summary analyze_directory returns. */
  datatype Analysis = Analysis(todayFolder: Path, fileCount: nat, todayFileCount: nat,
                               matchedPatterns: seq<PatternReport>, hasDateInFilename: bool)

  /** The samples the chart patterns are tested on: today's files, else the first twenty. */
  function Tested(files: seq<FileSample>): (r: seq<FileSample>)
    ensures TodayFiles(files) != [] ==> r == TodayFiles(files)
    ensures TodayFiles(files) == [] ==> r == Head(files, FallbackSamples)
  {
    if TodayFiles(files) != [] then TodayFiles(files) else Head(files, FallbackSamples)
  }

  ghost predicate DateInNames(search: Search, files: seq<FileSample>)
  {
    exists k, j | 0 <= k < |DatePatterns| && 0 <= j < |Head(files, FallbackSamples)| ::
      search(DatePatterns[k], Head(files, FallbackSamples)[j].name).Some?
  }

  /** matched_patterns after ranking. */
  function RankedReports(search: Search, files: seq<FileSample>): (r: seq<PatternReport>)
    requires forall k | 0 <= k < |ChartPatterns| :: HasGroupOne(search, ChartPatterns[k])
    ensures ByMatchesDesc(r) && |r| <= |ChartPatterns|
  {
    RankByMatches(Matching(search, ChartPatterns, Tested(files)))
  }

  /** The pattern loop: the report of every pattern that matched, in pattern order. */
  method TestPatterns(search: Search, ps: seq<string>, tested: seq<FileSample>) returns (matched: seq<PatternReport>)
    requires forall k | 0 <= k < |ps| :: HasGroupOne(search, ps[k])
    ensures matched == Matching(search, ps, tested)
  {
    matched := [];
    var k := 0;
    while k < |ps|
      invariant 0 <= k <= |ps|
      invariant matched == Matching(search, ps[..k], tested)
    {
      assert ps[..k + 1][..k] == ps[..k];
      var report := TestPattern(search, ps[k], tested);
      if report.matches > 0 {
        matched := matched + [report];
      }
      k := k + 1;
    }
    assert ps[..k] == ps;
  }

  /** The pattern loop, the ranking and the date-pattern loop over a non-empty sample. */
  method AnalyzeFiles(search: Search, files: seq<FileSample>) returns (matched: seq<PatternReport>, found: bool)
    requires forall k | 0 <= k < |ChartPatterns| :: HasGroupOne(search, ChartPatterns[k])
    ensures matched == RankedReports(search, files)
    ensures found == DateInNames(search, files)
  {
    matched := TestPatterns(search, ChartPatterns, Tested(files));
    matched := RankByMatches(matched);
    found := DetectDatePattern(search, files);
  }

  /** analyze_directory: None when the base is missing or the listing fails. */
  ghost function AnalysisOf(fs: FileSystem, search: Search, id: string, base: Path, d: Date, maxSamples: nat): (r: Option<Analysis>)
    requires Valid(d)
    requires forall k | 0 <= k < |ChartPatterns| :: HasGroupOne(search, ChartPatterns[k])
    ensures r.None? <==> !Exists(fs, base) || ListDir(fs, AnalyzerTodayFolder(fs, base, id, d)).None?
    ensures r.Some? ==> r.value.todayFolder == AnalyzerTodayFolder(fs, base, id, d) &&
                        r.value.todayFileCount <= r.value.fileCount && ByMatchesDesc(r.value.matchedPatterns)
  {
    if !Exists(fs, base) then None
    else
      var folder := AnalyzerTodayFolder(fs, base, id, d);
      match ListDir(fs, folder)
      case None => None
      case Some(es) =>
        var files := Examined(Head(es, MaxItems), d, maxSamples).files;
        Some(Analysis(folder, |files|, |TodayFiles(files)|,
                      if files == [] then [] else RankedReports(search, files),
                      files != [] && DateInNames(search, files)))
  }

  method AnalyzeDirectory(fs: FileSystem, search: Search, id: string, base: Path, d: Date, maxSamples: nat)
    returns (r: Option<Analysis>)
    requires Valid(d)
    requires forall k | 0 <= k < |ChartPatterns| :: HasGroupOne(search, ChartPatterns[k])
    ensures r == AnalysisOf(fs, search, id, base, d, maxSamples)
  {
    if !Exists(fs, base) {
      return None;
    }
    var folder := AnalyzerTodayFolder(fs, base, id, d);
    var listing := ListDir(fs, folder);
    if listing.None? {
      return None;
    }
    var s := CollectSamples(listing.value, d, maxSamples);
    var files := s.files;
    var matched: seq<PatternReport> := [];
    var found := false;
    if files != [] {
      matched, found := AnalyzeFiles(search, files);
    }
    r := Some(Analysis(folder, |files|, |TodayFiles(files)|, matched, found));
  }

  /** A pattern is reported iff it matches a tested sample, and then with its true count and at most three pairs. */
  lemma ReportedIffMatches(search: Search, files: seq<FileSample>, k: nat)
    requires forall i | 0 <= i < |ChartPatterns| :: HasGroupOne(search, ChartPatterns[i])
    requires k < |ChartPatterns|
    ensures (exists r | r in RankedReports(search, files) :: r.pattern == ChartPatterns[k]) <==>
            (exists j | 0 <= j < |Tested(files)| :: search(ChartPatterns[k], Tested(files)[j].name).Some?)
    ensures forall r | r in RankedReports(search, files) ::
      r.matches == MatchCount(search, r.pattern, Tested(files)) && |r.pairs| <= MaxPairs
  {
    var t := Tested(files);
    var ms := Matching(search, ChartPatterns, t);
    var ranked := RankedReports(search, files);
    assert multiset(ranked) == multiset(ms);
    forall r | r in ranked
      ensures r in ms
    {
      assert r in multiset(ranked);
    }
    if exists j | 0 <= j < |t| :: search(ChartPatterns[k], t[j].name).Some? {
      MatchingComplete(search, ChartPatterns, t, k);
      var x := ReportOf(search, ChartPatterns[k], t);
      assert x in multiset(ms);
      assert x in ranked;
    }
  }
}
