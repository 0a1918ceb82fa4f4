/**
 * The scanner of the fast report (daily_report_fast.py): today's folder of an
 * equipment share is walked with os.walk; when a dated folder is missing, the
 * base folder is listed instead, names with today's date in them are read
 * directly, and the others are probed for their creation date in batches of
 * a thousand, newest names first, until three batches in a row are mostly
 * old.
 */
module FastReport {
  import opened Strings
  import opened Dates
  import opened Files
  import opened Validation
  import opened Patterns
  import opened Scan
  import opened Sorting
  import opened DatePaths

  /** One entry of config['equipment']. */
  datatype Equipment = Equipment(id: string, base: Path, pattern: string, scanType: ScanType, useCreationTime: bool)

  /** config['validation']: the chart-number bounds and the file extensions. */
  datatype Limits = Limits(lo: Bound, hi: Bound, exts: seq<string>)

  /** The lower-cased name ends with one of the configured extensions. */
  predicate HasExtension(name: string, exts: seq<string>)
  {
    EndsWithAny(Lower(name), exts)
  }

  /** The outcome of one walked name: files pass the extension filter first, folders do not. */
  function EntryOutcome(search: Search, pattern: string, lim: Limits, name: string, isFile: bool): (o: Outcome)
    ensures o.Add? && isFile ==> HasExtension(name, lim.exts)
    ensures o.Add? ==> search(pattern, name).Some? && |search(pattern, name).value| >= 1
    ensures o.Add? ==> search(pattern, name).value[0] == Some(o.chart) && ChartNumberVerdict(o.chart, lim.lo, lim.hi) == Accept
  {
    if isFile && !HasExtension(name, lim.exts) then Skip
    else Group1Outcome(search(pattern, name), lim.lo, lim.hi)
  }

  function EntryOutcomes(search: Search, pattern: string, lim: Limits, es: seq<Entry>, isFile: bool): (os: seq<Outcome>)
    ensures |os| == |es|
  {
    seq(|es|, k requires 0 <= k < |es| => EntryOutcome(search, pattern, lim, es[k].name, isFile))
  }

  /** for name in names: match, group(1), validate, add; an exception ends the loop. */
  method AddEntries(p0: Partial, search: Search, pattern: string, lim: Limits, es: seq<Entry>, isFile: bool)
    returns (p: Partial)
    requires !p0.raised
    ensures p == Collect(p0.charts, EntryOutcomes(search, pattern, lim, es, isFile))
  {
    ghost var os := EntryOutcomes(search, pattern, lim, es, isFile);
    p := p0;
    var i := 0;
    while i < |es|
      invariant 0 <= i <= |es| && !p.raised
      invariant p == Collect(p0.charts, os[..i])
    {
      var o := EntryOutcome(search, pattern, lim, es[i].name, isFile);
      StepCollect(p0.charts, os, i, p);
      p := Step(p, o);
      if p.raised {
        FailedCollect(p0.charts, os, i + 1);
        return;
      }
      i := i + 1;
    }
    assert os[..i] == os;
  }

  // ---------------------------------------------------------- walk branch

  /** What one os.walk triple contributes: its files for 'file' and 'both', then its folders for 'both'. */
  function StepOutcomes(search: Search, eq: Equipment, lim: Limits, w: WalkStep): seq<Outcome>
  {
    (if ScansFiles(eq.scanType) then EntryOutcomes(search, eq.pattern, lim, w.files, true) else []) +
    (if eq.scanType == Both then EntryOutcomes(search, eq.pattern, lim, w.dirs, false) else [])
  }

  function WalkOutcomes(search: Search, eq: Equipment, lim: Limits, steps: seq<WalkStep>): seq<Outcome>
    decreases |steps|
  {
    if steps == [] then []
    else WalkOutcomes(search, eq, lim, steps[..|steps| - 1]) + StepOutcomes(search, eq, lim, steps[|steps| - 1])
  }

  lemma {:induction false} WalkOutcomesAppend(search: Search, eq: Equipment, lim: Limits, a: seq<WalkStep>, b: seq<WalkStep>)
    ensures WalkOutcomes(search, eq, lim, a + b) == WalkOutcomes(search, eq, lim, a) + WalkOutcomes(search, eq, lim, b)
    decreases |b|
  {
    if b == [] {
      assert a + b == a;
    } else {
      assert (a + b)[..|a + b| - 1] == a + b[..|b| - 1];
      WalkOutcomesAppend(search, eq, lim, a, b[..|b| - 1]);
    }
  }

  /** One triple of os.walk: its files, then its folders, each loop ended by an exception. */
  method ScanWalkStep(p0: Partial, search: Search, eq: Equipment, lim: Limits, w: WalkStep) returns (p: Partial)
    requires !p0.raised
    ensures p == Collect(p0.charts, StepOutcomes(search, eq, lim, w))
  {
    ghost var fileOs: seq<Outcome> := if ScansFiles(eq.scanType) then EntryOutcomes(search, eq.pattern, lim, w.files, true) else [];
    ghost var dirOs: seq<Outcome> := if eq.scanType == Both then EntryOutcomes(search, eq.pattern, lim, w.dirs, false) else [];
    CollectAppend(p0.charts, fileOs, dirOs);
    p := p0;
    if ScansFiles(eq.scanType) {
      p := AddEntries(p, search, eq.pattern, lim, w.files, true);
    }
    if !p.raised && eq.scanType == Both {
      p := AddEntries(p, search, eq.pattern, lim, w.dirs, false);
    }
  }

  /** The walk's outcomes, one triple further. */
  lemma WalkOutcomesNext(search: Search, eq: Equipment, lim: Limits, steps: seq<WalkStep>, k: nat)
    requires k < |steps|
    ensures WalkOutcomes(search, eq, lim, steps[..k + 1]) ==
      WalkOutcomes(search, eq, lim, steps[..k]) + StepOutcomes(search, eq, lim, steps[k])
  {
    assert steps[..k + 1][..k] == steps[..k];
  }

  /** The walk branch: every triple of os.walk(folder) in turn, stopping at the first exception. */
  method WalkScan(fs: FileSystem, search: Search, eq: Equipment, lim: Limits, folder: Path) returns (p: Partial)
    ensures p == Collect({}, WalkOutcomes(search, eq, lim, WalkPath(fs, folder)))
  {
    var steps := WalkPath(fs, folder);
    p := Partial({}, false);
    var k := 0;
    while k < |steps|
      invariant 0 <= k <= |steps| && !p.raised
      invariant p == Collect({}, WalkOutcomes(search, eq, lim, steps[..k]))
    {
      WalkOutcomesNext(search, eq, lim, steps, k);
      CollectAppend({}, WalkOutcomes(search, eq, lim, steps[..k]), StepOutcomes(search, eq, lim, steps[k]));
      p := ScanWalkStep(p, search, eq, lim, steps[k]);
      if p.raised {
        assert steps == steps[..k + 1] + steps[k + 1..];
        WalkOutcomesAppend(search, eq, lim, steps[..k + 1], steps[k + 1..]);
        CollectAppend({}, WalkOutcomes(search, eq, lim, steps[..k + 1]), WalkOutcomes(search, eq, lim, steps[k + 1..]));
        return;
      }
      k := k + 1;
    }
    assert steps[..k] == steps;
  }

  // ------------------------------------------------------ fallback listing

  /** The three renderings of today that mark a name as today's: %Y%m%d, %Y-%m-%d, %Y.%m.%d. */
  function TodayStamps(d: Date): seq<string>
    requires Valid(d)
  {
    [Compact(d), Dashed(d), Dotted(d)]
  }

  /** candidate_files: the names whose lower-case form ends with a configured extension, in listing order. */
  function Candidates(names: seq<string>, exts: seq<string>): (r: seq<string>)
    ensures forall x | x in r :: x in names && HasExtension(x, exts)
    ensures forall x | x in names && HasExtension(x, exts) :: x in r
    decreases |names|
  {
    if names == [] then []
    else
      var last := names[|names| - 1];
      Candidates(names[..|names| - 1], exts) + (if HasExtension(last, exts) then [last] else [])
  }

  /** The first loop over the candidates: a name carrying today's date is matched at once. */
  function DatedOutcome(search: Search, pattern: string, lim: Limits, today: Date, name: string): (o: Outcome)
    requires Valid(today)
    ensures !ContainsAny(name, TodayStamps(today)) ==> o == Skip
  {
    if ContainsAny(name, TodayStamps(today)) then Group1Outcome(search(pattern, name), lim.lo, lim.hi) else Skip
  }

  function DatedOutcomes(search: Search, pattern: string, lim: Limits, today: Date, names: seq<string>): (os: seq<Outcome>)
    requires Valid(today)
    ensures |os| == |names|
  {
    seq(|names|, k requires 0 <= k < |names| => DatedOutcome(search, pattern, lim, today, names[k]))
  }

  /** need_ctime_check: the undated candidates, kept only when use_creation_time is set. */
  function Queued(today: Date, names: seq<string>, useCreationTime: bool): (r: seq<string>)
    requires Valid(today)
    ensures forall x | x in r :: x in names && useCreationTime && !ContainsAny(x, TodayStamps(today))
    ensures useCreationTime ==> forall x | x in names && !ContainsAny(x, TodayStamps(today)) :: x in r
    decreases |names|
  {
    if names == [] then []
    else
      var last := names[|names| - 1];
      Queued(today, names[..|names| - 1], useCreationTime) +
      (if !ContainsAny(last, TodayStamps(today)) && useCreationTime then [last] else [])
  }

  /** Without use_creation_time nothing is queued. */
  lemma {:induction false} NothingQueuedWithoutCreationTime(today: Date, names: seq<string>)
    requires Valid(today)
    ensures Queued(today, names, false) == []
    decreases |names|
  {
    if names != [] {
      NothingQueuedWithoutCreationTime(today, names[..|names| - 1]);
    }
  }

  // -------------------------------------------------------- the probe loop

  /** check_file_date: the identifier found (if any) and the creation date read (if any). */
  datatype Probe = Probe(chart: Option<string>, date: Option<Date>)

  /**
   * check_file_date: not a file or getctime failing give (None, None); a file
   * of another day gives (None, its date); a file of today gives its chart
   * number when the name matches and validates, else (None, today), and any
   * exception on the way is swallowed into (None, None).
   */
  function CheckFileDate(fs: FileSystem, search: Search, pattern: string, lim: Limits, folder: Path, today: Date, name: string): (r: Probe)
    ensures r.date.Some? ==> IsFile(fs, Child(folder, name)) && Locate(fs, Child(folder, name)).value.created == r.date
    ensures r.chart.Some? ==> r.date == Some(today)
    ensures r.chart.Some? ==> search(pattern, name).Some? && |search(pattern, name).value| >= 1
    ensures r.chart.Some? ==> search(pattern, name).value[0] == r.chart
    ensures r.chart.Some? ==> ChartNumberVerdict(r.chart.value, lim.lo, lim.hi) == Accept
    ensures r.chart.Some? ==> r.chart.value != []
  {
    var e := Locate(fs, Child(folder, name));
    if !(e.Some? && !e.value.isDir) then Probe(None, None)
    else match e.value.created
      case None => Probe(None, None)
      case Some(d) =>
        if d != today then Probe(None, Some(d))
        else match Group1Outcome(search(pattern, name), lim.lo, lim.hi)
          case Add(c) => Probe(Some(c), Some(d))
          case Skip => Probe(None, Some(d))
          case Fail => Probe(None, None)
  }

  function Probes(fs: FileSystem, search: Search, pattern: string, lim: Limits, folder: Path, today: Date, names: seq<string>): (rs: seq<Probe>)
    ensures |rs| == |names|
  {
    seq(|names|, k requires 0 <= k < |names| => CheckFileDate(fs, search, pattern, lim, folder, today, names[k]))
  }

  /** The identifiers a batch found. */
  function Found(b: seq<Probe>): set<string>
    decreases |b|
  {
    if b == [] then {}
    else Found(b[..|b| - 1]) + (if b[|b| - 1].chart.Some? then {b[|b| - 1].chart.value} else {})
  }

  lemma {:induction false} FoundMeans(b: seq<Probe>)
    ensures forall c :: c in Found(b) <==> exists k | 0 <= k < |b| :: b[k].chart == Some(c)
    decreases |b|
  {
    if b != [] {
      FoundMeans(b[..|b| - 1]);
      assert forall k | 0 <= k < |b| - 1 :: b[..|b| - 1][k] == b[k];
    }
  }

  /** batch_old_count: the results without an identifier whose date is before today. */
  function OldCount(b: seq<Probe>, today: Date): (n: nat)
    ensures n <= |b|
    decreases |b|
  {
    if b == [] then 0
    else
      var last := b[|b| - 1];
      OldCount(b[..|b| - 1], today) + (if last.chart.None? && last.date.Some? && Before(last.date.value, today) then 1 else 0)
  }

  /**
   * batch_old_count > len(batch) * 0.9. For a batch of at most a thousand
   * entries the float product is exactly nine tenths of the length, so the
   * test is the integer comparison below.
   */
  predicate Stale(b: seq<Probe>, today: Date)
  {
    10 * OldCount(b, today) > 9 * |b|
  }

  /** consecutive_old_files after a batch: reset by any find, then raised by a stale batch. */
  function NextCounter(c: nat, b: seq<Probe>, today: Date): (r: nat)
    ensures r <= c + 1
    ensures Found(b) != {} ==> r <= 1
  {
    (if Found(b) != {} then 0 else c) + (if Stale(b, today) then 1 else 0)
  }

  const BatchSize: nat := 1000

  /** The batched loop: batches of BatchSize in order, stopping after the batch that brings the counter to 3. */
  function ProbeBatches(rs: seq<Probe>, today: Date, c: nat): (r: set<string>)
    decreases |rs|
  {
    if rs == [] then {}
    else
      var n := if |rs| < BatchSize then |rs| else BatchSize;
      var c' := NextCounter(c, rs[..n], today);
      Found(rs[..n]) + (if c' >= 3 then {} else ProbeBatches(rs[n..], today, c'))
  }

  /**
   * One batch of the loop: its finds, and the counter after the finds reset
   * it and a stale batch raises it.
   */
  method ProbeBatch(fs: FileSystem, search: Search, pattern: string, lim: Limits, folder: Path, today: Date,
                    queue: seq<string>, i: nat, end: nat, c0: nat)
    returns (found: set<string>, consecutiveOld: nat)
    requires i <= end <= |queue|
    ensures found == Found(Probes(fs, search, pattern, lim, folder, today, queue)[i..end])
    ensures consecutiveOld == NextCounter(c0, Probes(fs, search, pattern, lim, folder, today, queue)[i..end], today)
  {
    var batchOld: nat;
    ghost var rs := Probes(fs, search, pattern, lim, folder, today, queue);
    found, batchOld, consecutiveOld := {}, 0, c0;
    var j := i;
    while j < end
      invariant i <= j <= end
      invariant found == Found(rs[i..j])
      invariant batchOld == OldCount(rs[i..j], today)
      invariant consecutiveOld == if found != {} then 0 else c0
    {
      var r := CheckFileDate(fs, search, pattern, lim, folder, today, queue[j]);
      assert r == rs[j];
      BatchGrows(rs, i, j, today);
      if r.chart.Some? {
        found := found + {r.chart.value};
        consecutiveOld := 0;
      } else if r.date.Some? && Before(r.date.value, today) {
        batchOld := batchOld + 1;
      }
      j := j + 1;
    }
    if 10 * batchOld > 9 * (end - i) {
      consecutiveOld := consecutiveOld + 1;
    }
  }

  /** Found and OldCount of a batch grown by one probe. */
  lemma BatchGrows(rs: seq<Probe>, i: nat, j: nat, today: Date)
    requires i <= j < |rs|
    ensures Found(rs[i..j + 1]) == Found(rs[i..j]) + (if rs[j].chart.Some? then {rs[j].chart.value} else {})
    ensures OldCount(rs[i..j + 1], today) == OldCount(rs[i..j], today) +
      (if rs[j].chart.None? && rs[j].date.Some? && Before(rs[j].date.value, today) then 1 else 0)
  {
    assert rs[i..j + 1][..j - i] == rs[i..j];
    assert rs[i..j + 1][j - i] == rs[j];
  }

  /** The loop's view of ProbeBatches: one batch taken off the front of what is left. */
  lemma ProbeBatchesUnfold(rs: seq<Probe>, today: Date, i: nat, end: nat, c: nat)
    requires i < |rs| && end == (if |rs| - i < BatchSize then |rs| else i + BatchSize)
    ensures ProbeBatches(rs[i..], today, c) ==
      Found(rs[i..end]) +
      (if NextCounter(c, rs[i..end], today) >= 3 then {} else ProbeBatches(rs[end..], today, NextCounter(c, rs[i..end], today)))
  {
    assert rs[i..][..end - i] == rs[i..end];
    assert rs[i..][end - i..] == rs[end..];
  }

  /** The batched probe loop over the reverse-sorted queue. */
  method ProbeQueue(fs: FileSystem, search: Search, pattern: string, lim: Limits, folder: Path, today: Date, queue: seq<string>)
    returns (charts: set<string>)
    ensures charts == ProbeBatches(Probes(fs, search, pattern, lim, folder, today, queue), today, 0)
  {
    ghost var rs := Probes(fs, search, pattern, lim, folder, today, queue);
    charts := {};
    var consecutiveOld: nat := 0;
    var i := 0;
    while i < |queue|
      invariant 0 <= i <= |queue| && consecutiveOld < 3
      invariant charts + ProbeBatches(rs[i..], today, consecutiveOld) == ProbeBatches(rs, today, 0)
      decreases |queue| - i
    {
      var end := if |queue| - i < BatchSize then |queue| else i + BatchSize;
      ProbeBatchesUnfold(rs, today, i, end, consecutiveOld);
      var found, counter := ProbeBatch(fs, search, pattern, lim, folder, today, queue, i, end, consecutiveOld);
      charts := charts + found;
      consecutiveOld := counter;
      i := end;
      if consecutiveOld >= 3 {
        return;
      }
    }
    assert rs[i..] == [];
  }

  /** Every identifier of the probe loop came from a probe that found it. */
  lemma {:induction false} ProbeSound(rs: seq<Probe>, today: Date, c: nat, x: string)
    requires x in ProbeBatches(rs, today, c)
    ensures exists k | 0 <= k < |rs| :: rs[k].chart == Some(x)
    decreases |rs|
  {
    var n := if |rs| < BatchSize then |rs| else BatchSize;
    FoundMeans(rs[..n]);
    if x in Found(rs[..n]) {
      var k :| 0 <= k < n && rs[..n][k].chart == Some(x);
      assert rs[k].chart == Some(x);
    } else {
      var c' := NextCounter(c, rs[..n], today);
      ProbeSound(rs[n..], today, c', x);
      var k :| 0 <= k < |rs[n..]| && rs[n..][k].chart == Some(x);
      assert rs[n + k].chart == Some(x);
    }
  }

  /**
   * The counter grows by at most one per batch, so with the counter at c the
   * next 3 - c batches are always probed: every identifier they find is kept.
   * From a fresh start, the first three thousand names are never skipped.
   */
  lemma {:induction false} FirstBatchesProbed(rs: seq<Probe>, today: Date, c: nat, k: nat)
    requires c < 3 && k < |rs| && k < (3 - c) * BatchSize && rs[k].chart.Some?
    ensures rs[k].chart.value in ProbeBatches(rs, today, c)
    decreases |rs|
  {
    var n := if |rs| < BatchSize then |rs| else BatchSize;
    if k < n {
      assert rs[..n][k] == rs[k];
      FoundMeans(rs[..n]);
    } else {
      var c' := NextCounter(c, rs[..n], today);
      assert rs[n..][k - n] == rs[k];
      FirstBatchesProbed(rs[n..], today, c', k - n);
    }
  }

  /** A batch with a find can never end the loop: the counter stays at most one. */
  lemma {:induction false} FindKeepsScanning(rs: seq<Probe>, today: Date, c: nat)
    requires |rs| > BatchSize && Found(rs[..BatchSize]) != {}
    ensures ProbeBatches(rs, today, c) == Found(rs[..BatchSize]) + ProbeBatches(rs[BatchSize..], today, NextCounter(c, rs[..BatchSize], today))
  {
  }

  /**
   * The first loop over the candidates: dated names are matched, undated
   * ones queued for the probe when use_creation_time is set.
   */
  method SplitCandidates(search: Search, pattern: string, useCreationTime: bool, lim: Limits, today: Date, candidates: seq<string>)
    returns (p: Partial, needCtimeCheck: seq<string>)
    requires Valid(today)
    ensures p == Collect({}, DatedOutcomes(search, pattern, lim, today, candidates))
    ensures !p.raised ==> needCtimeCheck == Queued(today, candidates, useCreationTime)
  {
    ghost var os := DatedOutcomes(search, pattern, lim, today, candidates);
    p := Partial({}, false);
    needCtimeCheck := [];
    var i := 0;
    while i < |candidates|
      invariant 0 <= i <= |candidates| && !p.raised
      invariant p == Collect({}, os[..i])
      invariant needCtimeCheck == Queued(today, candidates[..i], useCreationTime)
    {
      var name := candidates[i];
      assert candidates[..i + 1][..i] == candidates[..i];
      StepCollect({}, os, i, p);
      if ContainsAny(name, TodayStamps(today)) {
        p := Step(p, Group1Outcome(search(pattern, name), lim.lo, lim.hi));
        if p.raised {
          FailedCollect({}, os, i + 1);
          return;
        }
      } else {
        p := Step(p, Skip);
        if useCreationTime {
          needCtimeCheck := needCtimeCheck + [name];
        }
      }
      i := i + 1;
    }
    assert os[..i] == os;
    assert candidates[..i] == candidates;
  }

  /** The fallback listing of the base folder, as the program runs it. */
  method FallbackListing(fs: FileSystem, search: Search, eq: Equipment, lim: Limits, today: Date, names: seq<string>)
    returns (charts: set<string>)
    requires Valid(today)
    ensures charts == FallbackCharts(fs, search, eq, lim, today, names)
  {
    var candidates := Candidates(names, lim.exts);
    var p, needCtimeCheck := SplitCandidates(search, eq.pattern, eq.useCreationTime, lim, today, candidates);
    charts := p.charts;
    if p.raised {
      return;
    }
    if !eq.useCreationTime {
      NothingQueuedWithoutCreationTime(today, candidates);
    }
    if needCtimeCheck != [] && eq.useCreationTime {
      var sorted := SortDesc(needCtimeCheck);
      var found := ProbeQueue(fs, search, eq.pattern, lim, eq.base, today, sorted);
      charts := charts + found;
    }
  }

  /** The fallback: dated names first; the probe loop over the undated queue unless an exception ended it. */
  function FallbackCharts(fs: FileSystem, search: Search, eq: Equipment, lim: Limits, today: Date, names: seq<string>): set<string>
    requires Valid(today)
  {
    var candidates := Candidates(names, lim.exts);
    var p := Collect({}, DatedOutcomes(search, eq.pattern, lim, today, candidates));
    if p.raised then p.charts
    else p.charts + ProbeBatches(Probes(fs, search, eq.pattern, lim, eq.base, today,
                                        SortDesc(Queued(today, candidates, eq.useCreationTime))), today, 0)
  }

  // ------------------------------------------------------------ the scanner

  /** scan_directory_fast, as one function of the share. */
  function FastScan(fs: FileSystem, search: Search, eq: Equipment, lim: Limits, today: Date): set<string>
    requires Valid(today)
  {
    if !Exists(fs, eq.base) then {}
    else match FastTodayFolder(fs, eq.base, eq.id, today)
      case None =>
        if eq.scanType != FileOnly then {}
        else (match ListDir(fs, eq.base)
              case None => {}
              case Some(es) => FallbackCharts(fs, search, eq, lim, today, Names(es)))
      case Some(folder) => Collect({}, WalkOutcomes(search, eq, lim, WalkPath(fs, folder))).charts
  }

  /** scan_directory_fast */
  method ScanDirectoryFast(fs: FileSystem, search: Search, eq: Equipment, lim: Limits, today: Date)
    returns (charts: set<string>)
    requires Valid(today)
    ensures charts == FastScan(fs, search, eq, lim, today)
    ensures !Exists(fs, eq.base) ==> charts == {}
    ensures FastTodayFolder(fs, eq.base, eq.id, today).None? && eq.scanType != FileOnly ==> charts == {}
    ensures forall c | c in charts :: ChartNumberVerdict(c, lim.lo, lim.hi) == Accept
  {
    FastScanValidates(fs, search, eq, lim, today);
    charts := {};
    if !Exists(fs, eq.base) {
      return;
    }
    var todayFolder := FastTodayFolder(fs, eq.base, eq.id, today);
    if todayFolder.None? {
      if eq.scanType == FileOnly {
        var listing := ListDir(fs, eq.base);
        if listing.Some? {
          charts := FallbackListing(fs, search, eq, lim, today, Names(listing.value));
        }
      }
      return;
    }
    var p := WalkScan(fs, search, eq, lim, todayFolder.value);
    charts := p.charts;
  }

  // ------------------------------------------------------------ properties

  lemma {:induction false} WalkOutcomesMembers(search: Search, eq: Equipment, lim: Limits, steps: seq<WalkStep>, o: Outcome)
    requires o in WalkOutcomes(search, eq, lim, steps)
    ensures exists t | 0 <= t < |steps| :: o in StepOutcomes(search, eq, lim, steps[t])
    decreases |steps|
  {
    var n := |steps| - 1;
    if o !in StepOutcomes(search, eq, lim, steps[n]) {
      WalkOutcomesMembers(search, eq, lim, steps[..n], o);
      var t :| 0 <= t < n && o in StepOutcomes(search, eq, lim, steps[..n][t]);
      assert steps[..n][t] == steps[t];
    }
  }

  /** The triple an outcome came from holds a file or folder whose name gave it. */
  predicate WalkedFrom(search: Search, eq: Equipment, lim: Limits, w: WalkStep, c: string)
  {
    (ScansFiles(eq.scanType) && exists f | f in w.files :: EntryOutcome(search, eq.pattern, lim, f.name, true) == Add(c)) ||
    (eq.scanType == Both && exists d | d in w.dirs :: EntryOutcome(search, eq.pattern, lim, d.name, false) == Add(c))
  }

  lemma StepSound(search: Search, eq: Equipment, lim: Limits, w: WalkStep, c: string)
    requires Add(c) in StepOutcomes(search, eq, lim, w)
    ensures WalkedFrom(search, eq, lim, w, c)
  {
    var fileOs: seq<Outcome> := if ScansFiles(eq.scanType) then EntryOutcomes(search, eq.pattern, lim, w.files, true) else [];
    var dirOs: seq<Outcome> := if eq.scanType == Both then EntryOutcomes(search, eq.pattern, lim, w.dirs, false) else [];
    if Add(c) in fileOs {
      var j :| 0 <= j < |fileOs| && fileOs[j] == Add(c);
      assert w.files[j] in w.files;
    } else {
      assert Add(c) in dirOs;
      var j :| 0 <= j < |dirOs| && dirOs[j] == Add(c);
      assert w.dirs[j] in w.dirs;
    }
  }

  /**
   * What the walk branch returns came from a walked file with a configured
   * extension (for 'file' and 'both') or a walked folder (for 'both' only),
   * whose name matched with a valid group 1. No date enters the decision.
   */
  lemma WalkSound(search: Search, eq: Equipment, lim: Limits, steps: seq<WalkStep>, c: string)
    requires c in Collect({}, WalkOutcomes(search, eq, lim, steps)).charts
    ensures exists t | 0 <= t < |steps| :: WalkedFrom(search, eq, lim, steps[t], c)
  {
    var os := WalkOutcomes(search, eq, lim, steps);
    CollectSound(os, c);
    var k :| 0 <= k < |os| && os[k] == Add(c);
    WalkOutcomesMembers(search, eq, lim, steps, Add(c));
    var t :| 0 <= t < |steps| && Add(c) in StepOutcomes(search, eq, lim, steps[t]);
    StepSound(search, eq, lim, steps[t], c);
  }

  /**
   * A name the fallback may take a number from: it has a configured extension,
   * group 1 of its match is that valid number, and either today's date is in
   * the name or (with use_creation_time) it is a file created today.
   */
  predicate FreshName(fs: FileSystem, search: Search, eq: Equipment, lim: Limits, today: Date, name: string, c: string)
    requires Valid(today)
  {
    HasExtension(name, lim.exts) &&
    search(eq.pattern, name).Some? && |search(eq.pattern, name).value| >= 1 &&
    search(eq.pattern, name).value[0] == Some(c) && ChartNumberVerdict(c, lim.lo, lim.hi) == Accept &&
    (ContainsAny(name, TodayStamps(today)) ||
     (eq.useCreationTime && IsFile(fs, Child(eq.base, name)) && Locate(fs, Child(eq.base, name)).value.created == Some(today)))
  }

  /** Every number of the fallback listing comes from a fresh name of the listing. */
  lemma FallbackIsFresh(fs: FileSystem, search: Search, eq: Equipment, lim: Limits, today: Date, names: seq<string>, c: string)
    requires Valid(today) && c in FallbackCharts(fs, search, eq, lim, today, names)
    ensures exists name | name in names :: FreshName(fs, search, eq, lim, today, name, c)
  {
    var candidates := Candidates(names, lim.exts);
    var os := DatedOutcomes(search, eq.pattern, lim, today, candidates);
    var p := Collect({}, os);
    if c in p.charts {
      CollectSound(os, c);
      var k :| 0 <= k < |os| && os[k] == Add(c);
      assert candidates[k] in candidates;
      assert FreshName(fs, search, eq, lim, today, candidates[k], c);
    } else {
      var sorted := SortDesc(Queued(today, candidates, eq.useCreationTime));
      var rs := Probes(fs, search, eq.pattern, lim, eq.base, today, sorted);
      ProbeSound(rs, today, 0, c);
      var k :| 0 <= k < |rs| && rs[k].chart == Some(c);
      assert sorted[k] in multiset(sorted);
      assert sorted[k] in Queued(today, candidates, eq.useCreationTime);
      assert FreshName(fs, search, eq, lim, today, sorted[k], c);
    }
  }

  /** Whatever branch it takes, the scanner returns only numbers its validator accepts. */
  lemma FastScanValidates(fs: FileSystem, search: Search, eq: Equipment, lim: Limits, today: Date)
    requires Valid(today)
    ensures forall c | c in FastScan(fs, search, eq, lim, today) :: ChartNumberVerdict(c, lim.lo, lim.hi) == Accept
  {
    forall c | c in FastScan(fs, search, eq, lim, today)
      ensures ChartNumberVerdict(c, lim.lo, lim.hi) == Accept
    {
      match FastTodayFolder(fs, eq.base, eq.id, today)
      case None =>
        var es := ListDir(fs, eq.base).value;
        FallbackIsFresh(fs, search, eq, lim, today, Names(es), c);
      case Some(folder) =>
        var steps := WalkPath(fs, folder);
        WalkSound(search, eq, lim, steps, c);
        var t :| 0 <= t < |steps| && WalkedFrom(search, eq, lim, steps[t], c);
    }
  }

  // --------------------------------------- flat equipment: walked undated

  /**
   * get_today_folder_path hands every id without a dated layout (SP, HFA,
   * IOL700, ...) its base folder, so the scanner walks the whole share and
   * never reaches the dated-name and creation-date filters of the listing
   * branch. The example: an HFA share holding one PDF, created a year before
   * today, with no date in its name.
   */
  function ExampleToday(): Date { Date(2025, 1, 18) }

  function ExampleFile(): Entry { Entry("123.pdf", false, Some(Date(2024, 1, 18)), true, []) }

  function ExampleShare(): FileSystem
  {
    FileSystem(map["HFA" := Entry("HFA", true, Some(Date(2024, 1, 1)), true, [ExampleFile()])])
  }

  function ExampleEquipment(): Equipment { Equipment("HFA", Path("HFA", []), "(\\d+)", FileOnly, true) }

  function ExampleLimits(): Limits { Limits(Int(1), Int(1000), [".pdf"]) }

  /** A pattern engine under which every name yields the group "123". */
  function ExampleSearch(): Search { (p: string, n: string) => Some([Some("123")]) }

  lemma ExampleNumberValid()
    ensures ChartNumberVerdict("123", Int(1), Int(1000)) == Accept
  {
    assert DigitsValue("123") == 123 by {
      assert "123"[..2] == "12" && "12"[..1] == "1" && "1"[..0] == "";
    }
  }

  lemma ExampleWalk()
    ensures WalkPath(ExampleShare(), ExampleEquipment().base) == [WalkStep(ExampleEquipment().base, [], [ExampleFile()])]
  {
    var root := ExampleShare().mounts["HFA"];
    assert SubDirs(root.children) == [] && NonDirs(root.children) == [ExampleFile()];
    assert WalkChildren(ExampleEquipment().base, root, 0) == [];
  }

  lemma ExampleFileMatches()
    ensures EntryOutcome(ExampleSearch(), ExampleEquipment().pattern, ExampleLimits(), "123.pdf", true) == Add("123")
  {
    assert Lower("123.pdf") == "123.pdf";
    assert EndsWith(Lower("123.pdf"), [".pdf"][0]);
    ExampleNumberValid();
  }

  /** The old, undated file is counted as today's: the walk applies no date filter. */
  lemma FlatEquipmentWalkedUndated()
    ensures Before(ExampleFile().created.value, ExampleToday())
    ensures !ContainsAny(ExampleFile().name, TodayStamps(ExampleToday()))
    ensures "123" in FastScan(ExampleShare(), ExampleSearch(), ExampleEquipment(), ExampleLimits(), ExampleToday())
  {
    var base := ExampleEquipment().base;
    var steps := WalkPath(ExampleShare(), base);
    ExampleWalk();
    ExampleFileMatches();
    assert FastTodayFolder(ExampleShare(), base, "HFA", ExampleToday()) == Some(base);
    assert steps[..0] == [];
    assert WalkOutcomes(ExampleSearch(), ExampleEquipment(), ExampleLimits(), steps) == [Add("123")];
  }
}
