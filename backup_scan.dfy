/**
 * The backup-style scan (backup_style_scan.py): it walks a share and keeps
 * every file whose full path text holds one of four date strings (today's
 * and yesterday's MM.DD, today's YYYYMMDD and YYYY-MM-DD), counting every
 * file it visits. No creation date is read.
 */
module BackupScan {
  import opened Strings
  import opened Dates
  import opened Files

  /** The four date strings, for a day that has a yesterday in the modelled range. */
  function DatePatternsFor(d: Date): (ps: seq<string>)
    requires Valid(d) && d != Date(1000, 1, 1)
    ensures |ps| == 4
  {
    [MonthDay(d), MonthDay(Yesterday(d)), Compact(d), Dashed(d)]
  }

  /** os.path.join(root, filename) for each file of one walk step, in listing order. */
  function StepPaths(w: WalkStep): (r: seq<string>)
    ensures |r| == |w.files|
  {
    seq(|w.files|, i requires 0 <= i < |w.files| => PathText(Child(w.dir, w.files[i].name)))
  }

  /** Every file path of a walk, in visit order. */
  function AllPaths(steps: seq<WalkStep>): seq<string>
  {
    if steps == [] then [] else AllPaths(steps[..|steps| - 1]) + StepPaths(steps[|steps| - 1])
  }

  /** The path text contains one of the date strings. */
  predicate Dated(path: string, patterns: seq<string>)
  {
    ContainsAny(path, patterns)
  }

  /** The paths kept, in the order they were visited. */
  function KeptPaths(paths: seq<string>, patterns: seq<string>): (r: seq<string>)
    ensures |r| <= |paths|
  {
    if paths == [] then []
    else
      var last := paths[|paths| - 1];
      KeptPaths(paths[..|paths| - 1], patterns) + (if Dated(last, patterns) then [last] else [])
  }

  /** A path is kept iff it was visited and holds a date string. */
  lemma {:induction false} KeptPathsMeaning(paths: seq<string>, patterns: seq<string>)
    ensures forall x | x in KeptPaths(paths, patterns) :: x in paths && Dated(x, patterns)
    ensures forall x | x in paths && Dated(x, patterns) :: x in KeptPaths(paths, patterns)
  {
    if paths != [] {
      var init := paths[..|paths| - 1];
      KeptPathsMeaning(init, patterns);
      assert forall x | x in init :: x in paths;
      assert forall x | x in paths :: x in init || x == paths[|paths| - 1];
    }
  }

  lemma KeptPathsSnoc(ps: seq<string>, x: string, patterns: seq<string>)
    ensures KeptPaths(ps + [x], patterns) == KeptPaths(ps, patterns) + (if Dated(x, patterns) then [x] else [])
  {
    assert (ps + [x])[..|ps|] == ps;
  }

  /** The inner loop over one directory's files. */
  method ScanStep(matching0: seq<string>, total0: nat, ghost before: seq<string>, w: WalkStep, patterns: seq<string>)
    returns (matching: seq<string>, totalScanned: nat)
    requires total0 == |before| && matching0 == KeptPaths(before, patterns)
    ensures totalScanned == |before + StepPaths(w)|
    ensures matching == KeptPaths(before + StepPaths(w), patterns)
  {
    ghost var paths := StepPaths(w);
    matching, totalScanned := matching0, total0;
    var j := 0;
    assert before + paths[..0] == before;
    while j < |w.files|
      invariant 0 <= j <= |w.files|
      invariant totalScanned == |before| + j
      invariant matching == KeptPaths(before + paths[..j], patterns)
    {
      totalScanned := totalScanned + 1;
      var filePath := PathText(Child(w.dir, w.files[j].name));
      assert (before + paths[..j + 1])[..|before| + j] == before + paths[..j];
      assert (before + paths[..j + 1])[|before| + j] == filePath;
      if Dated(filePath, patterns) {
        matching := matching + [filePath];
      }
      j := j + 1;
    }
    assert paths[..j] == paths;
  }

  /** scan_with_path_date_filter: the kept paths and total_scanned. */
  method ScanWithPathDateFilter(fs: FileSystem, source: Path, patterns: seq<string>)
    returns (matching: seq<string>, totalScanned: nat)
    ensures totalScanned == |AllPaths(WalkPath(fs, source))|
    ensures matching == KeptPaths(AllPaths(WalkPath(fs, source)), patterns)
  {
    var steps := WalkPath(fs, source);
    matching := [];
    totalScanned := 0;
    var k := 0;
    while k < |steps|
      invariant 0 <= k <= |steps|
      invariant totalScanned == |AllPaths(steps[..k])|
      invariant matching == KeptPaths(AllPaths(steps[..k]), patterns)
    {
      assert steps[..k + 1][..k] == steps[..k];
      matching, totalScanned := ScanStep(matching, totalScanned, AllPaths(steps[..k]), steps[k], patterns);
      k := k + 1;
    }
    assert steps[..k] == steps;
  }

  /** The matched count never exceeds the files scanned, and every kept path holds a date string. */
  lemma MatchedWithinTotal(fs: FileSystem, source: Path, patterns: seq<string>)
    ensures |KeptPaths(AllPaths(WalkPath(fs, source)), patterns)| <= |AllPaths(WalkPath(fs, source))|
    ensures forall x | x in KeptPaths(AllPaths(WalkPath(fs, source)), patterns) ::
      exists k | 0 <= k < |patterns| :: Contains(x, patterns[k])
  {
    KeptPathsMeaning(AllPaths(WalkPath(fs, source)), patterns);
  }

  /** A file under yesterday's MM.DD folder is kept too: the filter looks back one day. */
  lemma YesterdayKept(path: string, d: Date)
    requires Valid(d) && d != Date(1000, 1, 1)
    requires Contains(path, MonthDay(Yesterday(d)))
    ensures Dated(path, DatePatternsFor(d))
  {
    assert DatePatternsFor(d)[1] == MonthDay(Yesterday(d));
  }

  /** One line of the summary: the share's name, the files scanned and the files matched. */
  datatype BackupResult = BackupResult(name: string, total: nat, matched: nat)

  /** The shares that exist, in the order they are listed. */
  function Reachable(fs: FileSystem, shares: seq<(string, Path)>): (r: seq<(string, Path)>)
    ensures |r| <= |shares|
    ensures forall x | x in r :: x in shares && Exists(fs, x.1)
    ensures forall x | x in shares && Exists(fs, x.1) :: x in r
  {
    if shares == [] then []
    else
      var last := shares[|shares| - 1];
      Reachable(fs, shares[..|shares| - 1]) + (if Exists(fs, last.1) then [last] else [])
  }

  lemma ReachableNext(fs: FileSystem, shares: seq<(string, Path)>, i: nat)
    requires i < |shares|
    ensures Reachable(fs, shares[..i + 1]) ==
      Reachable(fs, shares[..i]) + (if Exists(fs, shares[i].1) then [shares[i]] else [])
  {
    assert shares[..i + 1][..i] == shares[..i];
  }

  /** The summary line of one share scanned with the given date strings. */
  function ResultOf(fs: FileSystem, share: (string, Path), patterns: seq<string>): (r: BackupResult)
    ensures r.matched <= r.total
  {
    var paths := AllPaths(WalkPath(fs, share.1));
    BackupResult(share.0, |paths|, |KeptPaths(paths, patterns)|)
  }

  /** test_backup_style_scan: one result per reachable share, in order; an unreachable one is skipped. */
  method TestBackupStyleScan(fs: FileSystem, shares: seq<(string, Path)>, d: Date) returns (results: seq<BackupResult>)
    requires Valid(d) && d != Date(1000, 1, 1)
    ensures |results| == |Reachable(fs, shares)|
    ensures forall k | 0 <= k < |results| :: results[k] == ResultOf(fs, Reachable(fs, shares)[k], DatePatternsFor(d))
    ensures forall k | 0 <= k < |results| :: results[k].matched <= results[k].total
  {
    var patterns := DatePatternsFor(d);
    results := [];
    var i := 0;
    while i < |shares|
      invariant 0 <= i <= |shares|
      invariant |results| == |Reachable(fs, shares[..i])|
      invariant forall k | 0 <= k < |results| :: results[k] == ResultOf(fs, Reachable(fs, shares[..i])[k], patterns)
    {
      ReachableNext(fs, shares, i);
      var share := shares[i];
      if Exists(fs, share.1) {
        var matching, total := ScanWithPathDateFilter(fs, share.1, patterns);
        results := results + [BackupResult(share.0, total, |matching|)];
      }
      i := i + 1;
    }
    assert shares[..i] == shares;
  }
}
