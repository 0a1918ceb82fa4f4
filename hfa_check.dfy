/**
 * The HFA diagnostic script (check_hfa.py): it resolves today's HFA
 * folder (falling back to the base), matches the first ten folder names and
 * the first ten file names with a valid extension, validates what the
 * two-group rule picks with a validator that also gives a reason, and when
 * nothing is recognised names the first cause that applies: an empty
 * folder, no name matching, or every identifier invalid.
 */
module HfaCheck {
  import opened Strings
  import opened Dates
  import opened Files
  import opened Validation
  import opened Patterns
  import opened DatePaths

  /** config['equipment']['HFA'], read as a whole: None when loading it or one of its keys fails. */
  datatype HfaConfig = HfaConfig(base: Path, pattern: string, folderStructure: string)

  /**
   * config['validation']: file_extensions (None when the key is missing),
   * the two bounds, and allow_leading_zero, which is read but never used.
   */
  datatype ValidationConfig = ValidationConfig(exts: Option<seq<string>>, lo: Bound, hi: Bound, allowLeadingZero: Option<bool>)

  /** A name that matched, with what the two-group rule picked (None when group 1 was empty and lastindex was 1). */
  datatype Match = Match(name: string, chart: Option<string>)

  /** A picked identifier the validator refused, with the reason it gave. */
  datatype Rejected = Rejected(name: string, chart: string, reason: Reason)

  /** Why nothing was recognised, in the order the script tests. */
  datatype Cause = Recognised | EmptyFolder | NoMatch | AllInvalid(first: Option<Reason>) | Unexplained

  /**
   * How the script ends: exit(1) at step 1 (configuration), 2 (missing base)
   * or 4 (unlistable folder); an uncaught exception; or the full report.
   */
  datatype Report =
    | Stopped(step: nat)
    | Crashed
    | Done(scanPath: Path, dirs: seq<string>, files: seq<string>,
           folderMatches: seq<Match>, fileMatches: seq<Match>,
           validFolder: seq<string>, validFile: seq<string>,
           invalidFolder: seq<Rejected>, invalidFile: seq<Rejected>,
           charts: set<string>, cause: Cause)

  /** The first n elements, or all of them when there are fewer. */
  function Take(xs: seq<string>, n: nat): (r: seq<string>)
    ensures |r| <= n && |r| <= |xs| && r == xs[..|r|]
    ensures |xs| >= n ==> |r| == n
    ensures |xs| < n ==> r == xs
  {
    if |xs| <= n then xs else xs[..n]
  }

  /** Step 3: today's folder by the longest-token-first substitution, or the base when it is missing. */
  function ScanPath(fs: FileSystem, cfg: HfaConfig, today: Date): (p: Path)
    requires Valid(today)
    ensures Exists(fs, Join(cfg.base, LongestFirstSubstitution(cfg.folderStructure, today))) ==>
              p == Join(cfg.base, LongestFirstSubstitution(cfg.folderStructure, today))
    ensures !Exists(fs, Join(cfg.base, LongestFirstSubstitution(cfg.folderStructure, today))) ==> p == cfg.base
  {
    var todayFolder := Join(cfg.base, LongestFirstSubstitution(cfg.folderStructure, today));
    if Exists(fs, todayFolder) then todayFolder else cfg.base
  }

  /** One name tested against the pattern: no match, a match with its pick, or the pick's crash. */
  function NamePick(search: MatchSearch, pattern: string, name: string): (r: Option<Pick>)
    ensures r.None? <==> search(pattern, name).None?
    ensures r.Some? ==> r.value == ExtractLastIndexGuarded(search(pattern, name).value)
  {
    match search(pattern, name)
    case None => None
    case Some(gs) => Some(ExtractLastIndexGuarded(gs))
  }

  /**
   * A match whose two sequential groups both captured the empty text, such as
   * `(\d*)_(\d*)` on "_" (lastindex 2), picks the empty identifier, which the
   * script lists as invalid because it is not a number; it does not crash.
   */
  lemma EmptyGroupsListedInvalid(lo: int, hi: int)
    ensures Sequential(MatchObject([Some(""), Some("")], Some(2)))
    ensures ExtractLastIndexGuarded(MatchObject([Some(""), Some("")], Some(2))) == Picked(Some(""))
    ensures ValidateAll([Match("_", Some(""))], Int(lo), Int(hi)) == Some(([], [Rejected("_", "", NotANumber)]))
  {
    assert LastIndex([Some(""), Some("")]) == Some(2);
    var ms := [Match("_", Some(""))];
    assert DiagnoseChartNumber(Some(""), Int(lo), Int(hi)) == Checked(false, NotANumber);
    ValidateStep(ms, 0, Int(lo), Int(hi));
    assert ms[..0] == [] && ms[..1] == ms;
    assert [] + [Rejected("_", "", NotANumber)] == [Rejected("_", "", NotANumber)];
  }

  /**
   * The same two empty captures from a group that encloses the other, such
   * as `((\d*))` on "abc" (lastindex 1), pick None; validating None raises
   * AttributeError, which the script does not catch, so step 6 crashes.
   */
  lemma NestedEmptyGroupsCrash(lo: int, hi: int)
    ensures Coherent(MatchObject([Some(""), Some("")], Some(1)))
    ensures !Sequential(MatchObject([Some(""), Some("")], Some(1)))
    ensures ExtractLastIndexGuarded(MatchObject([Some(""), Some("")], Some(1))) == Picked(None)
    ensures ValidateAll([Match("abc", None)], Int(lo), Int(hi)).None?
  {
    assert LastIndex([Some(""), Some("")]) == Some(2);
    var ms := [Match("abc", None)];
    assert ms[..0] == [];
    assert DiagnoseChartNumber(None, Int(lo), Int(hi)).Crash?;
  }

  /** A pick crashes on this name. */
  predicate CrashesOn(search: MatchSearch, pattern: string, name: string)
  {
    NamePick(search, pattern, name) == Some(PickCrash)
  }

  /** The matching loop of step 5 over some names: the matches in order, or None once a pick crashes. */
  function MatchAll(search: MatchSearch, pattern: string, names: seq<string>): (r: Option<seq<Match>>)
    ensures r.None? <==> exists k | 0 <= k < |names| :: CrashesOn(search, pattern, names[k])
    ensures r.Some? ==> |r.value| <= |names|
    ensures r.Some? ==> forall m | m in r.value ::
      m.name in names && NamePick(search, pattern, m.name) == Some(Picked(m.chart))
    ensures r.Some? ==> forall k | 0 <= k < |names| && search(pattern, names[k]).Some? ::
      exists m | m in r.value :: m.name == names[k]
    decreases |names|
  {
    if names == [] then Some([])
    else
      var init := names[..|names| - 1];
      var last := names[|names| - 1];
      assert forall k | 0 <= k < |init| :: init[k] == names[k];
      match MatchAll(search, pattern, init)
      case None => None
      case Some(ms) =>
        match NamePick(search, pattern, last)
        case None => Some(ms)
        case Some(PickCrash) => None
        case Some(Picked(c)) => Some(ms + [Match(last, c)])
  }

  /** The names of step 5 that pass the extension check: the lowered name ends with a valid extension. */
  function WithExtension(names: seq<string>, exts: seq<string>): (r: seq<string>)
    ensures forall x | x in r :: x in names && EndsWithAny(Lower(x), exts)
    ensures forall x | x in names && EndsWithAny(Lower(x), exts) :: x in r
    ensures |r| <= |names|
    decreases |names|
  {
    if names == [] then []
    else
      var rest := WithExtension(names[1..], exts);
      if EndsWithAny(Lower(names[0]), exts) then [names[0]] + rest else rest
  }

  /** The validations of step 6 over some matches: the valid identifiers and the rejections, or None on a crash. */
  function ValidateAll(ms: seq<Match>, lo: Bound, hi: Bound): (r: Option<(seq<string>, seq<Rejected>)>)
    requires !lo.Absent? && !hi.Absent?
    ensures r.None? <==> exists k | 0 <= k < |ms| :: DiagnoseChartNumber(ms[k].chart, lo, hi).Crash?
    ensures r.Some? ==> |r.value.0| + |r.value.1| == |ms|
    ensures r.Some? ==> forall c | c in r.value.0 ::
      Canonical(c) && lo.Int? && hi.Int? && lo.v <= DigitsValue(c) <= hi.v &&
      exists m | m in ms :: m.chart == Some(c)
    ensures r.Some? ==> forall k | 0 <= k < |ms| && ms[k].chart.Some? &&
      DiagnoseChartNumber(ms[k].chart, lo, hi) == Checked(true, Fine) :: ms[k].chart.value in r.value.0
    decreases |ms|
  {
    if ms == [] then Some(([], []))
    else
      var init := ms[..|ms| - 1];
      var last := ms[|ms| - 1];
      assert forall k | 0 <= k < |init| :: init[k] == ms[k];
      match ValidateAll(init, lo, hi)
      case None => None
      case Some((valid, invalid)) =>
        match DiagnoseChartNumber(last.chart, lo, hi)
        case Crash => None
        case Checked(ok, reason) =>
          if ok then Some((valid + [last.chart.value], invalid))
          else Some((valid, invalid + [Rejected(last.name, last.chart.value, reason)]))
  }

  /** Step 7: the first cause that applies when no identifier was recognised. */
  function CauseOf(dirs: seq<string>, files: seq<string>, folderMatches: seq<Match>, fileMatches: seq<Match>,
                   validFolder: seq<string>, validFile: seq<string>,
                   invalidFolder: seq<Rejected>, invalidFile: seq<Rejected>, charts: set<string>): Cause
  {
    if |charts| != 0 then Recognised
    else if dirs == [] && files == [] then EmptyFolder
    else if folderMatches == [] && fileMatches == [] then NoMatch
    else if validFolder == [] && validFile == [] then
      AllInvalid(if invalidFolder != [] then Some(invalidFolder[0].reason)
                 else if invalidFile != [] then Some(invalidFile[0].reason) else None)
    else Unexplained
  }

  /** The whole script as one function of the configuration, the share and the day. */
  function HfaReport(fs: FileSystem, search: MatchSearch, cfg: Option<HfaConfig>, v: Option<ValidationConfig>, today: Date): (r: Report)
    requires Valid(today)
    ensures r.Stopped? ==> r.step in {1, 2, 4}
  {
    if cfg.None? then Stopped(1)
    else if !Exists(fs, cfg.value.base) then Stopped(2)
    else
      var scanPath := ScanPath(fs, cfg.value, today);
      match ListDir(fs, scanPath)
      case None => Stopped(4)
      case Some(items) =>
        if v.None? || v.value.exts.None? then Crashed
        else
          var dirs := Names(SubDirs(items));
          var files := Names(NonDirs(items));
          var fm := MatchAll(search, cfg.value.pattern, Take(dirs, 10));
          var gm := MatchAll(search, cfg.value.pattern, WithExtension(Take(files, 10), v.value.exts.value));
          if fm.None? || gm.None? then Crashed
          else if v.value.lo.Absent? || v.value.hi.Absent? || v.value.allowLeadingZero.None? then Crashed
          else
            var fv := ValidateAll(fm.value, v.value.lo, v.value.hi);
            var gv := ValidateAll(gm.value, v.value.lo, v.value.hi);
            if fv.None? || gv.None? then Crashed
            else
              var charts := (set c | c in fv.value.0) + (set c | c in gv.value.0);
              Done(scanPath, dirs, files, fm.value, gm.value, fv.value.0, gv.value.0, fv.value.1, gv.value.1, charts,
                   CauseOf(dirs, files, fm.value, gm.value, fv.value.0, gv.value.0, fv.value.1, gv.value.1, charts))
  }

  /** The matching loop of step 5. */
  method MatchNames(search: MatchSearch, pattern: string, names: seq<string>) returns (r: Option<seq<Match>>)
    ensures r == MatchAll(search, pattern, names)
  {
    var matches: seq<Match> := [];
    var i := 0;
    while i < |names|
      invariant 0 <= i <= |names|
      invariant MatchAll(search, pattern, names[..i]) == Some(matches)
    {
      assert names[..i + 1][..i] == names[..i];
      var m := search(pattern, names[i]);
      if m.Some? {
        var pick := ExtractLastIndexGuarded(m.value);
        if pick.PickCrash? {
          MatchAllCrash(search, pattern, names, i);
          return None;
        }
        matches := matches + [Match(names[i], pick.chart)];
      }
      i := i + 1;
    }
    assert names[..i] == names;
    r := Some(matches);
  }

  /** A crash on one name makes the matching of every longer list crash. */
  lemma MatchAllCrash(search: MatchSearch, pattern: string, names: seq<string>, i: nat)
    requires i < |names| && CrashesOn(search, pattern, names[i])
    ensures MatchAll(search, pattern, names).None?
  {
  }

  lemma ValidateStep(ms: seq<Match>, i: nat, lo: Bound, hi: Bound)
    requires !lo.Absent? && !hi.Absent? && i < |ms|
    ensures ValidateAll(ms[..i + 1], lo, hi) ==
      match ValidateAll(ms[..i], lo, hi)
      case None => None
      case Some((valid, invalid)) =>
        match DiagnoseChartNumber(ms[i].chart, lo, hi)
        case Crash => None
        case Checked(ok, reason) =>
          if ok then Some((valid + [ms[i].chart.value], invalid))
          else Some((valid, invalid + [Rejected(ms[i].name, ms[i].chart.value, reason)]))
  {
    assert ms[..i + 1][..i] == ms[..i];
  }

  lemma ValidateCrash(ms: seq<Match>, i: nat, lo: Bound, hi: Bound)
    requires !lo.Absent? && !hi.Absent? && i < |ms| && DiagnoseChartNumber(ms[i].chart, lo, hi).Crash?
    ensures ValidateAll(ms, lo, hi).None?
  {
  }

  /** The validation loop of step 6. */
  method ValidateMatches(ms: seq<Match>, lo: Bound, hi: Bound) returns (r: Option<(seq<string>, seq<Rejected>)>)
    requires !lo.Absent? && !hi.Absent?
    ensures r == ValidateAll(ms, lo, hi)
  {
    var valid: seq<string> := [];
    var invalid: seq<Rejected> := [];
    var i := 0;
    while i < |ms|
      invariant 0 <= i <= |ms|
      invariant ValidateAll(ms[..i], lo, hi) == Some((valid, invalid))
    {
      ValidateStep(ms, i, lo, hi);
      var d := DiagnoseChartNumber(ms[i].chart, lo, hi);
      if d.Crash? {
        ValidateCrash(ms, i, lo, hi);
        return None;
      }
      if d.ok {
        valid := valid + [ms[i].chart.value];
      } else {
        invalid := invalid + [Rejected(ms[i].name, ms[i].chart.value, d.reason)];
      }
      i := i + 1;
    }
    assert ms[..i] == ms;
    r := Some((valid, invalid));
  }

  /** The script, step by step. */
  method RunHfaCheck(fs: FileSystem, search: MatchSearch, cfg: Option<HfaConfig>, v: Option<ValidationConfig>, today: Date)
    returns (r: Report)
    requires Valid(today)
    ensures r == HfaReport(fs, search, cfg, v, today)
  {
    if cfg.None? {
      return Stopped(1);
    }
    var hfa := cfg.value;
    if !Exists(fs, hfa.base) {
      return Stopped(2);
    }
    var folder := LongestFirstSubstitution(hfa.folderStructure, today);
    var todayFolder := Join(hfa.base, folder);
    var scanPath := if Exists(fs, todayFolder) then todayFolder else hfa.base;
    var items := ListDir(fs, scanPath);
    if items.None? {
      return Stopped(4);
    }
    var files := Names(NonDirs(items.value));
    var dirs := Names(SubDirs(items.value));
    if v.None? || v.value.exts.None? {
      return Crashed;
    }
    var folderMatches := MatchNames(search, hfa.pattern, Take(dirs, 10));
    if folderMatches.None? {
      return Crashed;
    }
    var fileMatches := MatchNames(search, hfa.pattern, WithExtension(Take(files, 10), v.value.exts.value));
    if fileMatches.None? {
      return Crashed;
    }
    if v.value.lo.Absent? || v.value.hi.Absent? || v.value.allowLeadingZero.None? {
      return Crashed;
    }
    var fv := ValidateMatches(folderMatches.value, v.value.lo, v.value.hi);
    if fv.None? {
      return Crashed;
    }
    var gv := ValidateMatches(fileMatches.value, v.value.lo, v.value.hi);
    if gv.None? {
      return Crashed;
    }
    var charts := (set c | c in fv.value.0) + (set c | c in gv.value.0);
    var cause := CauseOf(dirs, files, folderMatches.value, fileMatches.value,
                         fv.value.0, gv.value.0, fv.value.1, gv.value.1, charts);
    r := Done(scanPath, dirs, files, folderMatches.value, fileMatches.value,
              fv.value.0, gv.value.0, fv.value.1, gv.value.1, charts, cause);
  }

  // ----------------------------------------------------------- properties

  /**
   * The report's numbers are the valid picks: each is canonical, in range,
   * and picked from a tested folder name or a tested file name with a valid
   * extension.
   */
  lemma ReportSound(fs: FileSystem, search: MatchSearch, cfg: Option<HfaConfig>, v: Option<ValidationConfig>, today: Date, c: string)
    requires Valid(today)
    requires HfaReport(fs, search, cfg, v, today).Done?
    requires c in HfaReport(fs, search, cfg, v, today).charts
    ensures Canonical(c) && v.value.lo.Int? && v.value.hi.Int? && v.value.lo.v <= DigitsValue(c) <= v.value.hi.v
    ensures var r := HfaReport(fs, search, cfg, v, today);
            (exists m | m in r.folderMatches :: m.chart == Some(c) && m.name in Take(r.dirs, 10)) ||
            (exists m | m in r.fileMatches :: m.chart == Some(c) && m.name in Take(r.files, 10) &&
                                               EndsWithAny(Lower(m.name), v.value.exts.value))
  {
  }

  /**
   * A zero result is always explained: when the numbers are the valid picks,
   * the last cause holds whenever the first two do not.
   */
  lemma ZeroAlwaysExplained(dirs: seq<string>, files: seq<string>, folderMatches: seq<Match>, fileMatches: seq<Match>,
                            validFolder: seq<string>, validFile: seq<string>,
                            invalidFolder: seq<Rejected>, invalidFile: seq<Rejected>, charts: set<string>)
    requires charts == (set c | c in validFolder) + (set c | c in validFile)
    ensures var cause := CauseOf(dirs, files, folderMatches, fileMatches, validFolder, validFile,
                                 invalidFolder, invalidFile, charts);
            cause != Unexplained && (cause == Recognised <==> charts != {})
  {
    if validFolder != [] {
      assert validFolder[0] in charts;
    } else if validFile != [] {
      assert validFile[0] in charts;
    }
  }

  /** A folder name is matched whatever its extension; a file name only with a valid one. */
  lemma ExtensionOnlyForFiles(names: seq<string>, exts: seq<string>, x: string)
    requires x in names
    ensures x in WithExtension(names, exts) <==> EndsWithAny(Lower(x), exts)
  {
  }
}
