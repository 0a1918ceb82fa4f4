/**
 * The date-debug script (debug_scan_date.py): for a given day it resolves
 * each equipment's dated folder with the longest-token-first substitution,
 * decides item by item whether to test it (should_scan), keeps the numbers
 * whose group 1 parses and lies in range (no leading-zero check), and counts
 * the items it reports; then it tests the fundus share (substituted without
 * the DD step) and the secondary share (names holding the compact date).
 */
module DateDebug {
  import opened Strings
  import opened Dates
  import opened Files
  import opened Validation
  import opened Patterns
  import opened Scan
  import opened DatePaths

  /** config['equipment'][id]: base path, pattern, scan_type, and folder_structure when the key is present. */
  datatype DebugEquipment = DebugEquipment(base: Path, pattern: string, scanType: ScanType, folderStructure: Option<string>)

  /** config['validation']: file_extensions (None when missing) and the two bounds. */
  datatype DebugValidation = DebugValidation(exts: Option<seq<string>>, lo: Bound, hi: Bound)

  // ------------------------------------------------------ one equipment

  /**
   * should_scan: files need a valid extension under 'file' and 'both'; under
   * 'both' every folder is tested; any other scan_type tests nothing. None
   * is the KeyError of a missing file_extensions, raised only when the
   * extension test is reached.
   */
  function ShouldScan(t: ScanType, e: Entry, exts: Option<seq<string>>): (r: Option<bool>)
    ensures t == OtherType ==> r == Some(false)
    ensures e.isDir ==> r == Some(t == Both)
    ensures !e.isDir && t != OtherType ==>
      r == (if exts.None? then None else Some(EndsWithAny(Lower(e.name), exts.value)))
  {
    match t
    case OtherType => Some(false)
    case FileOnly => if e.isDir then Some(false) else if exts.None? then None else Some(EndsWithAny(Lower(e.name), exts.value))
    case Both => if e.isDir then Some(true) else if exts.None? then None else Some(EndsWithAny(Lower(e.name), exts.value))
  }

  /** What one item does: its outcome on the set, and whether test_count goes up. */
  datatype Tested = Tested(outcome: Outcome, counted: bool)

  /**
   * One item: a tested item that does not match is counted; a match whose
   * group 1 parses and lies in range is added and counted; any other match
   * is passed over (the bare except); group(1) on a pattern without groups
   * raises out of the loop.
   */
  function TestItem(search: Search, eq: DebugEquipment, v: DebugValidation, e: Entry): (t: Tested)
    ensures t.outcome.Add? ==> (ShouldScan(eq.scanType, e, v.exts) == Some(true) &&
      search(eq.pattern, e.name).Some? && |search(eq.pattern, e.name).value| >= 1 &&
      search(eq.pattern, e.name).value[0] == Some(t.outcome.chart) &&
      RangeOnlyAccepts(Some(t.outcome.chart), v.lo, v.hi))
    ensures t.counted ==> ShouldScan(eq.scanType, e, v.exts) == Some(true)
    ensures t.counted <==> t.outcome.Add? || (ShouldScan(eq.scanType, e, v.exts) == Some(true) && search(eq.pattern, e.name).None?)
  {
    match ShouldScan(eq.scanType, e, v.exts)
    case None => Tested(Fail, false)
    case Some(scan) =>
      if !scan then Tested(Skip, false)
      else match search(eq.pattern, e.name)
        case None => Tested(Skip, true)
        case Some(gs) =>
          match Group(gs, 1)
          case NoSuchGroup => Tested(Fail, false)
          case Unmatched => Tested(Skip, false)
          case Captured(c) => if RangeOnlyAccepts(Some(c), v.lo, v.hi) then Tested(Add(c), true) else Tested(Skip, false)
  }

  function TestItems(search: Search, eq: DebugEquipment, v: DebugValidation, es: seq<Entry>): (ts: seq<Tested>)
    ensures |ts| == |es|
  {
    seq(|es|, k requires 0 <= k < |es| => TestItem(search, eq, v, es[k]))
  }

  function Outcomes(ts: seq<Tested>): (os: seq<Outcome>)
    ensures |os| == |ts| && forall k | 0 <= k < |ts| :: os[k] == ts[k].outcome
  {
    seq(|ts|, k requires 0 <= k < |ts| => ts[k].outcome)
  }

  /** test_count: how many items are counted. */
  function CountedIn(ts: seq<Tested>): (n: nat)
    ensures n <= |ts|
  {
    if ts == [] then 0 else CountedIn(ts[..|ts| - 1]) + (if ts[|ts| - 1].counted then 1 else 0)
  }

  /** What the script reports for one equipment. */
  datatype EquipmentDebug =
    | BaseMissing
    | FolderMissing(folder: Path)
    | ScanError
    | Scanned(folder: Path, charts: set<string>, tested: nat)

  /** The folder scanned: the substituted one when folder_structure is present, else the base. */
  function TargetFolder(eq: DebugEquipment, d: Date): Path
    requires Valid(d)
  {
    if eq.folderStructure.Some? then Join(eq.base, LongestFirstSubstitution(eq.folderStructure.value, d)) else eq.base
  }

  /** One equipment of the script, as a function of the share. */
  function EquipmentDebugOf(fs: FileSystem, search: Search, eq: DebugEquipment, v: DebugValidation, d: Date): (r: EquipmentDebug)
    requires Valid(d)
    ensures r.BaseMissing? <==> !Exists(fs, eq.base)
    ensures r.FolderMissing? ==> eq.folderStructure.Some? && r.folder == TargetFolder(eq, d)
    ensures r.Scanned? ==> r.folder == TargetFolder(eq, d) && ListDir(fs, r.folder).Some? &&
                           r.tested <= |ListDir(fs, r.folder).value|
  {
    if !Exists(fs, eq.base) then BaseMissing
    else
      var folder := TargetFolder(eq, d);
      if eq.folderStructure.Some? && !Exists(fs, folder) then FolderMissing(folder)
      else match ListDir(fs, folder)
        case None => ScanError
        case Some(es) =>
          var ts := TestItems(search, eq, v, es);
          var p := Collect({}, Outcomes(ts));
          if p.raised then ScanError else Scanned(folder, p.charts, CountedIn(ts))
  }

  /** The item loop of one equipment: the set and test_count, or raised. */
  method TestListing(search: Search, eq: DebugEquipment, v: DebugValidation, es: seq<Entry>)
    returns (p: Partial, tested: nat)
    ensures p == Collect({}, Outcomes(TestItems(search, eq, v, es)))
    ensures !p.raised ==> tested == CountedIn(TestItems(search, eq, v, es))
  {
    ghost var ts := TestItems(search, eq, v, es);
    ghost var os := Outcomes(ts);
    p := Partial({}, false);
    tested := 0;
    var i := 0;
    while i < |es|
      invariant 0 <= i <= |es| && !p.raised
      invariant p == Collect({}, os[..i])
      invariant tested == CountedIn(ts[..i])
    {
      var t := TestItem(search, eq, v, es[i]);
      StepCollect({}, os, i, p);
      p := Step(p, t.outcome);
      if p.raised {
        FailedCollect({}, os, i + 1);
        return;
      }
      assert ts[..i + 1][..i] == ts[..i];
      if t.counted {
        tested := tested + 1;
      }
      i := i + 1;
    }
    assert os[..i] == os && ts[..i] == ts;
  }

  method DebugEquipmentScan(fs: FileSystem, search: Search, eq: DebugEquipment, v: DebugValidation, d: Date)
    returns (r: EquipmentDebug)
    requires Valid(d)
    ensures r == EquipmentDebugOf(fs, search, eq, v, d)
  {
    if !Exists(fs, eq.base) {
      return BaseMissing;
    }
    var folder := eq.base;
    if eq.folderStructure.Some? {
      folder := Join(eq.base, LongestFirstSubstitution(eq.folderStructure.value, d));
      if !Exists(fs, folder) {
        return FolderMissing(folder);
      }
    }
    var listing := ListDir(fs, folder);
    if listing.None? {
      return ScanError;
    }
    var p, tested := TestListing(search, eq, v, listing.value);
    if p.raised {
      return ScanError;
    }
    r := Scanned(folder, p.charts, tested);
  }

  /**
   * Every number reported passed only the range check: it is group 1 of a
   * tested item, parses, and lies within the bounds (a leading zero is kept).
   */
  lemma ScannedRangeOnly(fs: FileSystem, search: Search, eq: DebugEquipment, v: DebugValidation, d: Date, c: string)
    requires Valid(d)
    requires EquipmentDebugOf(fs, search, eq, v, d).Scanned?
    requires c in EquipmentDebugOf(fs, search, eq, v, d).charts
    ensures RangeOnlyAccepts(Some(c), v.lo, v.hi)
    ensures exists e | e in ListDir(fs, TargetFolder(eq, d)).value ::
      ShouldScan(eq.scanType, e, v.exts) == Some(true) && search(eq.pattern, e.name).Some? &&
      |search(eq.pattern, e.name).value| >= 1 && search(eq.pattern, e.name).value[0] == Some(c)
  {
    var es := ListDir(fs, TargetFolder(eq, d)).value;
    var os := Outcomes(TestItems(search, eq, v, es));
    CollectSound(os, c);
    var k :| 0 <= k < |os| && os[k] == Add(c);
    assert es[k] in es;
  }

  /** An item a scan_type does not test never adds a number, so any other scan_type finds nothing. */
  lemma OtherTypeFindsNothing(fs: FileSystem, search: Search, eq: DebugEquipment, v: DebugValidation, d: Date)
    requires Valid(d) && eq.scanType == OtherType
    requires EquipmentDebugOf(fs, search, eq, v, d).Scanned?
    ensures EquipmentDebugOf(fs, search, eq, v, d).charts == {}
    ensures EquipmentDebugOf(fs, search, eq, v, d).tested == 0
  {
    var es := ListDir(fs, TargetFolder(eq, d)).value;
    var ts := TestItems(search, eq, v, es);
    NothingCounted(ts);
    var os := Outcomes(ts);
    CollectWithoutFail(os);
  }

  lemma {:induction false} NothingCounted(ts: seq<Tested>)
    requires forall k | 0 <= k < |ts| :: !ts[k].counted
    ensures CountedIn(ts) == 0
    decreases |ts|
  {
    if ts != [] {
      NothingCounted(ts[..|ts| - 1]);
    }
  }

  /** A leading-zero number in range is added: the script's check is only int() and the range. */
  lemma LeadingZeroAdded(search: Search, eq: DebugEquipment, v: DebugValidation, e: Entry)
    requires eq.scanType == Both && e.isDir
    requires search(eq.pattern, e.name) == Some([Some("0123")])
    requires v.lo == Int(1) && v.hi == Int(1000)
    ensures TestItem(search, eq, v, e) == Tested(Add("0123"), true)
    ensures ChartNumberVerdict("0123", v.lo, v.hi) == Reject
  {
    RangeOnlyIsWeaker("0123", v.lo, v.hi);
  }

  /** The equipment loop: one report per configured equipment, in configuration order. */
  method DebugAllEquipment(fs: FileSystem, search: Search, eqs: seq<DebugEquipment>, v: DebugValidation, d: Date)
    returns (rs: seq<EquipmentDebug>)
    requires Valid(d)
    ensures |rs| == |eqs|
    ensures forall k | 0 <= k < |eqs| :: rs[k] == EquipmentDebugOf(fs, search, eqs[k], v, d)
  {
    rs := [];
    var i := 0;
    while i < |eqs|
      invariant 0 <= i <= |eqs| && |rs| == i
      invariant forall k | 0 <= k < i :: rs[k] == EquipmentDebugOf(fs, search, eqs[k], v, d)
    {
      var r := DebugEquipmentScan(fs, search, eqs[i], v, d);
      rs := rs + [r];
      i := i + 1;
    }
  }

  // ----------------------------------------------------- fundus shares

  /** match.group(1) of every matching name, None included; None when a pattern without groups raises. */
  function GroupOneAll(search: Search, pattern: string, names: seq<string>): (r: Option<set<Option<string>>>)
    ensures r.None? <==> exists k | 0 <= k < |names| :: search(pattern, names[k]) == Some([])
    ensures r.Some? ==> forall g :: g in r.value <==>
      exists k | 0 <= k < |names| :: search(pattern, names[k]).Some? &&
        |search(pattern, names[k]).value| >= 1 && search(pattern, names[k]).value[0] == g
    decreases |names|
  {
    if names == [] then Some({})
    else
      var init := names[..|names| - 1];
      var last := names[|names| - 1];
      assert forall k | 0 <= k < |init| :: init[k] == names[k];
      match GroupOneAll(search, pattern, init)
      case None => None
      case Some(gs) =>
        match search(pattern, last)
        case None => Some(gs)
        case Some(m) => if m == [] then None else Some(gs + {m[0]})
  }

  method GroupOneLoop(search: Search, pattern: string, names: seq<string>) returns (r: Option<set<Option<string>>>)
    ensures r == GroupOneAll(search, pattern, names)
  {
    var found: set<Option<string>> := {};
    var i := 0;
    while i < |names|
      invariant 0 <= i <= |names|
      invariant GroupOneAll(search, pattern, names[..i]) == Some(found)
    {
      assert names[..i + 1][..i] == names[..i];
      var m := search(pattern, names[i]);
      if m.Some? {
        if m.value == [] {
          assert search(pattern, names[i]) == Some([]);
          return None;
        }
        found := found + {m.value[0]};
      }
      i := i + 1;
    }
    assert names[..i] == names;
    r := Some(found);
  }

  /** special_items['안저']['folders'][key]: the share path, its pattern, and folder_structure ('' when missing). */
  datatype FundusShare = FundusShare(path: Path, pattern: string, folderStructure: string)

  /** The fundus test: the dated folder's group-1 values, or why there are none; FundusCrash ends the script. */
  datatype FundusDebug =
    | NotConfigured
    | PathMissing
    | NoStructure
    | DatedFolderMissing(folder: Path)
    | FundusMatched(folder: Path, charts: set<Option<string>>)
    | FundusCrash

  /** os.path.dirname of a folder below a base. */
  function Parent(p: Path): Path
  {
    if p.comps == [] then p else Path(p.root, p.comps[..|p.comps| - 1])
  }

  /**
   * The fundus share: substituted without the DD step; its listing and a
   * pattern without groups raise out of the script, as does listing the
   * parent of a missing dated folder.
   */
  function FundusDebugOf(fs: FileSystem, search: Search, share: Option<FundusShare>, d: Date): (r: FundusDebug)
    requires Valid(d)
    ensures r.FundusMatched? ==> share.Some? && r.folder == Join(share.value.path, LongestFirstNoDay(share.value.folderStructure, d))
    ensures r.NoStructure? <==> share.Some? && Exists(fs, share.value.path) && share.value.folderStructure == ""
  {
    if share.None? then NotConfigured
    else if !Exists(fs, share.value.path) then PathMissing
    else if share.value.folderStructure == "" then NoStructure
    else
      var folder := Join(share.value.path, LongestFirstNoDay(share.value.folderStructure, d));
      if Exists(fs, folder) then
        match ListDir(fs, folder)
        case None => FundusCrash
        case Some(es) =>
          match GroupOneAll(search, share.value.pattern, Names(es))
          case None => FundusCrash
          case Some(gs) => FundusMatched(folder, gs)
      else if Exists(fs, Parent(folder)) && ListDir(fs, Parent(folder)).None? then FundusCrash
      else DatedFolderMissing(folder)
  }

  /** The secondary test: the names holding the compact date and their group-1 values. */
  datatype SecondaryDebug =
    | SecondaryNotConfigured
    | SecondaryPathMissing
    | SecondaryError
    | SecondaryMatched(todayFiles: seq<string>, charts: set<Option<string>>)

  /** The names that contain today's YYYYMMDD stamp, in listing order. */
  function DatedNames(names: seq<string>, stamp: string): (r: seq<string>)
    ensures forall x | x in r :: x in names && Contains(x, stamp)
    ensures forall x | x in names && Contains(x, stamp) :: x in r
    decreases |names|
  {
    if names == [] then []
    else
      var rest := DatedNames(names[1..], stamp);
      if Contains(names[0], stamp) then [names[0]] + rest else rest
  }

  /** The secondary share, listed flat; every error inside is caught and reported. */
  function SecondaryDebugOf(fs: FileSystem, search: Search, share: Option<FundusShare>, d: Date): (r: SecondaryDebug)
    requires Valid(d)
    ensures r.SecondaryMatched? ==> forall x | x in r.todayFiles :: Contains(x, Compact(d))
  {
    if share.None? then SecondaryNotConfigured
    else if !Exists(fs, share.value.path) then SecondaryPathMissing
    else match ListDir(fs, share.value.path)
      case None => SecondaryError
      case Some(es) =>
        var today := DatedNames(Names(es), Compact(d));
        match GroupOneAll(search, share.value.pattern, today)
        case None => SecondaryError
        case Some(gs) => SecondaryMatched(today, gs)
  }

  /** The script's output, or nothing when an exception ends it before the report file is written. */
  datatype DebugRun = Aborted | Report(equipment: seq<EquipmentDebug>, fundus: FundusDebug, secondary: SecondaryDebug)

  function DebugRunOf(fs: FileSystem, search: Search, eqs: seq<DebugEquipment>, v: DebugValidation,
                      fundus: Option<FundusShare>, secondary: Option<FundusShare>, d: Date): (r: DebugRun)
    requires Valid(d)
    ensures r.Aborted? <==> FundusDebugOf(fs, search, fundus, d).FundusCrash?
    ensures r.Report? ==> |r.equipment| == |eqs|
  {
    var f := FundusDebugOf(fs, search, fundus, d);
    if f.FundusCrash? then Aborted
    else Report(seq(|eqs|, k requires 0 <= k < |eqs| => EquipmentDebugOf(fs, search, eqs[k], v, d)), f,
                SecondaryDebugOf(fs, search, secondary, d))
  }

  method FundusDebugScan(fs: FileSystem, search: Search, share: Option<FundusShare>, d: Date) returns (r: FundusDebug)
    requires Valid(d)
    ensures r == FundusDebugOf(fs, search, share, d)
  {
    if share.None? {
      return NotConfigured;
    }
    if !Exists(fs, share.value.path) {
      return PathMissing;
    }
    if share.value.folderStructure == "" {
      return NoStructure;
    }
    var folder := Join(share.value.path, LongestFirstNoDay(share.value.folderStructure, d));
    if Exists(fs, folder) {
      var listing := ListDir(fs, folder);
      if listing.None? {
        return FundusCrash;
      }
      var gs := GroupOneLoop(search, share.value.pattern, Names(listing.value));
      if gs.None? {
        return FundusCrash;
      }
      return FundusMatched(folder, gs.value);
    }
    if Exists(fs, Parent(folder)) && ListDir(fs, Parent(folder)).None? {
      return FundusCrash;
    }
    r := DatedFolderMissing(folder);
  }

  method SecondaryDebugScan(fs: FileSystem, search: Search, share: Option<FundusShare>, d: Date) returns (r: SecondaryDebug)
    requires Valid(d)
    ensures r == SecondaryDebugOf(fs, search, share, d)
  {
    if share.None? {
      return SecondaryNotConfigured;
    }
    if !Exists(fs, share.value.path) {
      return SecondaryPathMissing;
    }
    var listing := ListDir(fs, share.value.path);
    if listing.None? {
      return SecondaryError;
    }
    var today := DatedNames(Names(listing.value), Compact(d));
    var gs := GroupOneLoop(search, share.value.pattern, today);
    if gs.None? {
      return SecondaryError;
    }
    r := SecondaryMatched(today, gs.value);
  }

  /** debug_scan: equipment, then the fundus share, then the secondary share. */
  method DebugScan(fs: FileSystem, search: Search, eqs: seq<DebugEquipment>, v: DebugValidation,
                   fundus: Option<FundusShare>, secondary: Option<FundusShare>, d: Date)
    returns (r: DebugRun)
    requires Valid(d)
    ensures r == DebugRunOf(fs, search, eqs, v, fundus, secondary, d)
  {
    var rs := DebugAllEquipment(fs, search, eqs, v, d);
    var f := FundusDebugScan(fs, search, fundus, d);
    if f.FundusCrash? {
      return Aborted;
    }
    var s := SecondaryDebugScan(fs, search, secondary, d);
    r := Report(rs, f, s);
  }
}
