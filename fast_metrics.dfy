/**
 * The composite counts of the fast report (daily_report_fast.py): the fundus
 * count, a union over the configured fundus folders, and the surgery
 * reservation tally over the cells of a reservation workbook.
 */
module FastMetrics {
  import opened Strings
  import opened Dates
  import opened Files
  import opened Patterns
  import opened Scan
  import opened FastReport
  import opened Metrics

  // ------------------------------------------------------------- fundus

  /**
   * check_item_date: an item of the folder (file or folder alike) whose
   * creation date is today, and whose name matches with a valid group 1.
   * Every exception on the way gives None.
   */
  function FundusProbe(fs: FileSystem, search: Search, pattern: string, lim: Limits, folder: Path, today: Date, name: string): (r: Option<string>)
    ensures forall c :: r == Some(c) <==>
      (Exists(fs, Child(folder, name)) && Locate(fs, Child(folder, name)).value.created == Some(today) &&
       Group1Outcome(search(pattern, name), lim.lo, lim.hi) == Add(c))
  {
    var e := Locate(fs, Child(folder, name));
    if e.Some? && e.value.created == Some(today) then
      match Group1Outcome(search(pattern, name), lim.lo, lim.hi)
      case Add(c) => Some(c)
      case Skip => None
      case Fail => None
    else None
  }

  /** The numbers the creation-date probes of a folder's undated items find. */
  function ProbedSet(fs: FileSystem, search: Search, pattern: string, lim: Limits, folder: Path, today: Date, names: seq<string>): (r: set<string>)
    decreases |names|
  {
    if names == [] then {}
    else
      var last := names[|names| - 1];
      ProbedSet(fs, search, pattern, lim, folder, today, names[..|names| - 1]) +
      (match FundusProbe(fs, search, pattern, lim, folder, today, last) case Some(c) => {c} case None => {})
  }

  /**
   * One configured fundus folder: nothing when its text holds '[TODO', when
   * it does not exist, or when it cannot be listed; otherwise the dated items
   * are matched first (an exception ends this folder), then every undated
   * item is probed.
   */
  function FolderCharts(fs: FileSystem, search: Search, pattern: string, lim: Limits, today: Date, f: FolderRef): set<string>
    requires Valid(today)
  {
    if Contains(f.text, "[TODO") || !Exists(fs, f.path) then {}
    else match ListDir(fs, f.path)
      case None => {}
      case Some(es) =>
        var names := Names(es);
        var p := Collect({}, DatedOutcomes(search, pattern, lim, today, names));
        if p.raised then p.charts
        else p.charts + ProbedSet(fs, search, pattern, lim, f.path, today, Queued(today, names, true))
  }

  /** fundus_charts: the union over the configured folders. */
  function FundusCharts(fs: FileSystem, search: Search, pattern: string, lim: Limits, today: Date, folders: seq<FolderRef>): set<string>
    requires Valid(today)
    decreases |folders|
  {
    if folders == [] then {}
    else FundusCharts(fs, search, pattern, lim, today, folders[..|folders| - 1]) +
         FolderCharts(fs, search, pattern, lim, today, folders[|folders| - 1])
  }

  /** The probes of one folder's undated items, in listing order. */
  method ProbeFolder(fs: FileSystem, search: Search, pattern: string, lim: Limits, folder: Path, today: Date, queue: seq<string>)
    returns (found: set<string>)
    ensures found == ProbedSet(fs, search, pattern, lim, folder, today, queue)
  {
    found := {};
    var j := 0;
    while j < |queue|
      invariant 0 <= j <= |queue|
      invariant found == ProbedSet(fs, search, pattern, lim, folder, today, queue[..j])
    {
      assert queue[..j + 1][..j] == queue[..j];
      var r := FundusProbe(fs, search, pattern, lim, folder, today, queue[j]);
      if r.Some? {
        found := found + {r.value};
      }
      j := j + 1;
    }
    assert queue[..j] == queue;
  }

  /** The body of the loop over the fundus folders. */
  method ScanFundusFolder(fs: FileSystem, search: Search, pattern: string, lim: Limits, today: Date, f: FolderRef)
    returns (charts: set<string>)
    requires Valid(today)
    ensures charts == FolderCharts(fs, search, pattern, lim, today, f)
  {
    charts := {};
    if Contains(f.text, "[TODO") || !Exists(fs, f.path) {
      return;
    }
    var listing := ListDir(fs, f.path);
    if listing.None? {
      return;
    }
    var names := Names(listing.value);
    var p, candidates := SplitCandidates(search, pattern, true, lim, today, names);
    charts := p.charts;
    if p.raised {
      return;
    }
    var found := ProbeFolder(fs, search, pattern, lim, f.path, today, candidates);
    charts := charts + found;
  }

  /** calculate_fundus: the size of the union over the configured folders. */
  method CalculateFundus(fs: FileSystem, search: Search, pattern: string, lim: Limits, today: Date, folders: seq<FolderRef>)
    returns (n: nat)
    requires Valid(today)
    ensures n == |FundusCharts(fs, search, pattern, lim, today, folders)|
  {
    var fundusCharts: set<string> := {};
    var i := 0;
    while i < |folders|
      invariant 0 <= i <= |folders|
      invariant fundusCharts == FundusCharts(fs, search, pattern, lim, today, folders[..i])
    {
      assert folders[..i + 1][..i] == folders[..i];
      var charts := ScanFundusFolder(fs, search, pattern, lim, today, folders[i]);
      fundusCharts := fundusCharts + charts;
      i := i + 1;
    }
    assert folders[..i] == folders;
    n := |fundusCharts|;
  }

  /** The fundus set of two lists of folders is the union of their sets. */
  lemma {:induction false} FundusChartsAppend(fs: FileSystem, search: Search, pattern: string, lim: Limits, today: Date, a: seq<FolderRef>, b: seq<FolderRef>)
    requires Valid(today)
    ensures FundusCharts(fs, search, pattern, lim, today, a + b) ==
            FundusCharts(fs, search, pattern, lim, today, a) + FundusCharts(fs, search, pattern, lim, today, b)
    decreases |b|
  {
    if b == [] {
      assert a + b == a;
    } else {
      assert (a + b)[..|a + b| - 1] == a + b[..|b| - 1];
      FundusChartsAppend(fs, search, pattern, lim, today, a, b[..|b| - 1]);
    }
  }

  /** A placeholder folder adds nothing, wherever it stands in the list. */
  lemma PlaceholderAddsNothing(fs: FileSystem, search: Search, pattern: string, lim: Limits, today: Date,
                               a: seq<FolderRef>, f: FolderRef, b: seq<FolderRef>)
    requires Valid(today) && Contains(f.text, "[TODO")
    ensures FundusCharts(fs, search, pattern, lim, today, a + [f] + b) == FundusCharts(fs, search, pattern, lim, today, a + b)
  {
    FundusChartsAppend(fs, search, pattern, lim, today, a + [f], b);
    FundusChartsAppend(fs, search, pattern, lim, today, a, [f]);
    FundusChartsAppend(fs, search, pattern, lim, today, a, b);
    assert [f][..0] == [];
  }

  /** What the probes found: an undated item created today whose name matches and validates. */
  lemma {:induction false} ProbedSetSound(fs: FileSystem, search: Search, pattern: string, lim: Limits, folder: Path, today: Date, names: seq<string>, c: string)
    requires c in ProbedSet(fs, search, pattern, lim, folder, today, names)
    ensures exists k | 0 <= k < |names| :: FundusProbe(fs, search, pattern, lim, folder, today, names[k]) == Some(c)
    decreases |names|
  {
    var n := |names| - 1;
    if FundusProbe(fs, search, pattern, lim, folder, today, names[n]) != Some(c) {
      ProbedSetSound(fs, search, pattern, lim, folder, today, names[..n], c);
      var k :| 0 <= k < n && FundusProbe(fs, search, pattern, lim, folder, today, names[..n][k]) == Some(c);
      assert names[..n][k] == names[k];
    }
  }

  /** An item of a fundus folder whose name gave number c on a day it counts for. */
  predicate FundusFresh(fs: FileSystem, search: Search, pattern: string, lim: Limits, today: Date, f: FolderRef, name: string, c: string)
    requires Valid(today)
  {
    Group1Outcome(search(pattern, name), lim.lo, lim.hi) == Add(c) &&
    (ContainsAny(name, TodayStamps(today)) ||
     (Exists(fs, Child(f.path, name)) && Locate(fs, Child(f.path, name)).value.created == Some(today)))
  }

  /** Every number of one folder comes from a listed item that carries today's date or was created today. */
  lemma FolderChartsSound(fs: FileSystem, search: Search, pattern: string, lim: Limits, today: Date, f: FolderRef, c: string)
    requires Valid(today) && c in FolderCharts(fs, search, pattern, lim, today, f)
    ensures !Contains(f.text, "[TODO") && ListDir(fs, f.path).Some?
    ensures exists name | name in Names(ListDir(fs, f.path).value) :: FundusFresh(fs, search, pattern, lim, today, f, name, c)
  {
    var names := Names(ListDir(fs, f.path).value);
    var os := DatedOutcomes(search, pattern, lim, today, names);
    var p := Collect({}, os);
    if c in p.charts {
      CollectSound(os, c);
      var k :| 0 <= k < |os| && os[k] == Add(c);
      assert names[k] in names && FundusFresh(fs, search, pattern, lim, today, f, names[k], c);
    } else {
      var queue := Queued(today, names, true);
      ProbedSetSound(fs, search, pattern, lim, f.path, today, queue, c);
      var k :| 0 <= k < |queue| && FundusProbe(fs, search, pattern, lim, f.path, today, queue[k]) == Some(c);
      assert queue[k] in queue;
      assert FundusFresh(fs, search, pattern, lim, today, f, queue[k], c);
    }
  }

  /**
   * Every fundus number comes from a configured folder that is not a
   * placeholder and can be listed, through an item that carries today's date
   * in its name or was created today, and whose name gives a valid number.
   */
  lemma {:induction false} FundusSound(fs: FileSystem, search: Search, pattern: string, lim: Limits, today: Date, folders: seq<FolderRef>, c: string)
    requires Valid(today) && c in FundusCharts(fs, search, pattern, lim, today, folders)
    ensures exists k | 0 <= k < |folders| ::
      !Contains(folders[k].text, "[TODO") && ListDir(fs, folders[k].path).Some? &&
      exists name | name in Names(ListDir(fs, folders[k].path).value) :: FundusFresh(fs, search, pattern, lim, today, folders[k], name, c)
    decreases |folders|
  {
    var n := |folders| - 1;
    if c in FolderCharts(fs, search, pattern, lim, today, folders[n]) {
      FolderChartsSound(fs, search, pattern, lim, today, folders[n], c);
    } else {
      FundusSound(fs, search, pattern, lim, today, folders[..n], c);
      var k :| 0 <= k < n && !Contains(folders[..n][k].text, "[TODO") && ListDir(fs, folders[..n][k].path).Some? &&
        exists name | name in Names(ListDir(fs, folders[..n][k].path).value) :: FundusFresh(fs, search, pattern, lim, today, folders[..n][k], name, c);
      assert folders[..n][k] == folders[k];
    }
  }

  /**
   * A dated item is never lost: in a listable, configured folder, an item with
   * today's date in its name and a valid group 1 is counted, provided no item
   * before it raised.
   */
  lemma DatedItemCounted(fs: FileSystem, search: Search, pattern: string, lim: Limits, today: Date, folders: seq<FolderRef>, i: nat, k: nat, c: string)
    requires Valid(today) && i < |folders|
    requires !Contains(folders[i].text, "[TODO") && ListDir(fs, folders[i].path).Some?
    requires k < |ListDir(fs, folders[i].path).value|
    requires var names := Names(ListDir(fs, folders[i].path).value);
      ContainsAny(names[k], TodayStamps(today)) && Group1Outcome(search(pattern, names[k]), lim.lo, lim.hi) == Add(c) &&
      forall j | 0 <= j < k :: !DatedOutcome(search, pattern, lim, today, names[j]).Fail?
    ensures c in FundusCharts(fs, search, pattern, lim, today, folders)
  {
    var f := folders[i];
    var names := Names(ListDir(fs, f.path).value);
    var os := DatedOutcomes(search, pattern, lim, today, names);
    CollectMeaning({}, os);
    var n := FirstFail(os);
    assert os[k] == Add(c);
    assert k < n;
    assert os[..n][k] == Add(c);
    assert c in FolderCharts(fs, search, pattern, lim, today, f);
    assert folders == folders[..i] + [f] + folders[i + 1..];
    FundusChartsAppend(fs, search, pattern, lim, today, folders[..i] + [f], folders[i + 1..]);
    FundusChartsAppend(fs, search, pattern, lim, today, folders[..i], [f]);
    assert [f][..0] == [];
  }

  // ------------------------------------------------------- reservations

  /** One cell of the reservation workbook: sheet name, coordinate and value (None when empty). */
  datatype Cell = Cell(sheet: string, coord: string, value: Option<string>)

  /** config['reservation']: the keyword lists of the three surgery kinds. */
  datatype Keywords = Keywords(verion: seq<string>, lensx: seq<string>, ex500: seq<string>)

  const SurgeryMarker: string := "수술방법:"

  /** A cell that names a surgery method: a value whose lower-case text holds '수술방법:'. */
  predicate Qualifies(c: Cell)
  {
    c.value.Some? && Contains(Lower(c.value.value), SurgeryMarker)
  }

  /** cell_key: sheet, coordinate and lower-case text joined by '_'. */
  function CellKey(c: Cell): string
    requires c.value.Some?
  {
    c.sheet + "_" + c.coord + "_" + Lower(c.value.value)
  }

  /** found_cells after the given cells. */
  function Keys(cs: seq<Cell>): set<string>
  {
    set k | 0 <= k < |cs| && Qualifies(cs[k]) :: CellKey(cs[k])
  }

  /** The if/elif chain: Verion keywords first, then LenSx, then EX500. */
  function CountCell(t: Tally, text: string, kws: Keywords): Tally
  {
    if ContainsAny(text, kws.verion) then t.(verion := t.verion + 1)
    else if ContainsAny(text, kws.lensx) then t.(lensx := t.lensx + 1)
    else if ContainsAny(text, kws.ex500) then t.(ex500 := t.ex500 + 1)
    else t
  }

  /** The counts after the given cells, in reading order. */
  function TallyOf(cs: seq<Cell>, kws: Keywords): Tally
    decreases |cs|
  {
    if cs == [] then Tally(0, 0, 0)
    else
      var init, c := cs[..|cs| - 1], cs[|cs| - 1];
      if Qualifies(c) && CellKey(c) !in Keys(init) then CountCell(TallyOf(init, kws), Lower(c.value.value), kws)
      else TallyOf(init, kws)
  }

  lemma KeysNext(cs: seq<Cell>, i: nat)
    requires i < |cs|
    ensures Keys(cs[..i + 1]) == Keys(cs[..i]) + (if Qualifies(cs[i]) then {CellKey(cs[i])} else {})
  {
    var a, b := cs[..i + 1], cs[..i];
    forall x | x in Keys(a) ensures x in Keys(b) + (if Qualifies(cs[i]) then {CellKey(cs[i])} else {}) {
      var k :| 0 <= k < |a| && Qualifies(a[k]) && CellKey(a[k]) == x;
      if k < i { assert b[k] == a[k]; }
    }
    forall x | x in Keys(b) ensures x in Keys(a) {
      var k :| 0 <= k < |b| && Qualifies(b[k]) && CellKey(b[k]) == x;
      assert a[k] == b[k];
    }
    if Qualifies(cs[i]) {
      assert a[i] == cs[i];
    }
  }

  /**
   * process_reservation_file over a workbook's cells (None when the workbook
   * cannot be read, which leaves all counts at zero).
   */
  method ProcessReservationFile(workbook: Option<seq<Cell>>, kws: Keywords) returns (counts: Tally)
    ensures workbook.None? ==> counts == Tally(0, 0, 0)
    ensures workbook.Some? ==> counts == TallyOf(workbook.value, kws)
  {
    counts := Tally(0, 0, 0);
    if workbook.None? {
      return;
    }
    var cells := workbook.value;
    var foundCells: set<string> := {};
    var i := 0;
    while i < |cells|
      invariant 0 <= i <= |cells|
      invariant foundCells == Keys(cells[..i])
      invariant counts == TallyOf(cells[..i], kws)
    {
      var c := cells[i];
      KeysNext(cells, i);
      assert cells[..i + 1][..i] == cells[..i] && cells[..i + 1][i] == c;
      i := i + 1;
      if c.value.None? {
        continue;
      }
      var cellValue := Lower(c.value.value);
      if !Contains(cellValue, SurgeryMarker) {
        continue;
      }
      var cellKey := c.sheet + "_" + c.coord + "_" + cellValue;
      if cellKey in foundCells {
        continue;
      }
      foundCells := foundCells + {cellKey};
      if ContainsAny(cellValue, kws.verion) {
        counts := counts.(verion := counts.verion + 1);
      } else if ContainsAny(cellValue, kws.lensx) {
        counts := counts.(lensx := counts.lensx + 1);
      } else if ContainsAny(cellValue, kws.ex500) {
        counts := counts.(ex500 := counts.ex500 + 1);
      }
    }
    assert cells[..i] == cells;
  }

  /** A cell whose key was already seen, or that names no surgery, changes no count. */
  lemma RepeatedKeyCountsOnce(cs: seq<Cell>, c: Cell, kws: Keywords)
    requires Qualifies(c) ==> CellKey(c) in Keys(cs)
    ensures TallyOf(cs + [c], kws) == TallyOf(cs, kws)
  {
    assert (cs + [c])[..|cs|] == cs;
  }

  /**
   * A new surgery cell adds exactly one to the first kind whose keywords it
   * holds, Verion before LenSx before EX500, and at most one in all.
   */
  lemma NewCellCountsFirstKind(cs: seq<Cell>, c: Cell, kws: Keywords)
    requires Qualifies(c) && CellKey(c) !in Keys(cs)
    ensures var before, after, text := TallyOf(cs, kws), TallyOf(cs + [c], kws), Lower(c.value.value);
      Total(after) <= Total(before) + 1 &&
      (ContainsAny(text, kws.verion) ==> after == before.(verion := before.verion + 1)) &&
      (!ContainsAny(text, kws.verion) && ContainsAny(text, kws.lensx) ==> after == before.(lensx := before.lensx + 1)) &&
      (!ContainsAny(text, kws.verion) && !ContainsAny(text, kws.lensx) && ContainsAny(text, kws.ex500) ==>
        after == before.(ex500 := before.ex500 + 1))
  {
    assert (cs + [c])[..|cs|] == cs;
  }

  /** The three counts together never exceed the number of distinct surgery cells. */
  lemma {:induction false} TallyBound(cs: seq<Cell>, kws: Keywords)
    ensures Total(TallyOf(cs, kws)) <= |Keys(cs)|
    decreases |cs|
  {
    if cs != [] {
      var n := |cs| - 1;
      var init := cs[..n];
      TallyBound(init, kws);
      KeysNext(cs, n);
      assert cs[..n + 1] == cs;
      if Qualifies(cs[n]) && CellKey(cs[n]) !in Keys(init) {
        assert TallyOf(cs, kws) == CountCell(TallyOf(init, kws), Lower(cs[n].value.value), kws);
        assert Keys(cs) == Keys(init) + {CellKey(cs[n])};
        assert |Keys(cs)| == |Keys(init)| + 1;
      } else {
        assert TallyOf(cs, kws) == TallyOf(init, kws);
        assert Keys(cs) == Keys(init);
      }
    }
  }
}
