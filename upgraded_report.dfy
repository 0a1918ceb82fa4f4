/**
 * The upgraded report (daily_report_upgraded.py): each equipment folder is
 * resolved by substituting YYYY, MM and DD into its folder_structure, its
 * regular files are matched with the two-group extraction rule, and the
 * reservation workbooks are counted by keyword.
 */
module UpgradedReport {
  import opened Strings
  import opened Dates
  import opened Files
  import opened Validation
  import opened Patterns
  import opened Scan
  import opened DatePaths
  import opened Metrics

  /** config['equipment'][id]: the base path, the pattern, and folder_structure (None when the key is missing). */
  datatype EquipmentConfig = EquipmentConfig(base: Path, pattern: string, folderStructure: Option<string>)

  /** What scan_equipment_folder gives back: a set, or the KeyError of a missing folder_structure. */
  datatype EquipmentResult = Charts(charts: set<string>) | MissingStructure

  // ------------------------------------------------------- one folder

  /** The number the two-group rule takes from a name, when the name matches. */
  function Extracted(search: Search, pattern: string, name: string): Option<string>
  {
    match search(pattern, name)
    case None => None
    case Some(gs) => ExtractTwoGroup(gs)
  }

  /**
   * One entry of os.scandir: folders are passed over; a regular file adds its
   * number when the two-group rule gives a non-empty one that validates; the
   * validator's TypeError on a null bound ends the scan.
   */
  function ScandirOutcome(search: Search, pattern: string, lo: Bound, hi: Bound, e: Entry): (o: Outcome)
    ensures o.Add? <==> !e.isDir && Truthy(Extracted(search, pattern, e.name)) &&
                        ChartNumberVerdict(Extracted(search, pattern, e.name).value, lo, hi) == Accept
    ensures o.Add? ==> Extracted(search, pattern, e.name) == Some(o.chart)
    ensures o.Fail? ==> !e.isDir && Truthy(Extracted(search, pattern, e.name)) &&
                        ChartNumberVerdict(Extracted(search, pattern, e.name).value, lo, hi) == Raise
  {
    if e.isDir then Skip
    else
      var c := Extracted(search, pattern, e.name);
      if !Truthy(c) then Skip
      else match ChartNumberVerdict(c.value, lo, hi)
        case Accept => Add(c.value)
        case Reject => Skip
        case Raise => Fail
  }

  function ScandirOutcomes(search: Search, pattern: string, lo: Bound, hi: Bound, es: seq<Entry>): (os: seq<Outcome>)
    ensures |os| == |es|
  {
    seq(|es|, k requires 0 <= k < |es| => ScandirOutcome(search, pattern, lo, hi, es[k]))
  }

  /** scan_files_in_folder: the numbers of the folder's regular files, the partial set on an exception. */
  function FolderFiles(fs: FileSystem, search: Search, pattern: string, lo: Bound, hi: Bound, folder: Path): set<string>
  {
    match ListDir(fs, folder)
    case None => {}
    case Some(es) => Collect({}, ScandirOutcomes(search, pattern, lo, hi, es)).charts
  }

  method ScanFilesInFolder(fs: FileSystem, search: Search, pattern: string, lo: Bound, hi: Bound, folder: Path)
    returns (charts: set<string>)
    ensures charts == FolderFiles(fs, search, pattern, lo, hi, folder)
  {
    charts := {};
    var listing := ListDir(fs, folder);
    if listing.None? {
      return;
    }
    var es := listing.value;
    ghost var os := ScandirOutcomes(search, pattern, lo, hi, es);
    var p := Partial({}, false);
    var i := 0;
    while i < |es|
      invariant 0 <= i <= |es| && !p.raised
      invariant p == Collect({}, os[..i])
    {
      StepCollect({}, os, i, p);
      p := Step(p, ScandirOutcome(search, pattern, lo, hi, es[i]));
      if p.raised {
        FailedCollect({}, os, i + 1);
        charts := p.charts;
        return;
      }
      i := i + 1;
    }
    assert os[..i] == os;
    charts := p.charts;
  }

  /** Every number of a folder scan came from a regular file of the folder, by the two-group rule, and validates. */
  lemma FolderFilesSound(fs: FileSystem, search: Search, pattern: string, lo: Bound, hi: Bound, folder: Path, c: string)
    requires c in FolderFiles(fs, search, pattern, lo, hi, folder)
    ensures ListDir(fs, folder).Some?
    ensures exists e | e in ListDir(fs, folder).value ::
      !e.isDir && Extracted(search, pattern, e.name) == Some(c) && ChartNumberVerdict(c, lo, hi) == Accept
  {
    var es := ListDir(fs, folder).value;
    var os := ScandirOutcomes(search, pattern, lo, hi, es);
    CollectSound(os, c);
    var k :| 0 <= k < |os| && os[k] == Add(c);
    assert es[k] in es;
  }

  /**
   * With integer bounds nothing raises, so the scan is exact: a number is in
   * the set if and only if some regular file of the folder gives it.
   */
  lemma FolderFilesExact(fs: FileSystem, search: Search, pattern: string, lo: int, hi: int, folder: Path, c: string)
    requires ListDir(fs, folder).Some?
    ensures c in FolderFiles(fs, search, pattern, Int(lo), Int(hi), folder) <==>
      exists e | e in ListDir(fs, folder).value :: ScandirOutcome(search, pattern, Int(lo), Int(hi), e) == Add(c)
  {
    var es := ListDir(fs, folder).value;
    var os := ScandirOutcomes(search, pattern, Int(lo), Int(hi), es);
    CollectWithoutFail(os);
    if exists e | e in es :: ScandirOutcome(search, pattern, Int(lo), Int(hi), e) == Add(c) {
      var e :| e in es && ScandirOutcome(search, pattern, Int(lo), Int(hi), e) == Add(c);
      var k :| 0 <= k < |es| && es[k] == e;
      assert os[k] == Add(c);
    }
    if c in FolderFiles(fs, search, pattern, Int(lo), Int(hi), folder) {
      var k :| 0 <= k < |os| && os[k] == Add(c);
      assert es[k] in es;
    }
  }

  // --------------------------------------------------- one equipment

  /** group_a_equipments: scanned at their base when the dated folder is missing. */
  predicate GroupA(id: string)
  {
    id == "SP" || id == "HFA" || id == "FUNDUS"
  }

  /** scan_equipment_folder as one function of the share. */
  function EquipmentScan(fs: FileSystem, search: Search, id: string, eq: EquipmentConfig, lo: Bound, hi: Bound, d: Date): EquipmentResult
    requires Valid(d)
  {
    if !Exists(fs, eq.base) then Charts({})
    else match eq.folderStructure
      case None => MissingStructure
      case Some(t) =>
        var dateFolder := SubstitutedFolder(eq.base, t, d);
        if Exists(fs, dateFolder) then Charts(FolderFiles(fs, search, eq.pattern, lo, hi, dateFolder))
        else if GroupA(id) then Charts(FolderFiles(fs, search, eq.pattern, lo, hi, eq.base))
        else Charts({})
  }

  method ScanEquipmentFolder(fs: FileSystem, search: Search, id: string, eq: EquipmentConfig, lo: Bound, hi: Bound, d: Date)
    returns (r: EquipmentResult)
    requires Valid(d)
    ensures r == EquipmentScan(fs, search, id, eq, lo, hi, d)
    ensures !Exists(fs, eq.base) ==> r == Charts({})
    ensures Exists(fs, eq.base) && eq.folderStructure.None? ==> r == MissingStructure
    ensures Exists(fs, eq.base) && eq.folderStructure.Some? ==>
      var dateFolder := SubstitutedFolder(eq.base, eq.folderStructure.value, d);
      r == Charts(
        if Exists(fs, dateFolder) then FolderFiles(fs, search, eq.pattern, lo, hi, dateFolder)
        else if GroupA(id) then FolderFiles(fs, search, eq.pattern, lo, hi, eq.base)
        else {})
  {
    if !Exists(fs, eq.base) {
      return Charts({});
    }
    if eq.folderStructure.None? {
      return MissingStructure;
    }
    var dateFolder := SubstitutedFolder(eq.base, eq.folderStructure.value, d);
    var charts: set<string> := {};
    if Exists(fs, dateFolder) {
      charts := ScanFilesInFolder(fs, search, eq.pattern, lo, hi, dateFolder);
    } else if GroupA(id) {
      charts := ScanFilesInFolder(fs, search, eq.pattern, lo, hi, eq.base);
    }
    r := Charts(charts);
  }

  /** What scan_all_equipment stores for an equipment: its set, or set() when its scan raised. */
  function Stored(r: EquipmentResult): set<string>
  {
    match r
    case Charts(s) => s
    case MissingStructure => {}
  }

  /**
   * scan_all_equipment: one entry per configured id, whatever order the
   * scans complete in.
   */
  method ScanAllEquipment(fs: FileSystem, search: Search, config: map<string, EquipmentConfig>, lo: Bound, hi: Bound, d: Date)
    returns (results: map<string, set<string>>)
    requires Valid(d)
    ensures results.Keys == config.Keys
    ensures forall id | id in config :: results[id] == Stored(EquipmentScan(fs, search, id, config[id], lo, hi, d))
  {
    results := map[];
    var pending := config.Keys;
    while pending != {}
      invariant pending <= config.Keys
      invariant results.Keys == config.Keys - pending
      invariant forall id | id in results :: results[id] == Stored(EquipmentScan(fs, search, id, config[id], lo, hi, d))
      decreases |pending|
    {
      var id :| id in pending;
      var r := ScanEquipmentFolder(fs, search, id, config[id], lo, hi, d);
      results := results[id := Stored(r)];
      pending := pending - {id};
    }
  }

  /** calculate_glaucoma: the numbers seen on both HFA and OCT. */
  function CalculateGlaucoma(hfa: set<string>, oct: set<string>): (n: nat)
    ensures n <= |hfa| && n <= |oct|
    ensures n == 0 <==> hfa !! oct
    ensures n + |hfa + oct| == |hfa| + |oct|
  {
    CoCount(hfa, oct)
  }

  // ------------------------------------------------------------ fundus

  /** config['fundus_folders'][id]: base path, pattern and folder_structure. */
  datatype FundusFolderConfig = FundusFolderConfig(base: Path, pattern: string, folderStructure: string)

  /** The part of one fundus folder: its dated folder's files when the entry is configured and the folder exists. */
  function FundusPart(fs: FileSystem, search: Search, lo: Bound, hi: Bound, d: Date, info: Option<FundusFolderConfig>): set<string>
    requires Valid(d)
  {
    match info
    case None => {}
    case Some(f) =>
      var dateFolder := SubstitutedFolder(f.base, f.folderStructure, d);
      if Exists(fs, dateFolder) then FolderFiles(fs, search, f.pattern, lo, hi, dateFolder) else {}
  }

  /** The configured fundus folder of that key, if there is one. */
  function Lookup(folders: map<string, FundusFolderConfig>, id: string): (r: Option<FundusFolderConfig>)
    ensures r.Some? <==> id in folders
    ensures r.Some? ==> r.value == folders[id]
  {
    if id in folders then Some(folders[id]) else None
  }

  const FundusIds: seq<string> := ["fundus_main", "fundus_secondary"]

  /** The union of the fundus parts of the given ids. */
  function FundusUnion(fs: FileSystem, search: Search, lo: Bound, hi: Bound, d: Date, folders: map<string, FundusFolderConfig>, ids: seq<string>): set<string>
    requires Valid(d)
    decreases |ids|
  {
    if ids == [] then {}
    else FundusUnion(fs, search, lo, hi, d, folders, ids[..|ids| - 1]) +
         FundusPart(fs, search, lo, hi, d, Lookup(folders, ids[|ids| - 1]))
  }

  /** scan_fundus_folder: all_files.update for fundus_main, then fundus_secondary. */
  method ScanFundusFolder(fs: FileSystem, search: Search, lo: Bound, hi: Bound, d: Date, folders: map<string, FundusFolderConfig>)
    returns (allFiles: set<string>)
    requires Valid(d)
    ensures allFiles == FundusUnion(fs, search, lo, hi, d, folders, FundusIds)
  {
    allFiles := {};
    var i := 0;
    while i < |FundusIds|
      invariant 0 <= i <= |FundusIds|
      invariant allFiles == FundusUnion(fs, search, lo, hi, d, folders, FundusIds[..i])
    {
      assert FundusIds[..i + 1][..i] == FundusIds[..i];
      var info := Lookup(folders, FundusIds[i]);
      if info.Some? {
        var dateFolder := SubstitutedFolder(info.value.base, info.value.folderStructure, d);
        if Exists(fs, dateFolder) {
          var files := ScanFilesInFolder(fs, search, info.value.pattern, lo, hi, dateFolder);
          allFiles := allFiles + files;
        }
      }
      i := i + 1;
    }
    assert FundusIds[..i] == FundusIds;
  }

  /**
   * The fundus set is the union of the two configured folders' scans; an id
   * missing from the configuration adds nothing.
   */
  lemma FundusUnionOfTwo(fs: FileSystem, search: Search, lo: Bound, hi: Bound, d: Date, folders: map<string, FundusFolderConfig>)
    requires Valid(d)
    ensures FundusUnion(fs, search, lo, hi, d, folders, FundusIds) ==
      FundusPart(fs, search, lo, hi, d, Lookup(folders, "fundus_main")) +
      FundusPart(fs, search, lo, hi, d, Lookup(folders, "fundus_secondary"))
    ensures "fundus_main" !in folders && "fundus_secondary" !in folders ==>
      FundusUnion(fs, search, lo, hi, d, folders, FundusIds) == {}
  {
    assert FundusIds[..1] == ["fundus_main"] && FundusIds[..1][..0] == [];
  }

  // ------------------------------------------------------- reservations

  /** reservation_keywords: (key, keyword list) pairs in configuration order. */
  type KeywordTable = seq<(string, seq<string>)>

  /** The increments one cell asks for: the key of every keyword found, in table order. */
  function CellHits(text: string, table: KeywordTable): (hits: seq<string>)
    decreases |table|
  {
    if table == [] then []
    else CellHits(text, table[..|table| - 1]) + KeyHits(text, table[|table| - 1].0, table[|table| - 1].1)
  }

  function KeyHits(text: string, key: string, keywords: seq<string>): (hits: seq<string>)
    decreases |keywords|
  {
    if keywords == [] then []
    else KeyHits(text, key, keywords[..|keywords| - 1]) + (if Contains(text, keywords[|keywords| - 1]) then [key] else [])
  }

  /** The counts so far, and whether a KeyError has ended the current file. */
  datatype Run = Run(counts: Tally, raised: bool)

  /** counts[key] += 1: a key outside the three counts raises KeyError. */
  function Bump(t: Tally, key: string): Run
  {
    if key == "verion" then Run(t.(verion := t.verion + 1), false)
    else if key == "lensx" then Run(t.(lensx := t.lensx + 1), false)
    else if key == "ex500" then Run(t.(ex500 := t.ex500 + 1), false)
    else Run(t, true)
  }

  /** The increments applied in order until the first KeyError. */
  function Apply(r: Run, hits: seq<string>): Run
    decreases |hits|
  {
    if hits == [] then r
    else
      var s := Apply(r, hits[..|hits| - 1]);
      if s.raised then s else Bump(s.counts, hits[|hits| - 1])
  }

  /** The increments of a workbook's cells (column by column): those of the cells that hold the date. */
  function FileHits(cells: seq<Option<string>>, dateText: string, table: KeywordTable): seq<string>
    decreases |cells|
  {
    if cells == [] then []
    else
      var c := cells[|cells| - 1];
      FileHits(cells[..|cells| - 1], dateText, table) +
      (if c.Some? && Contains(c.value, dateText) then CellHits(c.value, table) else [])
  }

  /** The counts after the given workbooks; an unreadable one (None) is passed over. */
  function ReservationCounts(files: seq<Option<seq<Option<string>>>>, d: Date, table: KeywordTable): Tally
    requires Valid(d)
    decreases |files|
  {
    if files == [] then Tally(0, 0, 0)
    else
      var t := ReservationCounts(files[..|files| - 1], d, table);
      match files[|files| - 1]
      case None => t
      case Some(cells) => Apply(Run(t, false), FileHits(cells, Dashed(d), table)).counts
  }

  lemma ApplyNext(r: Run, hits: seq<string>, h: string)
    ensures Apply(r, hits + [h]) == (var s := Apply(r, hits); if s.raised then s else Bump(s.counts, h))
  {
    assert (hits + [h])[..|hits|] == hits;
  }

  lemma {:induction false} ApplyAppend(r: Run, a: seq<string>, b: seq<string>)
    ensures Apply(r, a + b) == Apply(Apply(r, a), b)
    decreases |b|
  {
    if b == [] {
      assert a + b == a;
    } else {
      var n := |b| - 1;
      assert a + b == (a + b[..n]) + [b[n]];
      ApplyAppend(r, a, b[..n]);
      ApplyNext(r, a + b[..n], b[n]);
    }
  }

  lemma {:induction false} ApplyRaised(r: Run, hits: seq<string>)
    requires r.raised
    ensures Apply(r, hits) == r
    decreases |hits|
  {
    if hits != [] {
      ApplyRaised(r, hits[..|hits| - 1]);
    }
  }

  /** for keyword in keyword_list: if keyword in str(cell): counts[key] += 1 */
  method CountKeywords(r0: Run, text: string, key: string, keywords: seq<string>) returns (r: Run)
    requires !r0.raised
    ensures r == Apply(r0, KeyHits(text, key, keywords))
  {
    r := r0;
    var j := 0;
    while j < |keywords|
      invariant 0 <= j <= |keywords| && !r.raised
      invariant r == Apply(r0, KeyHits(text, key, keywords[..j]))
    {
      assert keywords[..j + 1][..j] == keywords[..j];
      if Contains(text, keywords[j]) {
        assert KeyHits(text, key, keywords[..j + 1]) == KeyHits(text, key, keywords[..j]) + [key];
        ApplyNext(r0, KeyHits(text, key, keywords[..j]), key);
        r := Bump(r.counts, key);
        if r.raised {
          KeyHitsPrefix(text, key, keywords, j + 1);
          ApplyRaised(r, KeyHits(text, key, keywords)[|KeyHits(text, key, keywords[..j + 1])|..]);
          ApplyAppend(r0, KeyHits(text, key, keywords[..j + 1]), KeyHits(text, key, keywords)[|KeyHits(text, key, keywords[..j + 1])|..]);
          return;
        }
      } else {
        assert KeyHits(text, key, keywords[..j + 1]) == KeyHits(text, key, keywords[..j]) + [];
        assert KeyHits(text, key, keywords[..j + 1]) == KeyHits(text, key, keywords[..j]);
      }
      j := j + 1;
    }
    assert keywords[..j] == keywords;
  }

  /** The hits of a keyword prefix begin the hits of the whole list. */
  lemma {:induction false} KeyHitsPrefix(text: string, key: string, keywords: seq<string>, j: nat)
    requires j <= |keywords|
    ensures |KeyHits(text, key, keywords[..j])| <= |KeyHits(text, key, keywords)|
    ensures KeyHits(text, key, keywords) ==
      KeyHits(text, key, keywords[..j]) + KeyHits(text, key, keywords)[|KeyHits(text, key, keywords[..j])|..]
    decreases |keywords|
  {
    if j < |keywords| {
      var n := |keywords| - 1;
      assert keywords[..n][..j] == keywords[..j];
      KeyHitsPrefix(text, key, keywords[..n], j);
    } else {
      assert keywords[..j] == keywords;
    }
  }

  /** for key, keyword_list in keywords.items(): ... */
  method CountCell(r0: Run, text: string, table: KeywordTable) returns (r: Run)
    requires !r0.raised
    ensures r == Apply(r0, CellHits(text, table))
  {
    r := r0;
    var i := 0;
    while i < |table|
      invariant 0 <= i <= |table| && !r.raised
      invariant r == Apply(r0, CellHits(text, table[..i]))
    {
      assert table[..i + 1][..i] == table[..i];
      var hits := KeyHits(text, table[i].0, table[i].1);
      ApplyAppend(r0, CellHits(text, table[..i]), hits);
      r := CountKeywords(r, text, table[i].0, table[i].1);
      if r.raised {
        CellHitsPrefix(text, table, i + 1);
        ApplyRaised(r, CellHits(text, table)[|CellHits(text, table[..i + 1])|..]);
        ApplyAppend(r0, CellHits(text, table[..i + 1]), CellHits(text, table)[|CellHits(text, table[..i + 1])|..]);
        return;
      }
      i := i + 1;
    }
    assert table[..i] == table;
  }

  lemma {:induction false} CellHitsPrefix(text: string, table: KeywordTable, i: nat)
    requires i <= |table|
    ensures |CellHits(text, table[..i])| <= |CellHits(text, table)|
    ensures CellHits(text, table) == CellHits(text, table[..i]) + CellHits(text, table)[|CellHits(text, table[..i])|..]
    decreases |table|
  {
    if i < |table| {
      var n := |table| - 1;
      assert table[..n][..i] == table[..i];
      CellHitsPrefix(text, table[..n], i);
    } else {
      assert table[..i] == table;
    }
  }

  lemma {:induction false} FileHitsPrefix(cells: seq<Option<string>>, dateText: string, table: KeywordTable, i: nat)
    requires i <= |cells|
    ensures |FileHits(cells[..i], dateText, table)| <= |FileHits(cells, dateText, table)|
    ensures FileHits(cells, dateText, table) ==
      FileHits(cells[..i], dateText, table) + FileHits(cells, dateText, table)[|FileHits(cells[..i], dateText, table)|..]
    decreases |cells|
  {
    if i < |cells| {
      var n := |cells| - 1;
      assert cells[..n][..i] == cells[..i];
      FileHitsPrefix(cells[..n], dateText, table, i);
    } else {
      assert cells[..i] == cells;
    }
  }

  /** One readable workbook: its cells in order, ended by a KeyError. */
  method CountFile(t0: Tally, cells: seq<Option<string>>, dateText: string, table: KeywordTable) returns (t: Tally)
    ensures t == Apply(Run(t0, false), FileHits(cells, dateText, table)).counts
  {
    var r := Run(t0, false);
    var i := 0;
    while i < |cells|
      invariant 0 <= i <= |cells| && !r.raised
      invariant r == Apply(Run(t0, false), FileHits(cells[..i], dateText, table))
    {
      assert cells[..i + 1][..i] == cells[..i];
      var c := cells[i];
      if c.Some? && Contains(c.value, dateText) {
        assert FileHits(cells[..i + 1], dateText, table) == FileHits(cells[..i], dateText, table) + CellHits(c.value, table);
        ApplyAppend(Run(t0, false), FileHits(cells[..i], dateText, table), CellHits(c.value, table));
        r := CountCell(r, c.value, table);
        if r.raised {
          FileHitsPrefix(cells, dateText, table, i + 1);
          var rest := FileHits(cells, dateText, table)[|FileHits(cells[..i + 1], dateText, table)|..];
          ApplyRaised(r, rest);
          ApplyAppend(Run(t0, false), FileHits(cells[..i + 1], dateText, table), rest);
          return r.counts;
        }
      } else {
        assert FileHits(cells[..i + 1], dateText, table) == FileHits(cells[..i], dateText, table) + [];
        assert FileHits(cells[..i + 1], dateText, table) == FileHits(cells[..i], dateText, table);
      }
      i := i + 1;
    }
    assert cells[..i] == cells;
    t := r.counts;
  }

  /**
   * scan_reservation_files over the workbooks' cells (None for a workbook
   * pd.read_excel cannot read).
   */
  method ScanReservationFiles(files: seq<Option<seq<Option<string>>>>, d: Date, table: KeywordTable) returns (counts: Tally)
    requires Valid(d)
    ensures counts == ReservationCounts(files, d, table)
  {
    counts := Tally(0, 0, 0);
    var k := 0;
    while k < |files|
      invariant 0 <= k <= |files|
      invariant counts == ReservationCounts(files[..k], d, table)
    {
      assert files[..k + 1][..k] == files[..k];
      if files[k].Some? {
        counts := CountFile(counts, files[k].value, Dashed(d), table);
      }
      k := k + 1;
    }
    assert files[..k] == files;
  }

  // ------------------------------------------------------------ properties

  /** The keys the counts dictionary holds. */
  predicate CountKey(k: string) { k == "verion" || k == "lensx" || k == "ex500" }

  /**
   * With every configured key one of the three counts, nothing raises and
   * every increment lands: the total grows by exactly the number of hits.
   */
  lemma {:induction false} EveryHitCounts(t: Tally, hits: seq<string>)
    requires forall k | 0 <= k < |hits| :: CountKey(hits[k])
    ensures !Apply(Run(t, false), hits).raised
    ensures Total(Apply(Run(t, false), hits).counts) == Total(t) + |hits|
    decreases |hits|
  {
    if hits != [] {
      EveryHitCounts(t, hits[..|hits| - 1]);
    }
  }

  /** Counts never go down: an exception in a later workbook keeps the increments made before it. */
  lemma {:induction false} ApplyGrows(r: Run, hits: seq<string>)
    ensures var s := Apply(r, hits);
      s.counts.verion >= r.counts.verion && s.counts.lensx >= r.counts.lensx && s.counts.ex500 >= r.counts.ex500
    decreases |hits|
  {
    if hits != [] {
      ApplyGrows(r, hits[..|hits| - 1]);
    }
  }

  lemma {:induction false} ReservationCountsGrow(files: seq<Option<seq<Option<string>>>>, d: Date, table: KeywordTable, k: nat)
    requires Valid(d) && k <= |files|
    ensures var a, b := ReservationCounts(files[..k], d, table), ReservationCounts(files, d, table);
      a.verion <= b.verion && a.lensx <= b.lensx && a.ex500 <= b.ex500
    decreases |files|
  {
    if k < |files| {
      var n := |files| - 1;
      assert files[..n][..k] == files[..k];
      ReservationCountsGrow(files[..n], d, table, k);
      var t := ReservationCounts(files[..n], d, table);
      if files[n].Some? {
        ApplyGrows(Run(t, false), FileHits(files[n].value, Dashed(d), table));
      }
    } else {
      assert files[..k] == files;
    }
  }

  /** A cell without the target date adds no increment. */
  lemma UndatedCellIgnored(cells: seq<Option<string>>, c: Option<string>, dateText: string, table: KeywordTable)
    requires c.None? || !Contains(c.value, dateText)
    ensures FileHits(cells + [c], dateText, table) == FileHits(cells, dateText, table)
  {
    assert (cells + [c])[..|cells|] == cells;
  }

  /** One cell may count several times: two Verion keywords in it give two increments. */
  lemma OneCellCountsPerKeyword()
    ensures var table: KeywordTable := [("verion", ["verion", "카타"])];
      Apply(Run(Tally(0, 0, 0), false), CellHits("2025-01-18 verion 카타", table)).counts == Tally(2, 0, 0)
  {
    var text := "2025-01-18 verion 카타";
    var table: KeywordTable := [("verion", ["verion", "카타"])];
    assert text[11..17] == "verion";
    assert text[18..] == "카타";
    assert OccursAt(text, "verion", 11);
    assert OccursAt(text, "카타", 18);
    var kws := ["verion", "카타"];
    assert kws[..1][..0] == [];
    assert KeyHits(text, "verion", kws) == ["verion", "verion"];
    assert table[..0] == [];
    assert CellHits(text, table) == ["verion", "verion"];
    var hits := ["verion", "verion"];
    assert hits[..1] == ["verion"] && hits[..1][..0] == [];
  }

  /** A key outside the three counts raises KeyError at its first hit, ending the workbook. */
  lemma UnknownKeyRaises(t: Tally, hits: seq<string>, k: nat)
    requires k < |hits| && !CountKey(hits[k])
    ensures Apply(Run(t, false), hits).raised
  {
    assert hits == hits[..k] + [hits[k]] + hits[k + 1..];
    ApplyNext(Run(t, false), hits[..k], hits[k]);
    ApplyAppend(Run(t, false), hits[..k] + [hits[k]], hits[k + 1..]);
    ApplyRaised(Apply(Run(t, false), hits[..k] + [hits[k]]), hits[k + 1..]);
  }
}
