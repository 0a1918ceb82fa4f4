/**
 * The tool server (daily_report_mcp.py): scan_equipment lists one
 * equipment's dated folder and reports how many distinct identifiers its
 * file names carry, sorted; get_today_statistics gathers one count per
 * equipment plus the glaucoma count; update_manual_input only echoes a
 * known field. Unlike the report programs, this scanner applies no
 * leading-zero or range check to what it extracts.
 */
module McpServer {
  import opened Strings
  import opened Dates
  import opened Files
  import opened Validation
  import opened Patterns
  import opened Scan
  import opened Sorting
  import opened DatePaths
  import opened Metrics

  /** config['equipment'][id]: the base path, the pattern, and folder_structure (None when the key is missing). */
  datatype McpEquipment = McpEquipment(base: Path, pattern: string, folderStructure: Option<string>)

  /**
   * What scan_equipment gives back: the error for an unknown id; an
   * exception that escapes the tool (a missing folder_structure, a folder
   * that cannot be listed, a pattern without groups); the zero result for a
   * missing folder; or the count, the sorted identifiers and the folder.
   */
  datatype ScanResult =
    | UnknownEquipment
    | Raised
    | NotFound
    | Found(count: nat, charts: seq<string>, path: Path)

  /**
   * One scandir entry: folders are passed over; a file whose name matches
   * adds the identifier the group rule picks when it is non-empty; a pattern
   * without groups raises IndexError.
   */
  function EntryOutcome(search: Search, pattern: string, e: Entry): (o: Outcome)
    ensures o.Fail? <==> !e.isDir && search(pattern, e.name) == Some([])
    ensures o.Add? <==> !e.isDir && search(pattern, e.name).Some? &&
                        search(pattern, e.name).value != [] &&
                        Truthy(ExtractMcp(search(pattern, e.name).value).chart)
    ensures o.Add? ==> o.chart != [] &&
                       ExtractMcp(search(pattern, e.name).value) == McpChart(Some(o.chart))
  {
    if e.isDir then Skip
    else match search(pattern, e.name)
      case None => Skip
      case Some(gs) =>
        match ExtractMcp(gs)
        case McpIndexError => Fail
        case McpChart(c) => if Truthy(c) then Add(c.value) else Skip
  }

  function EntryOutcomes(search: Search, pattern: string, es: seq<Entry>): (os: seq<Outcome>)
    ensures |os| == |es|
  {
    seq(|es|, k requires 0 <= k < |es| => EntryOutcome(search, pattern, es[k]))
  }

  /** scan_equipment as one function of the share and the configuration. */
  ghost function EquipmentScan(fs: FileSystem, search: Search, config: map<string, McpEquipment>, id: string, d: Date): (r: ScanResult)
    requires Valid(d)
    ensures r.UnknownEquipment? <==> id !in config
    ensures r.NotFound? <==> (id in config && config[id].folderStructure.Some? &&
      !Exists(fs, SubstitutedFolder(config[id].base, config[id].folderStructure.value, d)))
    ensures r.Found? ==> id in config && config[id].folderStructure.Some? && r.path == SubstitutedFolder(config[id].base, config[id].folderStructure.value, d)
    ensures r.Found? ==> Ascending(r.charts) && Distinct(r.charts) && r.count == |r.charts|
  {
    if id !in config then UnknownEquipment
    else
      var eq := config[id];
      if eq.folderStructure.None? then Raised
      else
        var folder := SubstitutedFolder(eq.base, eq.folderStructure.value, d);
        if !Exists(fs, folder) then NotFound
        else match ListDir(fs, folder)
          case None => Raised
          case Some(es) =>
            var p := Collect({}, EntryOutcomes(search, eq.pattern, es));
            if p.raised then Raised else Found(|p.charts|, SortedOf(p.charts), folder)
  }

  /** A listing scanned without an exception gives exactly the identifiers its entries add. */
  lemma ListingExact(search: Search, pattern: string, es: seq<Entry>, c: string)
    requires !Collect({}, EntryOutcomes(search, pattern, es)).raised
    ensures c in Collect({}, EntryOutcomes(search, pattern, es)).charts <==>
      exists e | e in es :: EntryOutcome(search, pattern, e) == Add(c)
  {
    var os := EntryOutcomes(search, pattern, es);
    CollectMeaning({}, os);
    CollectWithoutFail(os);
    if c in Collect({}, os).charts {
      var k :| 0 <= k < |os| && os[k] == Add(c);
      assert es[k] in es;
    }
    if exists e | e in es :: EntryOutcome(search, pattern, e) == Add(c) {
      var e :| e in es && EntryOutcome(search, pattern, e) == Add(c);
      var k :| 0 <= k < |es| && es[k] == e;
      assert os[k] == Add(c);
    }
  }

  /**
   * Without an exception the identifiers are exactly those some file of the
   * folder gives; none of them is checked for a leading zero or a range.
   */
  lemma FoundExact(fs: FileSystem, search: Search, config: map<string, McpEquipment>, id: string, d: Date, c: string)
    requires Valid(d)
    requires EquipmentScan(fs, search, config, id, d).Found?
    ensures ListDir(fs, EquipmentScan(fs, search, config, id, d).path).Some?
    ensures c in EquipmentScan(fs, search, config, id, d).charts <==>
      exists e | e in ListDir(fs, EquipmentScan(fs, search, config, id, d).path).value ::
        EntryOutcome(search, config[id].pattern, e) == Add(c)
  {
    var r := EquipmentScan(fs, search, config, id, d);
    var es := ListDir(fs, r.path).value;
    ListingExact(search, config[id].pattern, es, c);
  }

  /**
   * A file named with a leading zero is reported as it stands: the server
   * has no validator, where the report programs would refuse "0012".
   */
  lemma LeadingZeroReported()
    ensures var file := Entry("0012_a.pdf", false, None, true, []);
            var share := FileSystem(map["S:" := Entry("S:", true, None, true, [file])]);
            var config := map["SP" := McpEquipment(Path("S:", []), "(\\d+)", Some(""))];
            var search: Search := (p: string, n: string) => Some([Some("0012")]);
            EquipmentScan(share, search, config, "SP", Date(2025, 1, 18)) == Found(1, ["0012"], Path("S:", []))
    ensures ChartNumberVerdict("0012", Int(0), Int(99999)) == Reject
  {
    var file := Entry("0012_a.pdf", false, None, true, []);
    var share := FileSystem(map["S:" := Entry("S:", true, None, true, [file])]);
    var search: Search := (p: string, n: string) => Some([Some("0012")]);
    var d := Date(2025, 1, 18);
    assert SimpleSubstitution("", d) == "";
    assert Components("") == [];
    var os := EntryOutcomes(search, "(\\d+)", [file]);
    assert os == [Add("0012")];
    assert Collect({}, os) == Partial({"0012"}, false) by {
      assert os[1..] == [];
    }
    var sorted := SortedOf({"0012"});
    assert sorted == ["0012"] by {
      assert |sorted| == 1 && "0012" in sorted;
    }
  }

  /** list(s) for a set: its members in some order, each once. */
  method ListOf(s: set<string>) returns (xs: seq<string>)
    ensures Distinct(xs) && forall x :: x in xs <==> x in s
  {
    xs := [];
    var rest := s;
    while rest != {}
      invariant rest <= s && Distinct(xs)
      invariant forall x :: x in xs <==> x in s && x !in rest
      decreases |rest|
    {
      var x :| x in rest;
      xs := xs + [x];
      rest := rest - {x};
    }
  }

  /** The scandir loop: the identifiers of a listing, or true when an entry raised. */
  method CollectIdentifiers(search: Search, pattern: string, es: seq<Entry>) returns (p: Partial)
    ensures p == Collect({}, EntryOutcomes(search, pattern, es))
  {
    ghost var os := EntryOutcomes(search, pattern, es);
    p := Partial({}, false);
    var i := 0;
    while i < |es|
      invariant 0 <= i <= |es| && !p.raised
      invariant p == Collect({}, os[..i])
    {
      StepCollect({}, os, i, p);
      p := Step(p, EntryOutcome(search, pattern, es[i]));
      if p.raised {
        FailedCollect({}, os, i + 1);
        return;
      }
      i := i + 1;
    }
    assert os[..i] == os;
  }

  /** scan_equipment */
  method ScanEquipment(fs: FileSystem, search: Search, config: map<string, McpEquipment>, id: string, d: Date)
    returns (r: ScanResult)
    requires Valid(d)
    ensures r == EquipmentScan(fs, search, config, id, d)
  {
    if id !in config {
      return UnknownEquipment;
    }
    var eq := config[id];
    if eq.folderStructure.None? {
      return Raised;
    }
    var folder := SubstitutedFolder(eq.base, eq.folderStructure.value, d);
    if !Exists(fs, folder) {
      return NotFound;
    }
    var listing := ListDir(fs, folder);
    if listing.None? {
      return Raised;
    }
    var p := CollectIdentifiers(search, eq.pattern, listing.value);
    if p.raised {
      return Raised;
    }
    var xs := ListOf(p.charts);
    var charts := SortAsc(xs);
    SortAscDistinct(xs);
    assert forall x :: x in charts <==> x in multiset(xs);
    SortedOfUnique(charts, p.charts);
    r := Found(|p.charts|, charts, folder);
  }

  // ------------------------------------------------- get_today_statistics

  /** result['count'] for a configured id: the zero of a missing folder, or the number found. */
  function CountOf(r: ScanResult): nat
  {
    if r.Found? then r.count else 0
  }

  /** The chart numbers a scan result lists, as a set: empty for an error or a missing folder. */
  function ListedSet(r: ScanResult): (s: set<string>)
    ensures r.Found? ==> forall x :: x in s <==> x in r.charts
    ensures !r.Found? ==> s == {}
  {
    if r.Found? then set x | x in r.charts else {}
  }

  /** Some scan the statistics run raises, so the tool call fails. */
  ghost predicate AnyRaises(fs: FileSystem, search: Search, config: map<string, McpEquipment>, d: Date)
    requires Valid(d)
  {
    (exists id | id in config :: EquipmentScan(fs, search, config, id, d).Raised?) ||
    EquipmentScan(fs, search, config, "HFA", d).Raised? ||
    EquipmentScan(fs, search, config, "OCT", d).Raised?
  }

  /** The statistics map: one count per configured id, then GLAUCOMA from the HFA and OCT lists. */
  ghost function Statistics(fs: FileSystem, search: Search, config: map<string, McpEquipment>, d: Date): (stats: map<string, nat>)
    requires Valid(d)
    ensures stats.Keys == config.Keys + {"GLAUCOMA"}
    ensures stats["GLAUCOMA"] ==
      |ListedSet(EquipmentScan(fs, search, config, "HFA", d)) * ListedSet(EquipmentScan(fs, search, config, "OCT", d))|
    ensures forall id | id in config && id != "GLAUCOMA" ::
      stats[id] == CountOf(EquipmentScan(fs, search, config, id, d))
  {
    var counts := map id | id in config :: CountOf(EquipmentScan(fs, search, config, id, d));
    counts["GLAUCOMA" := CoCount(ListedSet(EquipmentScan(fs, search, config, "HFA", d)),
                                 ListedSet(EquipmentScan(fs, search, config, "OCT", d)))]
  }

  /** get_today_statistics: None when a scan raises out of the tool. */
  method GetTodayStatistics(fs: FileSystem, search: Search, config: map<string, McpEquipment>, d: Date)
    returns (stats: Option<map<string, nat>>)
    requires Valid(d)
    ensures stats.None? <==> AnyRaises(fs, search, config, d)
    ensures stats.Some? ==> stats.value == Statistics(fs, search, config, d)
  {
    var results: map<string, nat> := map[];
    var pending := config.Keys;
    while pending != {}
      invariant pending <= config.Keys
      invariant results.Keys == config.Keys - pending
      invariant forall id | id in results :: results[id] == CountOf(EquipmentScan(fs, search, config, id, d))
      invariant forall id | id in config.Keys - pending :: !EquipmentScan(fs, search, config, id, d).Raised?
      decreases |pending|
    {
      var id :| id in pending;
      var r := ScanEquipment(fs, search, config, id, d);
      if r.Raised? {
        return None;
      }
      results := results[id := CountOf(r)];
      pending := pending - {id};
    }
    var hfa := ScanEquipment(fs, search, config, "HFA", d);
    if hfa.Raised? {
      return None;
    }
    var oct := ScanEquipment(fs, search, config, "OCT", d);
    if oct.Raised? {
      return None;
    }
    results := results["GLAUCOMA" := CoCount(ListedSet(hfa), ListedSet(oct))];
    stats := Some(results);
  }

  /** The glaucoma figure never exceeds the HFA count nor the OCT count. */
  lemma GlaucomaBounded(fs: FileSystem, search: Search, config: map<string, McpEquipment>, d: Date)
    requires Valid(d)
    requires "HFA" in config && "OCT" in config
    ensures var stats := Statistics(fs, search, config, d);
            stats["GLAUCOMA"] <= stats["HFA"] && stats["GLAUCOMA"] <= stats["OCT"]
  {
    var hfa := EquipmentScan(fs, search, config, "HFA", d);
    var oct := EquipmentScan(fs, search, config, "OCT", d);
    var a, b := ListedSet(hfa), ListedSet(oct);
    InclusionExclusion(a, b);
    if hfa.Found? {
      ListedSetSize(hfa.charts);
    }
    if oct.Found? {
      ListedSetSize(oct.charts);
    }
  }

  /** A list without repeats has as many members as its set. */
  lemma ListedSetSize(xs: seq<string>)
    requires Distinct(xs)
    ensures |set x | x in xs| == |xs|
  {
    var s := set x | x in xs;
    SetFromDistinct(xs, s);
  }

  lemma {:induction false} SetFromDistinct(xs: seq<string>, s: set<string>)
    requires Distinct(xs) && forall x :: x in s <==> x in xs
    ensures |s| == |xs|
    decreases |xs|
  {
    if xs != [] {
      var last := xs[|xs| - 1];
      var init := xs[..|xs| - 1];
      assert Distinct(init);
      forall x ensures x in s - {last} <==> x in init {
        if x in xs && x != last {
          var k :| 0 <= k < |xs| && xs[k] == x;
          assert k < |xs| - 1 && init[k] == x;
        }
      }
      SetFromDistinct(init, s - {last});
    }
  }

  // --------------------------------------------------- update_manual_input

  /** What update_manual_input answers: an unknown field, or the field and value echoed back. */
  datatype ManualResult = UnknownField(field: string) | Success(field: string, value: int)

  /** update_manual_input: the fields are the keys of manual_input (none when it is missing); nothing is stored. */
  function UpdateManualInput(manualFields: Option<set<string>>, field: string, value: int): (r: ManualResult)
    ensures r.UnknownField? <==> manualFields.None? || field !in manualFields.value
    ensures r.field == field
    ensures r.Success? ==> r.value == value
  {
    if manualFields.None? || field !in manualFields.value then UnknownField(field)
    else Success(field, value)
  }
}
