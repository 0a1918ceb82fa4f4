/**
 * The first report program (daily_report.py): each equipment share is
 * scanned recursively to a bounded depth, keeping only entries created
 * today; LASIK adds the SCR folder to ORB with TOPO; the Verion cell takes
 * the larger of the IOL700 count and the reservation count.
 */
module LegacyReport {
  import opened Strings
  import opened Dates
  import opened Files
  import opened Validation
  import opened Patterns
  import opened Scan
  import opened Metrics

  /** The equipment's date_filter: missing or empty, not a %Y-%m-%d date, or a date. */
  datatype DateFilter = Unset | Unparsable | On(date: Date)

  /** What scan_directory reads from the configuration, plus today's date. */
  datatype Setup = Setup(search: Search, pattern: string, scanType: ScanType, exts: seq<string>,
                         lo: Bound, hi: Bound, filter: DateFilter, maxDepth: nat, today: Date)

  // --------------------------------------------------------- file tests

  /** name.rfind('.'), -1 when there is no dot. */
  function LastDot(s: string): (i: int)
    ensures -1 <= i < |s|
    ensures i >= 0 ==> s[i] == '.'
    ensures forall k | i < k < |s| :: s[k] != '.'
    decreases |s|
  {
    if s == [] then -1
    else if s[|s| - 1] == '.' then |s| - 1
    else LastDot(s[..|s| - 1])
  }

  /** Path.suffix: from the last dot on, unless the dot leads the name or ends it. */
  function Suffix(name: string): (r: string)
    ensures r == [] || (2 <= |r| < |name| && r[0] == '.' && EndsWith(name, r))
    ensures r != [] ==> forall k | 1 <= k < |r| :: r[k] != '.'
  {
    var i := LastDot(name);
    if 0 < i < |name| - 1 then name[i..] else []
  }

  /** has_valid_extension: the lower-case suffix is one of the configured extensions, exactly. */
  predicate HasValidExtension(name: string, exts: seq<string>)
  {
    Lower(Suffix(name)) in exts
  }

  /** Every name the exact test admits ends with its extension, as the endswith test of the other programs asks. */
  lemma ExactImpliesEndsWith(name: string, exts: seq<string>)
    requires HasValidExtension(name, exts) && Suffix(name) != []
    ensures EndsWithAny(Lower(name), exts)
  {
    var r := Suffix(name);
    var i := |name| - |r|;
    assert name[i..] == r;
    LowerSlice(name, i);
    var k :| 0 <= k < |exts| && exts[k] == Lower(r);
    assert EndsWith(Lower(name), exts[k]);
  }

  /** The converse fails: a bare '.pdf' has no suffix at all. */
  lemma BareExtensionRefused()
    ensures !HasValidExtension(".pdf", [".pdf"]) && EndsWithAny(Lower(".pdf"), [".pdf"])
  {
    BareSuffixEmpty();
    assert Lower(Suffix(".pdf")) == [];
    BareEndsWith();
  }

  lemma BareSuffixEmpty()
    ensures Suffix(".pdf") == []
  {
    assert LastDot(".pdf") == 0 by {
      assert ".pdf"[..3] == ".pd" && ".pd"[..2] == ".p" && ".p"[..1] == ".";
    }
  }

  lemma BareEndsWith()
    ensures EndsWithAny(Lower(".pdf"), [".pdf"])
  {
    assert Lower(".pdf") == ".pdf";
    assert EndsWith(".pdf", [".pdf"][0]);
  }

  /** ... and a double extension is refused: only the last suffix counts. */
  lemma DoubleExtensionRefused()
    ensures !HasValidExtension("x.tar.gz", [".tar.gz"]) && EndsWithAny(Lower("x.tar.gz"), [".tar.gz"])
  {
    assert LastDot("x.tar.gz") == 5 by {
      assert "x.tar.gz"[..7] == "x.tar.g" && "x.tar.g"[..6] == "x.tar.";
    }
    assert Suffix("x.tar.gz") == ".gz";
    assert Lower(".gz") == ".gz";
    assert Lower("x.tar.gz") == "x.tar.gz";
    assert EndsWith(Lower("x.tar.gz"), [".tar.gz"][0]);
  }

  /**
   * is_today_file: created today, and not before the date filter when one is
   * given; an unreadable creation date or an unparsable filter gives False.
   */
  predicate IsTodayFile(created: Option<Date>, today: Date, filter: DateFilter)
  {
    created == Some(today) &&
    match filter
    case Unset => true
    case Unparsable => false
    case On(f) => !Before(created.value, f)
  }

  /** Only today's date passes, and a filter later than today rejects everything. */
  lemma IsTodayFileMeans(created: Option<Date>, today: Date, filter: DateFilter)
    requires Valid(today)
    ensures IsTodayFile(created, today, filter) ==> created == Some(today)
    ensures filter.On? && Before(today, filter.date) ==> !IsTodayFile(created, today, filter)
    ensures filter.On? && !Before(today, filter.date) ==> (IsTodayFile(created, today, filter) <==> created == Some(today))
    ensures filter.Unparsable? ==> !IsTodayFile(created, today, filter)
  {
  }

  // ----------------------------------------------------- the recursive scan

  /**
   * scan_recursive(current, depth): nothing beyond max_depth or when the
   * folder cannot be listed; otherwise the outcomes of its items in order.
   */
  function DirOutcomes(s: Setup, e: Entry, depth: nat): seq<Outcome>
    decreases e, 1
  {
    if depth > s.maxDepth || !(e.isDir && e.listable) then []
    else ItemsFrom(s, e, depth, 0)
  }

  function ItemsFrom(s: Setup, e: Entry, depth: nat, i: nat): seq<Outcome>
    decreases e, 0, |e.children| - i
  {
    if i >= |e.children| then []
    else ItemOutcomes(s, e.children[i], depth) + ItemsFrom(s, e, depth, i + 1)
  }

  /**
   * One item: skipped unless created today (and not before the filter); a
   * file counts when files are scanned and its extension is valid; a folder's
   * name counts for 'both', and every folder of today is descended.
   */
  function ItemOutcomes(s: Setup, c: Entry, depth: nat): seq<Outcome>
    decreases c, 2
  {
    if !IsTodayFile(c.created, s.today, s.filter) then []
    else if !c.isDir then
      (if ScansFiles(s.scanType) && HasValidExtension(c.name, s.exts)
       then [Group1Outcome(s.search(s.pattern, c.name), s.lo, s.hi)] else [])
    else
      (if s.scanType == Both then [Group1Outcome(s.search(s.pattern, c.name), s.lo, s.hi)] else []) +
      DirOutcomes(s, c, depth + 1)
  }

  /** scan_directory: nothing for a missing path; otherwise the recursive scan, ended by the first exception. */
  function ScanDirectory(fs: FileSystem, s: Setup, base: Path): set<string>
  {
    match Locate(fs, base)
    case None => {}
    case Some(e) => Collect({}, DirOutcomes(s, e, 0)).charts
  }

  /** scan_recursive, adding to the shared chart_numbers set. */
  method ScanRecursive(s: Setup, e: Entry, depth: nat, p0: Partial) returns (p: Partial)
    requires !p0.raised
    ensures p == Collect(p0.charts, DirOutcomes(s, e, depth))
    decreases e, 1
  {
    p := p0;
    if depth > s.maxDepth || !(e.isDir && e.listable) {
      return;
    }
    var items := e.children;
    var i := 0;
    while i < |items|
      invariant 0 <= i <= |items| && !p.raised
      invariant Collect(p0.charts, DirOutcomes(s, e, depth)) == Collect(p.charts, ItemsFrom(s, e, depth, i))
    {
      CollectAppend(p.charts, ItemOutcomes(s, items[i], depth), ItemsFrom(s, e, depth, i + 1));
      var q := ScanItem(s, items[i], depth, p);
      if q.raised {
        return q;
      }
      p := q;
      i := i + 1;
    }
  }

  /** The body of the item loop. */
  method ScanItem(s: Setup, c: Entry, depth: nat, p0: Partial) returns (p: Partial)
    requires !p0.raised
    ensures p == Collect(p0.charts, ItemOutcomes(s, c, depth))
    decreases c, 2
  {
    p := p0;
    if !IsTodayFile(c.created, s.today, s.filter) {
      return;
    }
    if !c.isDir {
      if ScansFiles(s.scanType) && HasValidExtension(c.name, s.exts) {
        p := Step(p, Group1Outcome(s.search(s.pattern, c.name), s.lo, s.hi));
      }
      return;
    }
    ghost var nameOs: seq<Outcome> := if s.scanType == Both then [Group1Outcome(s.search(s.pattern, c.name), s.lo, s.hi)] else [];
    CollectAppend(p0.charts, nameOs, DirOutcomes(s, c, depth + 1));
    if s.scanType == Both {
      p := Step(p, Group1Outcome(s.search(s.pattern, c.name), s.lo, s.hi));
      if p.raised {
        return;
      }
    }
    p := ScanRecursive(s, c, depth + 1, p);
  }

  /** scan_directory */
  method ScanDirectoryMethod(fs: FileSystem, s: Setup, base: Path) returns (charts: set<string>)
    ensures charts == ScanDirectory(fs, s, base)
  {
    var root := Locate(fs, base);
    if root.None? {
      return {};
    }
    var p := ScanRecursive(s, root.value, 0, Partial({}, false));
    charts := p.charts;
  }

  // ------------------------------------------------------------ properties

  /** The tree as far as a scan can see it: k levels of listing, below which every folder is emptied. */
  function Cut(e: Entry, k: nat): (r: Entry)
    ensures r.name == e.name && r.isDir == e.isDir && r.created == e.created && r.listable == e.listable
    ensures k > 0 ==> |r.children| == |e.children|
    decreases e
  {
    if k == 0 then e.(children := [])
    else e.(children := seq(|e.children|, i requires 0 <= i < |e.children| => Cut(e.children[i], k - 1)))
  }

  /**
   * scan_recursive never lists a folder deeper than max_depth: whatever lies
   * below that level can be removed without changing a single outcome.
   */
  lemma {:induction false} DepthBounded(s: Setup, e: Entry, depth: nat)
    requires depth <= s.maxDepth + 1
    ensures DirOutcomes(s, e, depth) == DirOutcomes(s, Cut(e, s.maxDepth + 1 - depth), depth)
    decreases e, 1
  {
    if depth <= s.maxDepth && e.isDir && e.listable {
      DepthBoundedItems(s, e, depth, 0);
    }
  }

  lemma {:induction false} DepthBoundedItems(s: Setup, e: Entry, depth: nat, i: nat)
    requires depth <= s.maxDepth
    ensures ItemsFrom(s, e, depth, i) == ItemsFrom(s, Cut(e, s.maxDepth + 1 - depth), depth, i)
    decreases e, 0, |e.children| - i
  {
    if i < |e.children| {
      var c := e.children[i];
      assert Cut(e, s.maxDepth + 1 - depth).children[i] == Cut(c, s.maxDepth - depth);
      DepthBoundedItem(s, c, depth);
      DepthBoundedItems(s, e, depth, i + 1);
    }
  }

  lemma {:induction false} DepthBoundedItem(s: Setup, c: Entry, depth: nat)
    requires depth <= s.maxDepth
    ensures ItemOutcomes(s, c, depth) == ItemOutcomes(s, Cut(c, s.maxDepth - depth), depth)
    decreases c, 2
  {
    if c.isDir {
      DepthBounded(s, c, depth + 1);
    }
  }

  /** A scan_type other than 'file' or 'both' finds nothing at all, however deep it descends. */
  lemma {:induction false} OtherTypeFindsNothing(s: Setup, e: Entry, depth: nat)
    requires s.scanType == OtherType
    ensures DirOutcomes(s, e, depth) == []
    decreases e, 1
  {
    if depth <= s.maxDepth && e.isDir && e.listable {
      OtherTypeItems(s, e, depth, 0);
    }
  }

  lemma {:induction false} OtherTypeItems(s: Setup, e: Entry, depth: nat, i: nat)
    requires s.scanType == OtherType
    ensures ItemsFrom(s, e, depth, i) == []
    decreases e, 0, |e.children| - i
  {
    if i < |e.children| {
      var c := e.children[i];
      if c.isDir && IsTodayFile(c.created, s.today, s.filter) {
        OtherTypeFindsNothing(s, c, depth + 1);
      }
      OtherTypeItems(s, e, depth, i + 1);
    }
  }

  /** Every outcome of the scan adds a number the validator accepts. */
  lemma {:induction false} ScanAddsValid(s: Setup, e: Entry, depth: nat)
    ensures forall o | o in DirOutcomes(s, e, depth) && o.Add? :: ChartNumberVerdict(o.chart, s.lo, s.hi) == Accept
    decreases e, 1
  {
    if depth <= s.maxDepth && e.isDir && e.listable {
      ItemsAddValid(s, e, depth, 0);
    }
  }

  lemma {:induction false} ItemsAddValid(s: Setup, e: Entry, depth: nat, i: nat)
    ensures forall o | o in ItemsFrom(s, e, depth, i) && o.Add? :: ChartNumberVerdict(o.chart, s.lo, s.hi) == Accept
    decreases e, 0, |e.children| - i
  {
    if i < |e.children| {
      var c := e.children[i];
      if c.isDir {
        ScanAddsValid(s, c, depth + 1);
      }
      ItemsAddValid(s, e, depth, i + 1);
    }
  }

  /** scan_directory returns only numbers its validator accepts. */
  lemma ScanDirectoryValidates(fs: FileSystem, s: Setup, base: Path, c: string)
    requires c in ScanDirectory(fs, s, base)
    ensures ChartNumberVerdict(c, s.lo, s.hi) == Accept
  {
    var e := Locate(fs, base).value;
    var os := DirOutcomes(s, e, 0);
    CollectSound(os, c);
    var k :| 0 <= k < |os| && os[k] == Add(c);
    ScanAddsValid(s, e, 0);
    assert os[k] in os;
  }

  // -------------------------------------------------------------- LASIK

  /** The SCR patterns, tried in order: r'\s(\d+)\s', r'_(\d+)\.', r'(\d+)'. */
  const LasikPatterns: seq<string> := ["\\s(\\d+)\\s", "_(\\d+)\\.", "(\\d+)"]

  /** group(1) of a match of pattern p, and the validator's verdict on it. */
  predicate GivesValid(search: Search, p: string, name: string, lo: Bound, hi: Bound, c: string)
  {
    search(p, name).Some? && Group(search(p, name).value, 1) == Captured(c) && ChartNumberVerdict(c, lo, hi) == Accept
  }

  /** Pattern p passes the name on to the next pattern: no match, or a group 1 the validator rejects. */
  predicate PassesOn(search: Search, p: string, name: string, lo: Bound, hi: Bound)
  {
    search(p, name).None? ||
    (Group(search(p, name).value, 1).Captured? && ChartNumberVerdict(Group(search(p, name).value, 1).text, lo, hi) == Reject)
  }

  /**
   * The pattern loop for one SCR item: the first pattern whose group 1
   * validates adds it and breaks. A missing group or a null bound raises,
   * which the outer handler turns into a LASIK count of 0.
   */
  function FirstValidGroup(search: Search, pats: seq<string>, name: string, lo: Bound, hi: Bound): (o: Outcome)
    ensures o.Add? ==> exists k | 0 <= k < |pats| :: GivesValid(search, pats[k], name, lo, hi, o.chart) &&
                         forall j | 0 <= j < k :: PassesOn(search, pats[j], name, lo, hi)
    ensures o.Skip? <==> forall k | 0 <= k < |pats| :: PassesOn(search, pats[k], name, lo, hi)
    decreases |pats|
  {
    if pats == [] then Skip
    else
      var rest := FirstValidGroup(search, pats[1..], name, lo, hi);
      match search(pats[0], name)
      case None => rest
      case Some(gs) =>
        match Group(gs, 1)
        case NoSuchGroup => Fail
        case Unmatched => Fail
        case Captured(t) =>
          match ChartNumberVerdict(t, lo, hi)
          case Accept => Add(t)
          case Reject => rest
          case Raise => Fail
  }

  /** The inner loop over the three patterns, with its break. */
  method TryPatterns(search: Search, name: string, lo: Bound, hi: Bound) returns (o: Outcome)
    ensures o == FirstValidGroup(search, LasikPatterns, name, lo, hi)
  {
    var j := 0;
    while j < |LasikPatterns|
      invariant 0 <= j <= |LasikPatterns|
      invariant FirstValidGroup(search, LasikPatterns, name, lo, hi) == FirstValidGroup(search, LasikPatterns[j..], name, lo, hi)
    {
      assert LasikPatterns[j..][1..] == LasikPatterns[j + 1..];
      var m := search(LasikPatterns[j], name);
      if m.Some? {
        var g := Group(m.value, 1);
        if !g.Captured? {
          return Fail;
        }
        var v := ChartNumberVerdict(g.text, lo, hi);
        if v == Raise {
          return Fail;
        }
        if v == Accept {
          return Add(g.text);
        }
      }
      j := j + 1;
    }
    return Skip;
  }

  function ScrOutcomes(search: Search, items: seq<Entry>, lo: Bound, hi: Bound, today: Date): (os: seq<Outcome>)
    ensures |os| == |items|
  {
    seq(|items|, k requires 0 <= k < |items| =>
      if IsTodayFile(items[k].created, today, Unset) then FirstValidGroup(search, LasikPatterns, items[k].name, lo, hi) else Skip)
  }

  /**
   * calculate_lasik: |(ORB & TOPO) | S| where S holds the SCR folder's
   * numbers; a missing scr_folder key, an unlistable folder or any other
   * exception gives 0.
   */
  function LasikCount(fs: FileSystem, search: Search, table: map<string, set<string>>, scr: Option<Path>, lo: Bound, hi: Bound, today: Date): nat
  {
    var base := SetOf(table, "ORB") * SetOf(table, "TOPO");
    match scr
    case None => 0
    case Some(folder) =>
      if !Exists(fs, folder) then |base|
      else match ListDir(fs, folder)
        case None => 0
        case Some(items) =>
          var p := Collect(base, ScrOutcomes(search, items, lo, hi, today));
          if p.raised then 0 else |p.charts|
  }

  method CalculateLasik(fs: FileSystem, search: Search, table: map<string, set<string>>, scr: Option<Path>, lo: Bound, hi: Bound, today: Date)
    returns (n: nat)
    ensures n == LasikCount(fs, search, table, scr, lo, hi, today)
  {
    var lasikCharts := SetOf(table, "ORB") * SetOf(table, "TOPO");
    if scr.None? {
      return 0;
    }
    if !Exists(fs, scr.value) {
      return |lasikCharts|;
    }
    var listing := ListDir(fs, scr.value);
    if listing.None? {
      return 0;
    }
    var items := listing.value;
    ghost var os := ScrOutcomes(search, items, lo, hi, today);
    ghost var base := lasikCharts;
    var i := 0;
    while i < |items|
      invariant 0 <= i <= |items|
      invariant Collect(base, os[..i]) == Partial(lasikCharts, false)
    {
      StepCollect(base, os, i, Partial(lasikCharts, false));
      if IsTodayFile(items[i].created, today, Unset) {
        var o := TryPatterns(search, items[i].name, lo, hi);
        if o.Fail? {
          FailedCollect(base, os, i + 1);
          return 0;
        }
        if o.Add? {
          lasikCharts := lasikCharts + {o.chart};
        }
      }
      i := i + 1;
    }
    assert os[..i] == os;
    n := |lasikCharts|;
  }

  /**
   * When no exception intervenes, the LASIK set holds ORB with TOPO and
   * every SCR number, and nothing else: each extra number is the first
   * validating group of an SCR item created today.
   */
  lemma LasikMeaning(search: Search, table: map<string, set<string>>, items: seq<Entry>, lo: Bound, hi: Bound, today: Date, c: string)
    requires var p := Collect(SetOf(table, "ORB") * SetOf(table, "TOPO"), ScrOutcomes(search, items, lo, hi, today)); !p.raised
    ensures var p := Collect(SetOf(table, "ORB") * SetOf(table, "TOPO"), ScrOutcomes(search, items, lo, hi, today));
      SetOf(table, "ORB") * SetOf(table, "TOPO") <= p.charts &&
      (c in p.charts <==> ((c in SetOf(table, "ORB") && c in SetOf(table, "TOPO")) ||
        exists k | 0 <= k < |items| :: items[k].created == Some(today) &&
          FirstValidGroup(search, LasikPatterns, items[k].name, lo, hi) == Add(c)))
  {
    var base := SetOf(table, "ORB") * SetOf(table, "TOPO");
    var os := ScrOutcomes(search, items, lo, hi, today);
    CollectMeaning(base, os);
    assert os[..FirstFail(os)] == os;
    if exists k | 0 <= k < |items| :: items[k].created == Some(today) && FirstValidGroup(search, LasikPatterns, items[k].name, lo, hi) == Add(c) {
      var k :| 0 <= k < |items| && items[k].created == Some(today) && FirstValidGroup(search, LasikPatterns, items[k].name, lo, hi) == Add(c);
      assert os[k] == Add(c);
    }
    if c in Added(os) {
      var k :| 0 <= k < |os| && os[k] == Add(c);
      assert items[k].created == Some(today);
    }
  }

  /** The Verion cell: the larger of the IOL700 count and the reservation count (0 when absent). */
  function VerionCell(table: map<string, set<string>>, reservation: map<string, nat>): (n: nat)
    ensures n >= |SetOf(table, "IOL700")|
    ensures "verion" in reservation ==> n >= reservation["verion"]
    ensures n == |SetOf(table, "IOL700")| || ("verion" in reservation && n == reservation["verion"])
  {
    var iol := |SetOf(table, "IOL700")|;
    var verion := if "verion" in reservation then reservation["verion"] else 0;
    if iol >= verion then iol else verion
  }
}
