/**
 * The folder-structure analyzer (folder_structure_analyzer.py): below a
 * share it searches, down to a maximum depth, for the folders that belong
 * to today (created today, or named with one of today's date strings), and
 * it sorts every folder it meets into one of eight naming layouts. Both
 * searches list a folder only while its depth is at most the maximum, skip
 * files and folders that cannot be listed, and visit folders in listing
 * order, parents before their contents.
 */
module StructureAnalyzer {
  import opened Strings
  import opened Dates
  import opened Files

  // ---------------------------------------------------------------------
  // Naming layouts
  // ---------------------------------------------------------------------

  /** The eight keys of the layout table, in the order it declares them. */
  datatype Layout =
    | Year                 // 'YYYY'
    | YearThenMonth        // 'YYYY\MM'
    | YearThenMonthThenDay // 'YYYY\MM\DD'
    | YearDotMonth         // 'YYYY.MM'
    | YearDotMonthDotDay   // 'YYYY.MM.DD'
    | MonthDotDay          // 'MM.DD'
    | NamedMonthDay        // '장비명 MM.DD'
    | Other                // '기타'

  /** str.isdigit: non-empty and every character a digit. */
  predicate IsDigitText(s: string) { |s| > 0 && AllDigits(s) }

  /** str.isalpha for one character: Latin letters and Hangul syllables. */
  predicate IsAlpha(c: char)
  {
    ('a' <= c <= 'z') || ('A' <= c <= 'Z') || ('가' <= c <= '힣')
  }

  predicate HasAlpha(s: string) { exists i | 0 <= i < |s| :: IsAlpha(s[i]) }

  /** str.split('.'): the pieces between the dots, empty pieces included. */
  function SplitDot(s: string): (parts: seq<string>)
    ensures |parts| >= 1
    ensures forall k | 0 <= k < |parts| :: !HasChar(parts[k], '.')
    ensures |parts| >= 2 <==> HasChar(s, '.')
  {
    if s == [] then [[]]
    else if s[0] == '.' then
      assert HasChar(s, '.') by { assert s[0] == '.'; }
      [[]] + SplitDot(s[1..])
    else
      var r := SplitDot(s[1..]);
      assert HasChar(s, '.') <==> HasChar(s[1..], '.') by {
        if HasChar(s, '.') {
          var i :| 0 <= i < |s| && s[i] == '.';
          assert s[1..][i - 1] == '.';
        }
        if HasChar(s[1..], '.') {
          var i :| 0 <= i < |s[1..]| && s[1..][i] == '.';
          assert s[i + 1] == '.';
        }
      }
      [[s[0]] + r[0]] + r[1..]
  }

  /** '.'.join(parts) */
  function JoinDot(parts: seq<string>): string
    requires |parts| >= 1
  {
    if |parts| == 1 then parts[0] else parts[0] + "." + JoinDot(parts[1..])
  }

  /** Splitting on the dots loses nothing: joining the pieces gives the name back. */
  lemma {:induction false} SplitJoinDot(s: string)
    ensures JoinDot(SplitDot(s)) == s
  {
    if s != [] {
      SplitJoinDot(s[1..]);
      if s[0] != '.' {
        var r := SplitDot(s[1..]);
        if |r| > 1 {
          assert ([s[0]] + r[0]) + "." + JoinDot(r[1..]) == [s[0]] + (r[0] + "." + JoinDot(r[1..]));
        }
      }
    }
  }

  predicate DigitPieces(parts: seq<string>) { forall k | 0 <= k < |parts| :: IsDigitText(parts[k]) }

  /** The layout of one folder name, by the rules tried in order. */
  function Classify(name: string): (l: Layout)
  {
    if IsDigitText(name) && |name| == 4 then Year
    else if IsDigitText(name) && |name| == 2 then YearThenMonth
    else if HasChar(name, '.') then
      var parts := SplitDot(name);
      if |parts| == 2 && DigitPieces(parts) then
        (if |parts[0]| == 4 then YearDotMonth else MonthDotDay)
      else if |parts| == 3 && DigitPieces(parts) then YearDotMonthDotDay
      else if HasAlpha(name) then NamedMonthDay
      else Other
    else Other
  }

  /**
   * What each layout means, both ways. A dotted name is never all digits,
   * so the dotted rules cannot be shadowed by the first two; and no name is
   * ever filed under 'YYYY\MM\DD', which no rule produces.
   */
  lemma {:induction false} ClassifyMeaning(name: string)
    ensures Classify(name) != YearThenMonthThenDay
    ensures Classify(name) == Year <==> IsDigitText(name) && |name| == 4
    ensures Classify(name) == YearThenMonth <==> IsDigitText(name) && |name| == 2
    ensures Classify(name) == YearDotMonth <==>
      |SplitDot(name)| == 2 && DigitPieces(SplitDot(name)) && |SplitDot(name)[0]| == 4
    ensures Classify(name) == MonthDotDay <==>
      |SplitDot(name)| == 2 && DigitPieces(SplitDot(name)) && |SplitDot(name)[0]| != 4
    ensures Classify(name) == YearDotMonthDotDay <==> |SplitDot(name)| == 3 && DigitPieces(SplitDot(name))
    ensures Classify(name) == NamedMonthDay <==>
      HasChar(name, '.') && HasAlpha(name) && !((|SplitDot(name)| == 2 || |SplitDot(name)| == 3) && DigitPieces(SplitDot(name)))
  {
    if HasChar(name, '.') {
      var i :| 0 <= i < |name| && name[i] == '.';
      assert !IsDigit(name[i]);
    }
  }

  // ---------------------------------------------------------------------
  // The layout table
  // ---------------------------------------------------------------------

  /** A folder met by the layout search: its path relative to the share, and its layout. */
  datatype Sorted = Sorted(rel: seq<string>, layout: Layout)

  /** The layout table: for each key, the relative paths filed under it. */
  type Table = map<Layout, seq<seq<string>>>

  predicate Complete(t: Table) { forall l: Layout :: l in t }

  const Initial: Table :=
    map[Year := [], YearThenMonth := [], YearThenMonthThenDay := [], YearDotMonth := [],
        YearDotMonthDotDay := [], MonthDotDay := [], NamedMonthDay := [], Other := []]

  lemma InitialComplete()
    ensures Complete(Initial)
  {
    forall l: Layout ensures l in Initial {
      match l
      case Year =>
      case YearThenMonth =>
      case YearThenMonthThenDay =>
      case YearDotMonth =>
      case YearDotMonthDotDay =>
      case MonthDotDay =>
      case NamedMonthDay =>
      case Other =>
    }
  }

  /** The table as the search starts: every key present, every list empty. */
  function EmptyTable(): (t: Table)
    ensures Complete(t) && forall l | l in t :: t[l] == []
  {
    InitialComplete();
    Initial
  }

  /** Files one folder: appends its relative path to the bucket of its layout. */
  function File(t: Table, s: Sorted): (r: Table)
    requires Complete(t)
    ensures Complete(r)
    ensures r[s.layout] == t[s.layout] + [s.rel]
    ensures forall l | l != s.layout :: r[l] == t[l]
  {
    t[s.layout := t[s.layout] + [s.rel]]
  }

  /** Filing a list of folders one after the other. */
  function FileAll(t: Table, ss: seq<Sorted>): (r: Table)
    requires Complete(t)
    ensures Complete(r)
  {
    if ss == [] then t else FileAll(File(t, ss[0]), ss[1..])
  }

  lemma {:induction false} FileAllAppend(t: Table, a: seq<Sorted>, b: seq<Sorted>)
    requires Complete(t)
    ensures FileAll(t, a + b) == FileAll(FileAll(t, a), b)
  {
    if a == [] {
      assert a + b == b;
    } else {
      assert a + b != [] && (a + b)[0] == a[0] && (a + b)[1..] == a[1..] + b;
      FileAllAppend(File(t, a[0]), a[1..], b);
      assert FileAll(t, a + b) == FileAll(File(t, a[0]), a[1..] + b);
      assert FileAll(t, a) == FileAll(File(t, a[0]), a[1..]);
    }
  }

  /** The folders of one layout, in the order they were met. */
  function OfLayout(ss: seq<Sorted>, l: Layout): (r: seq<seq<string>>)
    ensures |r| <= |ss|
  {
    if ss == [] then [] else (if ss[0].layout == l then [ss[0].rel] else []) + OfLayout(ss[1..], l)
  }

  /** Each list of the table is what it held before followed by the folders of its own layout, in order. */
  lemma {:induction false} FileAllContents(t: Table, ss: seq<Sorted>, l: Layout)
    requires Complete(t)
    ensures FileAll(t, ss)[l] == t[l] + OfLayout(ss, l)
  {
    if ss != [] {
      FileAllContents(File(t, ss[0]), ss[1..], l);
    }
  }

  /** How many folders the table holds, over its eight lists. */
  function Total(t: Table): nat
    requires Complete(t)
  {
    |t[Year]| + |t[YearThenMonth]| + |t[YearThenMonthThenDay]| + |t[YearDotMonth]| +
    |t[YearDotMonthDotDay]| + |t[MonthDotDay]| + |t[NamedMonthDay]| + |t[Other]|
  }

  /** Every folder lands in exactly one list: the table grows by one entry per folder filed. */
  lemma {:induction false} TotalCount(t: Table, ss: seq<Sorted>)
    requires Complete(t)
    ensures Total(FileAll(t, ss)) == Total(t) + |ss|
  {
    if ss != [] {
      assert Total(File(t, ss[0])) == Total(t) + 1;
      TotalCount(File(t, ss[0]), ss[1..]);
    }
  }

  // ---------------------------------------------------------------------
  // The layout search
  // ---------------------------------------------------------------------

  /** The folders the layout search meets below e, listed at the given depth, in visit order. */
  function SortedBelow(e: Entry, depth: nat, maxDepth: nat, rel: seq<string>): seq<Sorted>
    decreases e, 1
  {
    if depth > maxDepth || !(e.isDir && e.listable) then []
    else SortedFrom(e, 0, depth, maxDepth, rel)
  }

  function SortedFrom(e: Entry, i: nat, depth: nat, maxDepth: nat, rel: seq<string>): seq<Sorted>
    decreases e, 0, |e.children| - i
  {
    if i >= |e.children| then []
    else
      var c := e.children[i];
      (if c.isDir then [Sorted(rel + [c.name], Classify(c.name))] + SortedBelow(c, depth + 1, maxDepth, rel + [c.name]) else [])
      + SortedFrom(e, i + 1, depth, maxDepth, rel)
  }

  /**
   * The search never reaches past the maximum depth: a folder met by the
   * search started at depth 0 lies one to max_depth + 1 levels below the share.
   */
  lemma {:induction false} SortedDepth(e: Entry, depth: nat, maxDepth: nat, rel: seq<string>)
    ensures forall s | s in SortedBelow(e, depth, maxDepth, rel) ::
      |rel| < |s.rel| <= |rel| + maxDepth + 1 - depth && s.rel[..|rel|] == rel &&
      s.layout == Classify(s.rel[|s.rel| - 1])
    decreases e, 1
  {
    if !(depth > maxDepth || !(e.isDir && e.listable)) {
      SortedFromDepth(e, 0, depth, maxDepth, rel);
    }
  }

  lemma {:induction false} SortedFromDepth(e: Entry, i: nat, depth: nat, maxDepth: nat, rel: seq<string>)
    requires depth <= maxDepth
    ensures forall s | s in SortedFrom(e, i, depth, maxDepth, rel) ::
      |rel| < |s.rel| <= |rel| + maxDepth + 1 - depth && s.rel[..|rel|] == rel &&
      s.layout == Classify(s.rel[|s.rel| - 1])
    decreases e, 0, |e.children| - i
  {
    if i < |e.children| {
      var c := e.children[i];
      var cur := rel + [c.name];
      SortedFromDepth(e, i + 1, depth, maxDepth, rel);
      if c.isDir {
        SortedDepth(c, depth + 1, maxDepth, cur);
        assert forall s | s in SortedBelow(c, depth + 1, maxDepth, cur) :: s.rel[..|rel|] == rel by {
          forall s | s in SortedBelow(c, depth + 1, maxDepth, cur)
            ensures s.rel[..|rel|] == rel
          {
            assert s.rel[..|cur|][..|rel|] == s.rel[..|rel|];
          }
        }
        assert cur[..|rel|] == rel;
      }
    }
  }

  /** search(current_path, depth, rel_path) of _analyze_naming_patterns. */
  method SortFolders(e: Entry, depth: nat, maxDepth: nat, rel: seq<string>, t0: Table) returns (t: Table)
    requires Complete(t0)
    ensures t == FileAll(t0, SortedBelow(e, depth, maxDepth, rel))
    decreases e
  {
    if depth > maxDepth || !(e.isDir && e.listable) {
      return t0;
    }
    t := t0;
    var i := 0;
    while i < |e.children|
      invariant 0 <= i <= |e.children|
      invariant Complete(t)
      invariant FileAll(t, SortedFrom(e, i, depth, maxDepth, rel)) == FileAll(t0, SortedFrom(e, 0, depth, maxDepth, rel))
    {
      var c := e.children[i];
      SortedFromStep(e, i, depth, maxDepth, rel);
      if c.isDir {
        var current := rel + [c.name];
        FileStep(t, Sorted(current, Classify(c.name)), SortedBelow(c, depth + 1, maxDepth, current),
                 SortedFrom(e, i + 1, depth, maxDepth, rel));
        t := File(t, Sorted(current, Classify(c.name)));
        t := SortFolders(c, depth + 1, maxDepth, current, t);
      } else {
        assert SortedFrom(e, i, depth, maxDepth, rel) == SortedFrom(e, i + 1, depth, maxDepth, rel);
      }
      i := i + 1;
    }
  }

  lemma SortedFromStep(e: Entry, i: nat, depth: nat, maxDepth: nat, rel: seq<string>)
    requires i < |e.children|
    ensures var c := e.children[i];
      SortedFrom(e, i, depth, maxDepth, rel) ==
      (if c.isDir then [Sorted(rel + [c.name], Classify(c.name))] + SortedBelow(c, depth + 1, maxDepth, rel + [c.name]) else [])
      + SortedFrom(e, i + 1, depth, maxDepth, rel)
  {
  }

  lemma FileStep(t: Table, s: Sorted, below: seq<Sorted>, rest: seq<Sorted>)
    requires Complete(t)
    ensures FileAll(t, [s] + below + rest) == FileAll(FileAll(File(t, s), below), rest)
  {
    FileAllAppend(t, [s] + below, rest);
    assert ([s] + below)[1..] == below;
  }

  /** _analyze_naming_patterns(path, max_depth): the filled table, nothing when the share cannot be listed. */
  method AnalyzeNamingPatterns(fs: FileSystem, path: Path, maxDepth: nat) returns (t: Table)
    ensures Complete(t)
    ensures forall l: Layout :: t[l] == OfLayout(SortedAt(fs, path, maxDepth), l)
    ensures Total(t) == |SortedAt(fs, path, maxDepth)|
    ensures t[YearThenMonthThenDay] == []
  {
    var ss := SortedAt(fs, path, maxDepth);
    match Locate(fs, path)
    case None =>
      t := EmptyTable();
    case Some(e) =>
      t := SortFolders(e, 0, maxDepth, [], EmptyTable());
    assert t == FileAll(EmptyTable(), ss);
    SortedAtNamed(fs, path, maxDepth);
    FilledTable(ss);
  }

  /** Every folder met is filed by the layout of its own name. */
  lemma SortedAtNamed(fs: FileSystem, path: Path, maxDepth: nat)
    ensures forall s | s in SortedAt(fs, path, maxDepth) :: |s.rel| > 0 && s.layout == Classify(s.rel[|s.rel| - 1])
  {
    match Locate(fs, path)
    case None =>
    case Some(e) => SortedDepth(e, 0, maxDepth, []);
  }

  /** The empty table filled with the folders met: each layout lists its folders, nothing under 'YYYY\MM\DD'. */
  lemma FilledTable(ss: seq<Sorted>)
    requires forall s | s in ss :: |s.rel| > 0 && s.layout == Classify(s.rel[|s.rel| - 1])
    ensures forall l: Layout :: FileAll(EmptyTable(), ss)[l] == OfLayout(ss, l)
    ensures Total(FileAll(EmptyTable(), ss)) == |ss|
    ensures FileAll(EmptyTable(), ss)[YearThenMonthThenDay] == []
  {
    var t0 := EmptyTable();
    forall l: Layout ensures FileAll(t0, ss)[l] == OfLayout(ss, l) {
      FileAllContents(t0, ss, l);
      assert t0[l] == [];
    }
    assert Total(t0) == 0;
    TotalCount(t0, ss);
    NeverDayFolder(ss);
  }

  /** The folders met below a share, in visit order. */
  function SortedAt(fs: FileSystem, path: Path, maxDepth: nat): seq<Sorted>
  {
    match Locate(fs, path)
    case Some(e) => SortedBelow(e, 0, maxDepth, [])
    case None => []
  }

  /** No folder is ever filed under 'YYYY\MM\DD'. */
  lemma {:induction false} NeverDayFolder(ss: seq<Sorted>)
    requires forall s | s in ss :: |s.rel| > 0 && s.layout == Classify(s.rel[|s.rel| - 1])
    ensures OfLayout(ss, YearThenMonthThenDay) == []
  {
    if ss != [] {
      ClassifyMeaning(ss[0].rel[|ss[0].rel| - 1]);
      assert forall s | s in ss[1..] :: s in ss;
      NeverDayFolder(ss[1..]);
    }
  }

  // ---------------------------------------------------------------------
  // The today search
  // ---------------------------------------------------------------------

  /** The five date strings a today folder's name may hold. */
  function TodayNamePatterns(d: Date): (ps: seq<string>)
    requires Valid(d)
    ensures |ps| == 5
  {
    [Compact(d), Dotted(d), Dashed(d), MonthDay(d), MonthDayDash(d)]
  }

  /** A recorded folder: its path relative to the share and its full path. */
  datatype Hit = Hit(rel: seq<string>, full: Path)

  /** A folder belongs to today: created today, or its name holds one of today's date strings. */
  predicate Today(c: Entry, d: Date)
    requires Valid(d)
  {
    c.created == Some(d) || ContainsAny(c.name, TodayNamePatterns(d))
  }

  /**
   * The two checks on one folder: the creation date appends without looking,
   * the name appends only when the pair is not listed yet. A folder created
   * today whose name also holds the date is therefore recorded once.
   */
  function Record(found: seq<Hit>, c: Entry, h: Hit, d: Date): (r: seq<Hit>)
    requires Valid(d)
    ensures !Today(c, d) ==> r == found
    ensures Today(c, d) && h !in found ==> r == found + [h]
    ensures h in found && c.created != Some(d) ==> r == found
    ensures c.created == Some(d) ==> r == found + [h]
  {
    var byDate := if c.created == Some(d) then found + [h] else found;
    if ContainsAny(c.name, TodayNamePatterns(d)) && h !in byDate then byDate + [h] else byDate
  }

  /** today_folders after the search below e, started with found. */
  function TodayBelow(e: Entry, p: Path, depth: nat, maxDepth: nat, rel: seq<string>, d: Date, found: seq<Hit>): seq<Hit>
    requires Valid(d)
    decreases e, 1
  {
    if depth > maxDepth || !(e.isDir && e.listable) then found
    else TodayFrom(e, p, 0, depth, maxDepth, rel, d, found)
  }

  function TodayFrom(e: Entry, p: Path, i: nat, depth: nat, maxDepth: nat, rel: seq<string>, d: Date, found: seq<Hit>): seq<Hit>
    requires Valid(d)
    decreases e, 0, |e.children| - i
  {
    if i >= |e.children| then found
    else
      var c := e.children[i];
      var next := if c.isDir then
        TodayBelow(c, Child(p, c.name), depth + 1, maxDepth, rel + [c.name], d,
                   Record(found, c, Hit(rel + [c.name], Child(p, c.name)), d))
      else found;
      TodayFrom(e, p, i + 1, depth, maxDepth, rel, d, next)
  }

  /** The folders of today below e, as a set: an independent account of what the search records. */
  function TodaySet(e: Entry, p: Path, depth: nat, maxDepth: nat, rel: seq<string>, d: Date): set<Hit>
    requires Valid(d)
    decreases e, 1
  {
    if depth > maxDepth || !(e.isDir && e.listable) then {}
    else TodaySetFrom(e, p, 0, depth, maxDepth, rel, d)
  }

  function TodaySetFrom(e: Entry, p: Path, i: nat, depth: nat, maxDepth: nat, rel: seq<string>, d: Date): set<Hit>
    requires Valid(d)
    decreases e, 0, |e.children| - i
  {
    if i >= |e.children| then {}
    else
      var c := e.children[i];
      (if c.isDir then
         (if Today(c, d) then {Hit(rel + [c.name], Child(p, c.name))} else {}) +
         TodaySet(c, Child(p, c.name), depth + 1, maxDepth, rel + [c.name], d)
       else {})
      + TodaySetFrom(e, p, i + 1, depth, maxDepth, rel, d)
  }

  /** The search records exactly the folders of today within the depth bound, keeping what it started with. */
  lemma {:induction false} TodayBelowMeaning(e: Entry, p: Path, depth: nat, maxDepth: nat, rel: seq<string>, d: Date, found: seq<Hit>)
    requires Valid(d)
    ensures forall h :: h in TodayBelow(e, p, depth, maxDepth, rel, d, found) <==>
      h in found || h in TodaySet(e, p, depth, maxDepth, rel, d)
    decreases e, 1
  {
    if !(depth > maxDepth || !(e.isDir && e.listable)) {
      TodayFromMeaning(e, p, 0, depth, maxDepth, rel, d, found);
    }
  }

  lemma {:induction false} TodayFromMeaning(e: Entry, p: Path, i: nat, depth: nat, maxDepth: nat, rel: seq<string>, d: Date, found: seq<Hit>)
    requires Valid(d)
    ensures forall h :: h in TodayFrom(e, p, i, depth, maxDepth, rel, d, found) <==>
      h in found || h in TodaySetFrom(e, p, i, depth, maxDepth, rel, d)
    decreases e, 0, |e.children| - i
  {
    if i < |e.children| {
      var c := e.children[i];
      var q := Child(p, c.name);
      var cur := rel + [c.name];
      if c.isDir {
        var recorded := Record(found, c, Hit(cur, q), d);
        assert forall h :: h in recorded <==> h in found || (Today(c, d) && h == Hit(cur, q));
        TodayBelowMeaning(c, q, depth + 1, maxDepth, cur, d, recorded);
        TodayFromMeaning(e, p, i + 1, depth, maxDepth, rel, d, TodayBelow(c, q, depth + 1, maxDepth, cur, d, recorded));
      } else {
        TodayFromMeaning(e, p, i + 1, depth, maxDepth, rel, d, found);
      }
    }
  }

  /** Only folders are recorded, and only within the depth bound. */
  lemma {:induction false} TodaySetDepth(e: Entry, p: Path, depth: nat, maxDepth: nat, rel: seq<string>, d: Date)
    requires Valid(d)
    ensures forall h | h in TodaySet(e, p, depth, maxDepth, rel, d) ::
      |rel| < |h.rel| <= |rel| + maxDepth + 1 - depth && h.rel[..|rel|] == rel
    decreases e, 1
  {
    if !(depth > maxDepth || !(e.isDir && e.listable)) {
      TodaySetFromDepth(e, p, 0, depth, maxDepth, rel, d);
    }
  }

  lemma {:induction false} TodaySetFromDepth(e: Entry, p: Path, i: nat, depth: nat, maxDepth: nat, rel: seq<string>, d: Date)
    requires Valid(d) && depth <= maxDepth
    ensures forall h | h in TodaySetFrom(e, p, i, depth, maxDepth, rel, d) ::
      |rel| < |h.rel| <= |rel| + maxDepth + 1 - depth && h.rel[..|rel|] == rel
    decreases e, 0, |e.children| - i
  {
    if i < |e.children| {
      var c := e.children[i];
      var cur := rel + [c.name];
      TodaySetFromDepth(e, p, i + 1, depth, maxDepth, rel, d);
      if c.isDir {
        TodaySetDepth(c, Child(p, c.name), depth + 1, maxDepth, cur, d);
        assert cur[..|rel|] == rel;
        forall h | h in TodaySet(c, Child(p, c.name), depth + 1, maxDepth, cur, d)
          ensures h.rel[..|rel|] == rel
        {
          assert h.rel[..|rel|] == h.rel[..|cur|][..|rel|];
        }
      }
    }
  }

  /** No hit is listed twice. */
  predicate NoRepeats(hs: seq<Hit>)
  {
    forall i, j | 0 <= i < j < |hs| :: hs[i] != hs[j]
  }

  lemma NoRepeatsSnoc(hs: seq<Hit>, x: Hit)
    requires NoRepeats(hs) && x !in hs
    ensures NoRepeats(hs + [x])
  {
    assert forall i | 0 <= i < |hs| :: (hs + [x])[i] == hs[i];
  }

  /** The hit lies at or below the folder reached by the path cur. */
  predicate AtOrBelow(h: Hit, cur: seq<string>)
  {
    |cur| <= |h.rel| && h.rel[..|cur|] == cur
  }

  /**
   * Started with a list that repeats nothing and holds nothing strictly below
   * e, the search below e repeats nothing: a folder is reached once, by the
   * one path its distinct sibling names spell.
   */
  lemma {:induction false} TodayBelowNoRepeats(e: Entry, p: Path, depth: nat, maxDepth: nat, rel: seq<string>, d: Date, found: seq<Hit>)
    requires Valid(d) && WellNamed(e) && NoRepeats(found)
    requires forall h | h in found :: !(|rel| < |h.rel| && AtOrBelow(h, rel))
    ensures NoRepeats(TodayBelow(e, p, depth, maxDepth, rel, d, found))
    decreases e, 1
  {
    if !(depth > maxDepth || !(e.isDir && e.listable)) {
      forall h, j | h in found && 0 <= j < |e.children|
        ensures !AtOrBelow(h, rel + [e.children[j].name])
      {
        if |rel| + 1 <= |h.rel| {
          assert h.rel[..|rel|] == h.rel[..|rel| + 1][..|rel|];
        }
      }
      TodayFromNoRepeats(e, p, 0, depth, maxDepth, rel, d, found);
    }
  }

  lemma {:induction false} TodayFromNoRepeats(e: Entry, p: Path, i: nat, depth: nat, maxDepth: nat, rel: seq<string>, d: Date, found: seq<Hit>)
    requires Valid(d) && WellNamed(e) && NoRepeats(found)
    requires forall h, j | h in found && i <= j < |e.children| :: !AtOrBelow(h, rel + [e.children[j].name])
    ensures NoRepeats(TodayFrom(e, p, i, depth, maxDepth, rel, d, found))
    decreases e, 0, |e.children| - i
  {
    if i < |e.children| {
      var c := e.children[i];
      var q := Child(p, c.name);
      var cur := rel + [c.name];
      if c.isDir {
        var h0 := Hit(cur, q);
        assert AtOrBelow(h0, cur);
        assert h0 !in found;
        NoRepeatsSnoc(found, h0);
        var recorded := Record(found, c, h0, d);
        assert recorded == found || recorded == found + [h0];
        assert NoRepeats(recorded);
        forall h | h in recorded
          ensures !(|cur| < |h.rel| && AtOrBelow(h, cur))
        {
          if h in found {
            assert !AtOrBelow(h, cur);
          }
        }
        TodayBelowNoRepeats(c, q, depth + 1, maxDepth, cur, d, recorded);
        var next := TodayBelow(c, q, depth + 1, maxDepth, cur, d, recorded);
        TodayBelowMeaning(c, q, depth + 1, maxDepth, cur, d, recorded);
        TodaySetDepth(c, q, depth + 1, maxDepth, cur, d);
        forall h, j | h in next && i + 1 <= j < |e.children|
          ensures !AtOrBelow(h, rel + [e.children[j].name])
        {
          var other := rel + [e.children[j].name];
          assert e.children[i].name != e.children[j].name;
          if h !in found {
            assert AtOrBelow(h, cur);
            assert h.rel[|rel|] == h.rel[..|cur|][|rel|] == c.name;
            assert other[|rel|] == e.children[j].name;
          }
        }
        TodayFromNoRepeats(e, p, i + 1, depth, maxDepth, rel, d, next);
      } else {
        TodayFromNoRepeats(e, p, i + 1, depth, maxDepth, rel, d, found);
      }
    }
  }

  /** search(current_path, depth) of _find_today_folders. */
  method FindBelow(e: Entry, p: Path, depth: nat, maxDepth: nat, rel: seq<string>, d: Date, found0: seq<Hit>)
    returns (found: seq<Hit>)
    requires Valid(d)
    ensures found == TodayBelow(e, p, depth, maxDepth, rel, d, found0)
    decreases e
  {
    if depth > maxDepth || !(e.isDir && e.listable) {
      return found0;
    }
    var patterns := TodayNamePatterns(d);
    found := found0;
    var i := 0;
    while i < |e.children|
      invariant 0 <= i <= |e.children|
      invariant TodayFrom(e, p, i, depth, maxDepth, rel, d, found) == TodayFrom(e, p, 0, depth, maxDepth, rel, d, found0)
    {
      var c := e.children[i];
      if c.isDir {
        var itemPath := Child(p, c.name);
        var hit := Hit(rel + [c.name], itemPath);
        if c.created == Some(d) {
          found := found + [hit];
        }
        var k := 0;
        while k < |patterns|
          invariant 0 <= k <= |patterns|
          invariant forall j | 0 <= j < k :: !Contains(c.name, patterns[j])
        {
          if Contains(c.name, patterns[k]) {
            if hit !in found {
              found := found + [hit];
            }
            break;
          }
          k := k + 1;
        }
        found := FindBelow(c, itemPath, depth + 1, maxDepth, rel + [c.name], d, found);
      }
      i := i + 1;
    }
  }

  /** _find_today_folders(path, max_depth): today_folders in the order they were recorded. */
  method FindTodayFolders(fs: FileSystem, path: Path, maxDepth: nat, d: Date) returns (found: seq<Hit>)
    requires Valid(d)
    requires Locate(fs, path).Some? ==> WellNamed(Locate(fs, path).value)
    ensures forall h :: h in found <==> h in TodayAt(fs, path, maxDepth, d)
    ensures forall h | h in found :: 0 < |h.rel| <= maxDepth + 1
    ensures forall i, j | 0 <= i < j < |found| :: found[i] != found[j]
  {
    match Locate(fs, path)
    case None =>
      found := [];
    case Some(e) =>
      found := FindBelow(e, path, 0, maxDepth, [], d, []);
      TodayBelowMeaning(e, path, 0, maxDepth, [], d, []);
      TodaySetDepth(e, path, 0, maxDepth, [], d);
      TodayBelowNoRepeats(e, path, 0, maxDepth, [], d, []);
  }

  /** The folders of today below a share. */
  function TodayAt(fs: FileSystem, path: Path, maxDepth: nat, d: Date): set<Hit>
    requires Valid(d)
  {
    match Locate(fs, path)
    case Some(e) => TodaySet(e, path, 0, maxDepth, [], d)
    case None => {}
  }

  // ---------------------------------------------------------------------
  // The whole analysis
  // ---------------------------------------------------------------------

  /** What analyze_directory finds: nothing for a missing path, else the today folders and the layout table. */
  datatype Report = Missing | Analyzed(today: seq<Hit>, layouts: Table)

  /** analyze_directory(directory_path, max_depth): the two searches after the existence check. */
  method AnalyzeDirectory(fs: FileSystem, path: Path, maxDepth: nat, d: Date) returns (r: Report)
    requires Valid(d)
    requires Locate(fs, path).Some? ==> WellNamed(Locate(fs, path).value)
    ensures r.Missing? <==> !Exists(fs, path)
    ensures r.Analyzed? ==> forall h :: h in r.today <==> h in TodayAt(fs, path, maxDepth, d)
    ensures r.Analyzed? ==> forall i, j | 0 <= i < j < |r.today| :: r.today[i] != r.today[j]
    ensures r.Analyzed? ==> Complete(r.layouts) && forall l: Layout :: r.layouts[l] == OfLayout(SortedAt(fs, path, maxDepth), l)
  {
    if !Exists(fs, path) {
      return Missing;
    }
    var today := FindTodayFolders(fs, path, maxDepth, d);
    var layouts := AnalyzeNamingPatterns(fs, path, maxDepth);
    r := Analyzed(today, layouts);
  }
}
