/**
 * The today-folder guesser (guess_today_folder.py): it builds sixteen
 * candidate paths for today's folder under a base, in a fixed order with
 * the base itself last, and keeps those that exist, with the number of
 * entries each holds ('?' when listing it fails). Nothing is scanned.
 */
module FolderGuess {
  import opened Strings
  import opened Dates
  import opened Files

  /** A candidate: the layout it stands for and its path. */
  datatype Candidate = Candidate(layout: string, path: Path)

  /** os.path.join(base, *parts) for parts that hold no separator. */
  function Under(base: Path, parts: seq<string>): Path
  {
    Path(base.root, base.comps + parts)
  }

  /** The candidate list, in the order the script appends it. */
  function Candidates(base: Path, d: Date): (cs: seq<Candidate>)
    requires Valid(d)
    ensures |cs| == 16
    ensures cs[15] == Candidate("기본 경로", base)
    ensures cs[13].path == Under(base, [MonthDay(d)]) && cs[14].path == Under(base, [Compact(d)])
    ensures forall k | 0 <= k < 15 :: (cs[k].path.root == base.root &&
      |cs[k].path.comps| > |base.comps| && cs[k].path.comps[..|base.comps|] == base.comps)
  {
    var y, m, dd := Year4(d), Month2(d), Day2(d);
    var md := m + "." + dd;
    var short := MonthDayShort(d);
    [ Candidate("YYYY\\MM\\DD", Under(base, [y, m, dd])),
      Candidate("YYYY\\MM\\DD.MM", Under(base, [y, m, dd + "." + m])),
      Candidate("YYYY\\MM", Under(base, [y, m])),
      Candidate("YYYY\\YYYY.MM", Under(base, [y, y + "." + m])),
      Candidate("YYYY\\MM\\TOPO MM.DD", Under(base, [y, m, "TOPO " + md])),
      Candidate("YYYY\\MM\\TOPO M.D", Under(base, [y, m, "TOPO " + short])),
      Candidate("YYYY\\MM\\ORB MM.DD", Under(base, [y, m, "ORB " + md])),
      Candidate("YYYY\\MM\\ORB M.D", Under(base, [y, m, "ORB " + short])),
      Candidate("YYYY\\MM\\OCT MM.DD", Under(base, [y, m, "OCT " + md])),
      Candidate("YYYY\\MM\\SP MM.DD", Under(base, [y, m, "SP " + md])),
      Candidate("YYYY\\MM\\HFA MM.DD", Under(base, [y, m, "HFA " + md])),
      Candidate("YYYY\\YYYY.MM\\ORB MM.DD", Under(base, [y, y + "." + m, "ORB " + md])),
      Candidate("YYYY\\YYYY.MM\\TOPO MM.DD", Under(base, [y, y + "." + m, "TOPO " + md])),
      Candidate("MM.DD", Under(base, [MonthDay(d)])),
      Candidate("YYYYMMDD", Under(base, [Compact(d)])),
      Candidate("기본 경로", base) ]
  }

  /** str(int(month)) and str(int(day)): the M.D candidates carry the padded values without their leading zero. */
  lemma ShortDropsPadding(d: Date)
    requires Valid(d)
    ensures MonthDayShort(d) == NatToString(DigitsValue(Month2(d))) + "." + NatToString(DigitsValue(Day2(d)))
    ensures d.month < 10 ==> Month2(d) == "0" + NatToString(d.month)
    ensures d.day < 10 ==> Day2(d) == "0" + NatToString(d.day)
  {
    PadValue(d.month);
    PadValue(d.day);
    Pad2VersusNatToString(d.month);
    Pad2VersusNatToString(d.day);
  }

  lemma PadValue(n: nat)
    requires n < 100
    ensures DigitsValue(Pad2(n)) == n
  {
    var p := Pad2(n);
    assert p[..1] == [p[0]] && p[..1][..0] == [];
    assert DigitsValue(p[..1]) == DigitValue(p[0]);
  }

  /** A candidate that exists: its layout, its path, and its entry count (None for '?'). */
  datatype Found = Found(layout: string, path: Path, count: Option<nat>)

  function FoundOne(fs: FileSystem, c: Candidate): Found
  {
    Found(c.layout, c.path, match ListDir(fs, c.path) case Some(es) => Some(|es|) case None => None)
  }

  /** found: the existing candidates, in candidate order. */
  function FoundAmong(fs: FileSystem, cs: seq<Candidate>): (r: seq<Found>)
    ensures |r| <= |cs|
    ensures forall x | x in r :: Exists(fs, x.path) && exists k | 0 <= k < |cs| :: x == FoundOne(fs, cs[k])
    ensures forall k | 0 <= k < |cs| && Exists(fs, cs[k].path) :: FoundOne(fs, cs[k]) in r
  {
    if cs == [] then []
    else
      var init := cs[..|cs| - 1];
      var c := cs[|cs| - 1];
      var prev := FoundAmong(fs, init);
      assert forall k | 0 <= k < |init| :: init[k] == cs[k];
      if Exists(fs, c.path) then prev + [FoundOne(fs, c)] else prev
  }

  /** The existence loop of guess_today_folders. */
  method GuessTodayFolders(fs: FileSystem, base: Path, d: Date) returns (found: seq<Found>)
    requires Valid(d)
    ensures found == FoundAmong(fs, Candidates(base, d))
  {
    var cs := Candidates(base, d);
    found := [];
    var i := 0;
    while i < |cs|
      invariant 0 <= i <= |cs|
      invariant found == FoundAmong(fs, cs[..i])
    {
      assert cs[..i + 1][..i] == cs[..i];
      var c := cs[i];
      if Exists(fs, c.path) {
        var listing := ListDir(fs, c.path);
        if listing.Some? {
          found := found + [Found(c.layout, c.path, Some(|listing.value|))];
        } else {
          found := found + [Found(c.layout, c.path, None)];
        }
      }
      i := i + 1;
    }
    assert cs[..i] == cs;
  }

  /** A reachable base is always found, and as the last entry, since it is the last candidate. */
  lemma BaseFoundLast(fs: FileSystem, base: Path, d: Date)
    requires Valid(d) && Exists(fs, base)
    ensures FoundAmong(fs, Candidates(base, d)) != []
    ensures FoundAmong(fs, Candidates(base, d))[|FoundAmong(fs, Candidates(base, d))| - 1] == FoundOne(fs, Candidate("기본 경로", base))
  {
    var cs := Candidates(base, d);
    assert cs == cs[..15] + [cs[15]];
  }

  /** A candidate is listed with a count exactly when it can be listed. */
  lemma CountIffListable(fs: FileSystem, cs: seq<Candidate>, x: Found)
    requires x in FoundAmong(fs, cs)
    ensures x.count.Some? <==> ListDir(fs, x.path).Some?
    ensures x.count.Some? ==> x.count.value == |ListDir(fs, x.path).value|
  {
    var k :| 0 <= k < |cs| && x == FoundOne(fs, cs[k]);
  }
}
