/**
 * An abstract file system: the equipment shares as trees of entries, each
 * with a name, a directory flag, a creation date (None when getctime raises),
 * and a flag saying whether listing the directory succeeds. Paths are a
 * mount root (the configured base path) and a list of components.
 */
module Files {
  import opened Strings
  import opened Dates

  datatype Entry = Entry(name: string, isDir: bool, created: Option<Date>, listable: bool, children: seq<Entry>)

  datatype Path = Path(root: string, comps: seq<string>)

  /**
   * A folder the configuration gives as full path text: the text (which the
   * programs test for placeholders such as '[TODO') and the path it names.
   */
  datatype FolderRef = FolderRef(text: string, path: Path)

  /** The configured base paths that are reachable, each with the tree below it. */
  datatype FileSystem = FileSystem(mounts: map<string, Entry>)

  predicate IsSep(c: char) { c == '\\' || c == '/' }

  /** The non-empty pieces of s between separators, as os.path.join sees a relative part. */
  function Components(s: string): (r: seq<string>)
    ensures forall k | 0 <= k < |r| :: |r[k]| > 0 && !HasChar(r[k], '\\') && !HasChar(r[k], '/')
    decreases |s|
  {
    if s == [] then []
    else if IsSep(s[0]) then Components(s[1..])
    else
      var n := FirstSep(s, 0);
      [s[..n]] + Components(s[n..])
  }

  /** The index of the first separator at or after i, or |s|. */
  function FirstSep(s: string, i: nat): (n: nat)
    requires i <= |s|
    ensures i <= n <= |s| && (n < |s| ==> IsSep(s[n]))
    ensures forall k | i <= k < n :: !IsSep(s[k])
    decreases |s| - i
  {
    if i == |s| || IsSep(s[i]) then i else FirstSep(s, i + 1)
  }

  /** os.path.join(base, relative) for a relative part written with either separator. */
  function Join(p: Path, s: string): Path
  {
    Path(p.root, p.comps + Components(s))
  }

  /** os.path.join(directory, name) for a name taken from a listing. */
  function Child(p: Path, name: string): Path
  {
    Path(p.root, p.comps + [name])
  }

  /** The text of a path, with the Windows separator. */
  function PathText(p: Path): string
  {
    p.root + CompsText(p.comps)
  }

  function CompsText(cs: seq<string>): string
  {
    if cs == [] then [] else CompsText(cs[..|cs| - 1]) + "\\" + cs[|cs| - 1]
  }

  /** The first entry of a listing with the given name. */
  function Find(cs: seq<Entry>, name: string): (r: Option<Entry>)
    ensures r.Some? ==> r.value in cs && r.value.name == name
    ensures r.None? ==> forall k | 0 <= k < |cs| :: cs[k].name != name
  {
    if cs == [] then None else if cs[0].name == name then Some(cs[0]) else Find(cs[1..], name)
  }

  function LocateIn(e: Entry, comps: seq<string>): Option<Entry>
    decreases |comps|
  {
    if comps == [] then Some(e)
    else if !e.isDir then None
    else match Find(e.children, comps[0])
      case None => None
      case Some(c) => LocateIn(c, comps[1..])
  }

  function Locate(fs: FileSystem, p: Path): Option<Entry>
  {
    if p.root in fs.mounts then LocateIn(fs.mounts[p.root], p.comps) else None
  }

  /** os.path.exists */
  predicate Exists(fs: FileSystem, p: Path) { Locate(fs, p).Some? }

  /** os.path.isfile */
  predicate IsFile(fs: FileSystem, p: Path) { Locate(fs, p).Some? && !Locate(fs, p).value.isDir }

  /** os.path.isdir */
  predicate IsDir(fs: FileSystem, p: Path) { Locate(fs, p).Some? && Locate(fs, p).value.isDir }

  /** os.listdir / os.scandir / Path.iterdir: None stands for the OSError they raise. */
  function ListDir(fs: FileSystem, p: Path): (r: Option<seq<Entry>>)
    ensures r.Some? ==> IsDir(fs, p)
  {
    match Locate(fs, p)
    case Some(e) => if e.isDir && e.listable then Some(e.children) else None
    case None => None
  }

  /** The names of a listing, in listing order. */
  function Names(cs: seq<Entry>): (r: seq<string>)
    ensures |r| == |cs| && forall k | 0 <= k < |cs| :: r[k] == cs[k].name
  {
    seq(|cs|, k requires 0 <= k < |cs| => cs[k].name)
  }

  /** Sibling entries have distinct names, at every level, as in a real directory. */
  predicate WellNamed(e: Entry)
    decreases e
  {
    (forall i, j | 0 <= i < j < |e.children| :: e.children[i].name != e.children[j].name) &&
    (forall k | 0 <= k < |e.children| :: WellNamed(e.children[k]))
  }

  /** Looking up a listed child by its name finds that very child. */
  lemma {:induction false} FindListed(cs: seq<Entry>, k: nat)
    requires k < |cs|
    requires forall i, j | 0 <= i < j < |cs| :: cs[i].name != cs[j].name
    ensures Find(cs, cs[k].name) == Some(cs[k])
  {
    if k > 0 {
      assert cs[0].name != cs[k].name;
      FindListed(cs[1..], k - 1);
      assert cs[1..][k - 1] == cs[k];
    }
  }

  /** The child path of a listed entry locates that entry. */
  lemma ChildLocates(fs: FileSystem, p: Path, k: nat)
    requires ListDir(fs, p).Some? && k < |ListDir(fs, p).value|
    requires WellNamed(Locate(fs, p).value)
    ensures Locate(fs, Child(p, ListDir(fs, p).value[k].name)) == Some(ListDir(fs, p).value[k])
  {
    var e := Locate(fs, p).value;
    FindListed(e.children, k);
    LocateAppend(fs.mounts[p.root], p.comps, e.children[k].name);
  }

  lemma {:induction false} LocateAppend(e: Entry, comps: seq<string>, name: string)
    requires LocateIn(e, comps).Some?
    ensures LocateIn(e, comps + [name]) ==
      (var d := LocateIn(e, comps).value; if d.isDir then Find(d.children, name) else None)
    decreases |comps|
  {
    if comps == [] {
      assert [name][1..] == [];
    } else {
      var c := Find(e.children, comps[0]).value;
      assert (comps + [name])[1..] == comps[1..] + [name];
      LocateAppend(c, comps[1..], name);
    }
  }

  // ----------------------------------------------------------------- os.walk

  /** One triple yielded by os.walk: the directory, its sub-directories and its other entries. */
  datatype WalkStep = WalkStep(dir: Path, dirs: seq<Entry>, files: seq<Entry>)

  function SubDirs(cs: seq<Entry>): (r: seq<Entry>)
    ensures forall x | x in r :: x in cs && x.isDir
    ensures forall x | x in cs && x.isDir :: x in r
  {
    if cs == [] then [] else (if cs[0].isDir then [cs[0]] else []) + SubDirs(cs[1..])
  }

  function NonDirs(cs: seq<Entry>): (r: seq<Entry>)
    ensures forall x | x in r :: x in cs && !x.isDir
    ensures forall x | x in cs && !x.isDir :: x in r
  {
    if cs == [] then [] else (if !cs[0].isDir then [cs[0]] else []) + NonDirs(cs[1..])
  }

  /**
   * os.walk(top) with its defaults: top-down, a directory that cannot be
   * listed is silently skipped (onerror is None), symbolic links are not part
   * of this model.
   */
  function Walk(p: Path, e: Entry): seq<WalkStep>
    decreases e, 1
  {
    if !(e.isDir && e.listable) then []
    else [WalkStep(p, SubDirs(e.children), NonDirs(e.children))] + WalkChildren(p, e, 0)
  }

  function WalkChildren(p: Path, e: Entry, i: nat): seq<WalkStep>
    decreases e, 0, |e.children| - i
  {
    if i >= |e.children| then []
    else
      var c := e.children[i];
      (if c.isDir then Walk(Child(p, c.name), c) else []) + WalkChildren(p, e, i + 1)
  }

  /** os.walk of a path: nothing when the path is missing. */
  function WalkPath(fs: FileSystem, p: Path): seq<WalkStep>
  {
    match Locate(fs, p)
    case Some(e) => Walk(p, e)
    case None => []
  }

  /** Every step of a walk lists a directory strictly below or at its top. */
  lemma {:induction false} WalkStaysBelow(p: Path, e: Entry)
    ensures forall k | 0 <= k < |Walk(p, e)| ::
      Walk(p, e)[k].dir.root == p.root && |Walk(p, e)[k].dir.comps| >= |p.comps| &&
      Walk(p, e)[k].dir.comps[..|p.comps|] == p.comps
    decreases e, 1
  {
    if e.isDir && e.listable {
      WalkChildrenStaysBelow(p, e, 0);
    }
  }

  lemma {:induction false} WalkChildrenStaysBelow(p: Path, e: Entry, i: nat)
    ensures forall k | 0 <= k < |WalkChildren(p, e, i)| ::
      WalkChildren(p, e, i)[k].dir.root == p.root && |WalkChildren(p, e, i)[k].dir.comps| > |p.comps| &&
      WalkChildren(p, e, i)[k].dir.comps[..|p.comps|] == p.comps
    decreases e, 0, |e.children| - i
  {
    if i < |e.children| {
      var c := e.children[i];
      var q := Child(p, c.name);
      WalkChildrenStaysBelow(p, e, i + 1);
      if c.isDir {
        WalkStaysBelow(q, c);
        var w := Walk(q, c);
        forall k | 0 <= k < |w| ensures w[k].dir.comps[..|p.comps|] == p.comps {
          assert w[k].dir.comps[..|q.comps|][..|p.comps|] == w[k].dir.comps[..|p.comps|];
        }
      }
    }
  }
}
