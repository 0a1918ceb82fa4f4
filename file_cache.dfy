/**
 * The incremental file-name cache (file_cache_manager.py). For each scanned
 * directory a JSON file under the folder ".file_cache" records the names
 * seen so far; a later scan checks only the names that are not yet cached.
 *
 * The cache folder is a class with two fields, whether the folder exists and
 * the files in it (name to contents), updated in place by the save, update
 * and clear operations. The reads are functions of the folder's contents,
 * and every operation is specified by a function of those contents.
 */
module FileCache {
  import opened Strings

  const CacheDir := ".file_cache"

  /** hashlib.md5(directory.encode('utf-8')).hexdigest(): left uninterpreted. */
  type Digest = string -> string

  // --------------------------------------------------------- get_cache_path

  /** A character never appears in s after every occurrence of it is replaced by text without it. */
  lemma {:induction false} ReplaceRemoves(s: string, c: char, rep: string)
    requires !HasChar(rep, c)
    ensures !HasChar(Replace(s, [c], rep), c)
    decreases |s|
  {
    if |s| >= 1 {
      var rest := Replace(s[1..], [c], rep);
      ReplaceRemoves(s[1..], c, rep);
      if s[..1] == [c] {
        HasCharAppend(rep, rest, c);
      } else {
        assert s[0] != c by { assert s[..1][0] == s[0]; }
        HasCharAppend([s[0]], rest, c);
      }
    }
  }

  /** The directory text with '\' and '/' turned into '_' and ':' dropped. */
  function Flattened(dir: string): (f: string)
    ensures !HasChar(f, '\\') && !HasChar(f, '/') && !HasChar(f, ':')
  {
    var a := Replace(dir, "\\", "_");
    var b := Replace(a, "/", "_");
    ReplaceRemoves(dir, '\\', "_");
    ReplaceRemoves(a, '/', "_");
    ReplaceChars(a, "/", "_", '\\');
    ReplaceRemoves(b, ':', "");
    ReplaceChars(b, ":", "", '\\');
    ReplaceChars(b, ":", "", '/');
    Replace(b, ":", "")
  }

  /** The name segment of a cache file: the flattened text, cut to its last 50 characters. */
  function CleanName(dir: string): (c: string)
    ensures |c| <= 50
    ensures |c| == if |Flattened(dir)| > 50 then 50 else |Flattened(dir)|
    ensures EndsWith(Flattened(dir), c)
    ensures !HasChar(c, '\\') && !HasChar(c, '/') && !HasChar(c, ':')
  {
    var f := Flattened(dir);
    var c := if |f| > 50 then f[|f| - 50..] else f;
    assert !HasChar(c, '\\') && !HasChar(c, '/') && !HasChar(c, ':') by {
      if |f| > 50 {
        forall i | 0 <= i < |c| ensures c[i] == f[|f| - 50 + i] { }
      }
    }
    c
  }

  /** The first twelve hex digits of the directory's hash (all of it when shorter). */
  function HashPrefix(dir: string, md5: Digest): (h: string)
    ensures |h| == if |md5(dir)| < 12 then |md5(dir)| else 12
    ensures StartsWith(md5(dir), h)
  {
    var d := md5(dir);
    if |d| < 12 then d else d[..12]
  }

  /** The cache file's name inside the cache folder: cache_<clean>_<hash>.json. */
  function CacheName(dir: string, md5: Digest): (n: string)
    ensures StartsWith(n, "cache_") && EndsWith(n, ".json")
    ensures |n| == 12 + |CleanName(dir)| + |HashPrefix(dir, md5)|
    ensures n[6..6 + |CleanName(dir)|] == CleanName(dir)
    ensures n[|n| - 5 - |HashPrefix(dir, md5)|..|n| - 5] == HashPrefix(dir, md5)
  {
    var c, h := CleanName(dir), HashPrefix(dir, md5);
    var n := "cache_" + c + "_" + h + ".json";
    assert n[..6] == "cache_";
    assert n[|n| - 5..] == ".json";
    assert n[6..6 + |c|] == c;
    assert n[|n| - 5 - |h|..|n| - 5] == h;
    n
  }

  /**
   * Two directories whose hashes differ in the first twelve digits get
   * different cache files, however their names flatten: the hash sits at a
   * fixed distance from the end of the name.
   */
  lemma DistinctHashesDistinctFiles(d1: string, d2: string, md5: Digest)
    requires |md5(d1)| >= 12 && |md5(d2)| >= 12
    requires md5(d1)[..12] != md5(d2)[..12]
    ensures CacheName(d1, md5) != CacheName(d2, md5)
  {
    var n1, n2 := CacheName(d1, md5), CacheName(d2, md5);
    assert n1[|n1| - 17..|n1| - 5] == md5(d1)[..12];
    assert n2[|n2| - 17..|n2| - 5] == md5(d2)[..12];
  }

  // ------------------------------------------------------------ the store

  /**
   * One file in the cache folder: the JSON object it holds (None for a key
   * that is absent), or Unreadable when open or json.load fails. The
   * 'files' list is kept as the set load_cache turns it into.
   */
  datatype Stored =
    | Record(directory: Option<string>, files: Option<set<string>>,
             count: Option<int>, lastUpdated: Option<string>)
    | Unreadable

  /** The cache folder's contents, by file name. */
  type Store = map<string, Stored>

  /** What load_cache returns: the cached names and the time of the last save. */
  datatype Cache = Cache(files: set<string>, lastUpdated: Option<string>)

  /** load_cache: an absent or unreadable file gives the empty cache with no update time. */
  function Load(store: Store, dir: string, md5: Digest): (c: Cache)
    ensures CacheName(dir, md5) !in store || store[CacheName(dir, md5)].Unreadable? ==>
              c == Cache({}, None)
    ensures CacheName(dir, md5) in store && store[CacheName(dir, md5)].Record? ==>
              c.lastUpdated == store[CacheName(dir, md5)].lastUpdated &&
              (store[CacheName(dir, md5)].files.Some? ==> c.files == store[CacheName(dir, md5)].files.value) &&
              (store[CacheName(dir, md5)].files.None? ==> c.files == {})
  {
    var name := CacheName(dir, md5);
    if name !in store then Cache({}, None)
    else match store[name]
      case Unreadable => Cache({}, None)
      case Record(_, fs, _, t) => Cache(if fs.Some? then fs.value else {}, t)
  }

  /** The set of a listing's names. */
  function SetOf(names: seq<string>): (s: set<string>)
    ensures forall x :: x in s <==> x in names
  {
    set x | x in names
  }

  /** get_new_files: the current names that are not cached (current minus cached). */
  function NewFiles(store: Store, dir: string, md5: Digest, current: seq<string>): (r: set<string>)
    ensures r <= SetOf(current)
    ensures r !! Load(store, dir, md5).files
    ensures forall x | x in current :: x in r || x in Load(store, dir, md5).files
  {
    SetOf(current) - Load(store, dir, md5).files
  }

  /** The record save_cache writes: the directory, its names, their count and the time. */
  function Saved(dir: string, files: set<string>, now: string): (s: Stored)
  {
    Record(Some(dir), Some(files), Some(|files|), Some(now))
  }

  /**
   * How the write of save_cache ends: written; open(path, 'w') failed, which
   * leaves the old file as it was; or json.dump failed after the open had
   * emptied the file, which leaves it empty or cut short and so unreadable.
   */
  datatype WriteOutcome = Written | OpenFailed | DumpFailed

  /** The store after save_cache, for each way the write can end. */
  function Save(store: Store, dir: string, md5: Digest, files: set<string>, now: string, w: WriteOutcome): (s: Store)
    ensures s.Keys == store.Keys + (if w.OpenFailed? then {} else {CacheName(dir, md5)})
    ensures w.Written? ==> s[CacheName(dir, md5)] == Saved(dir, files, now)
    ensures w.OpenFailed? ==> s == store
    ensures w.DumpFailed? ==> s[CacheName(dir, md5)].Unreadable?
    ensures forall n | n in store && n != CacheName(dir, md5) :: s[n] == store[n]
  {
    match w
    case Written => store[CacheName(dir, md5) := Saved(dir, files, now)]
    case OpenFailed => store
    case DumpFailed => store[CacheName(dir, md5) := Unreadable]
  }

  /** The names update_cache_with_today_files saves: the cached ones and all listed ones. */
  function Updated(store: Store, dir: string, md5: Digest, all: seq<string>): (u: set<string>)
    ensures Load(store, dir, md5).files <= u && SetOf(all) <= u
    ensures forall x | x in u :: x in all || x in Load(store, dir, md5).files
  {
    Load(store, dir, md5).files + SetOf(all)
  }

  /** A saved cache loads back as the names saved, stamped with the time of the save. */
  lemma SaveLoads(store: Store, dir: string, md5: Digest, files: set<string>, now: string)
    ensures Load(Save(store, dir, md5, files, now, Written), dir, md5) == Cache(files, Some(now))
    ensures Save(store, dir, md5, files, now, Written)[CacheName(dir, md5)].count == Some(|files|)
  {
  }

  /** Saving one directory's cache leaves every cache kept in another file as it was. */
  lemma SaveKeepsOthers(store: Store, dir: string, other: string, md5: Digest,
                        files: set<string>, now: string, w: WriteOutcome)
    requires CacheName(other, md5) != CacheName(dir, md5)
    ensures Load(Save(store, dir, md5, files, now, w), other, md5) == Load(store, other, md5)
  {
  }

  /**
   * A dump that fails after the open loses this directory's cache: it loads
   * as empty, and the next comparison reports every listed name as new.
   */
  lemma FailedDumpLosesCache(store: Store, dir: string, md5: Digest, files: set<string>, now: string,
                             current: seq<string>)
    ensures Load(Save(store, dir, md5, files, now, DumpFailed), dir, md5) == Cache({}, None)
    ensures NewFiles(Save(store, dir, md5, files, now, DumpFailed), dir, md5, current) == SetOf(current)
  {
  }

  /** A failed open keeps the old cache: it loads as before and reports the same new names. */
  lemma FailedOpenKeepsCache(store: Store, dir: string, md5: Digest, files: set<string>, now: string,
                             current: seq<string>)
    ensures Load(Save(store, dir, md5, files, now, OpenFailed), dir, md5) == Load(store, dir, md5)
    ensures NewFiles(Save(store, dir, md5, files, now, OpenFailed), dir, md5, current) ==
            NewFiles(store, dir, md5, current)
  {
  }

  /** The cached set never shrinks: after an update it holds what it held and every listed name. */
  lemma UpdateNeverShrinks(store: Store, dir: string, md5: Digest, all: seq<string>, now: string)
    ensures var after := Load(Save(store, dir, md5, Updated(store, dir, md5, all), now, Written), dir, md5);
            Load(store, dir, md5).files <= after.files &&
            (forall x | x in all :: x in after.files)
  {
    SaveLoads(store, dir, md5, Updated(store, dir, md5, all), now);
  }

  /** After a successful update with a listing, the same listing has no new names. */
  lemma NoNewFilesAfterUpdate(store: Store, dir: string, md5: Digest, all: seq<string>, now: string)
    ensures NewFiles(Save(store, dir, md5, Updated(store, dir, md5, all), now, Written), dir, md5, all) == {}
  {
    var after := Save(store, dir, md5, Updated(store, dir, md5, all), now, Written);
    SaveLoads(store, dir, md5, Updated(store, dir, md5, all), now);
  }

  /**
   * The scan's premise: once yesterday's listing is cached, the new names of
   * today's listing are exactly those that were not listed yesterday nor cached before.
   */
  lemma NewFilesAfterUpdate(store: Store, dir: string, md5: Digest,
                            yesterday: seq<string>, today: seq<string>, now: string)
    ensures var after := Save(store, dir, md5, Updated(store, dir, md5, yesterday), now, Written);
            forall x :: x in NewFiles(after, dir, md5, today) <==>
              x in today && x !in yesterday && x !in Load(store, dir, md5).files
  {
    SaveLoads(store, dir, md5, Updated(store, dir, md5, yesterday), now);
  }

  /** clear_cache(dir) forgets that directory's cache and no other. */
  lemma ClearForgetsOnlyThat(store: Store, dir: string, other: string, md5: Digest)
    ensures Load(store - {CacheName(dir, md5)}, dir, md5) == Cache({}, None)
    ensures CacheName(other, md5) != CacheName(dir, md5) ==>
              Load(store - {CacheName(dir, md5)}, other, md5) == Load(store, other, md5)
  {
  }

  // --------------------------------------------------------- get_cache_info

  /** One row of get_cache_info, with 'Unknown', 0 and 'Unknown' for absent keys. */
  datatype InfoRow = InfoRow(file: string, directory: string, count: int, lastUpdated: string)

  /** A file get_cache_info reports: a .json name whose contents could be read. */
  predicate Listed(name: string, s: Stored)
  {
    EndsWith(name, ".json") && s.Record?
  }

  function RowOf(name: string, s: Stored): (r: InfoRow)
    requires s.Record?
    ensures r.file == name
  {
    InfoRow(name,
            if s.directory.Some? then s.directory.value else "Unknown",
            if s.count.Some? then s.count.value else 0,
            if s.lastUpdated.Some? then s.lastUpdated.value else "Unknown")
  }

  /** The rows get_cache_info reports for a store, in no particular order. */
  function InfoRows(store: Store): (rows: set<InfoRow>)
    ensures forall r :: r in rows <==>
      r.file in store && Listed(r.file, store[r.file]) && r == RowOf(r.file, store[r.file])
  {
    set name | name in store && Listed(name, store[name]) :: RowOf(name, store[name])
  }

  /** A cache that was saved shows up in get_cache_info with its directory and its count. */
  lemma SavedIsListed(store: Store, dir: string, md5: Digest, files: set<string>, now: string)
    ensures InfoRow(CacheName(dir, md5), dir, |files|, now) in
              InfoRows(Save(store, dir, md5, files, now, Written))
  {
  }

  /** The cache folder, whose contents the operations below read and rewrite. */
  class CacheFolder {
    var present: bool
    var files: Store

    /** Without the folder there are no cache files. */
    predicate Valid()
      reads this
    {
      !present ==> files == map[]
    }

    constructor (present: bool, files: Store)
      requires !present ==> files == map[]
      ensures Valid() && this.present == present && this.files == files
    {
      this.present := present;
      this.files := files;
    }

    /** save_cache: creates the folder, then opens the file for writing and dumps the record. */
    method SaveCache(dir: string, md5: Digest, names: set<string>, now: string, w: WriteOutcome)
      returns (ok: bool)
      modifies this
      ensures Valid() && present
      ensures ok == w.Written?
      ensures files == Save(old(files), dir, md5, names, now, w)
    {
      present := true;
      match w {
        case Written =>
          files := files[CacheName(dir, md5) := Saved(dir, names, now)];
        case OpenFailed =>
        case DumpFailed =>
          files := files[CacheName(dir, md5) := Unreadable];
      }
      ok := w.Written?;
    }

    /** update_cache_with_today_files: saves the cached names plus the listed ones and returns how many. */
    method UpdateCacheWithTodayFiles(dir: string, md5: Digest, all: seq<string>, now: string, w: WriteOutcome)
      returns (n: nat)
      modifies this
      ensures Valid() && present
      ensures n == |Updated(old(files), dir, md5, all)|
      ensures files == Save(old(files), dir, md5, Updated(old(files), dir, md5, all), now, w)
    {
      var cached := Load(files, dir, md5).files;
      var updated := cached + SetOf(all);
      var _ := SaveCache(dir, md5, updated, now, w);
      n := |updated|;
    }

    /**
     * clear_cache: with a directory (a non-empty text), removes its cache file
     * and says whether there was one; without, removes the whole folder and
     * says whether it existed.
     */
    method ClearCache(dir: Option<string>, md5: Digest) returns (removed: bool)
      requires Valid()
      modifies this
      ensures Valid()
      ensures dir.Some? && dir.value != "" ==>
                removed == (CacheName(dir.value, md5) in old(files)) &&
                files == old(files) - {CacheName(dir.value, md5)} && present == old(present)
      ensures dir.None? || dir.value == "" ==>
                removed == old(present) && !present && files == map[]
    {
      if dir.Some? && dir.value != "" {
        var name := CacheName(dir.value, md5);
        removed := name in files;
        files := files - {name};
      } else {
        removed := present;
        present := false;
        files := map[];
      }
    }

    /** get_cache_info: one row for each readable .json file, each file once, in no particular order. */
    method GetCacheInfo() returns (info: seq<InfoRow>)
      requires Valid()
      ensures !present ==> info == []
      ensures forall r :: r in info <==> r in InfoRows(files)
      ensures forall i, j | 0 <= i < j < |info| :: info[i].file != info[j].file
    {
      info := [];
      if !present {
        return;
      }
      var pending := files.Keys;
      while pending != {}
        invariant pending <= files.Keys
        invariant forall r :: r in info <==> r in InfoRows(files) && r.file !in pending
        invariant forall i, j | 0 <= i < j < |info| :: info[i].file != info[j].file
        decreases |pending|
      {
        var name :| name in pending;
        if Listed(name, files[name]) {
          info := info + [RowOf(name, files[name])];
        }
        pending := pending - {name};
      }
    }
  }
}
