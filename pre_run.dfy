/**
 * The pre-run check (pre_run_check.py): it samples the file names of each
 * equipment's today folder (the base when that folder is missing), and
 * checks that every configured path exists, folding the answers into one
 * all_ok flag. Writing the sample and report files is left out; the
 * samples written and the flags returned are modelled.
 */
module PreRunCheck {
  import opened Strings
  import opened Dates
  import opened Files
  import opened DatePaths

  /** config['equipment'][id]: the base path and folder_structure (None when missing). */
  datatype PreRunEquipment = PreRunEquipment(base: Path, folderStructure: Option<string>)

  // ---------------------------------------------------------- sampling

  /** A sampled file: its name, and the green marker of a file created today (getctime failing gives no marker). */
  datatype Sample = Sample(name: string, today: bool)

  /** collect_file_samples: False when the base or the listing fails, else the folder listed and its samples. */
  datatype SampleRun = BaseUnreachable | ListingFailed(folder: Path) | Sampled(folder: Path, samples: seq<Sample>)

  /** The folder sampled: the guessed today folder when it exists, else the base. */
  function SampleFolder(fs: FileSystem, eq: PreRunEquipment, d: Date): (p: Path)
    requires Valid(d)
    ensures p == eq.base || (p == PreRunTodayFolder(eq.base, eq.folderStructure, d) && Exists(fs, p))
    ensures Exists(fs, PreRunTodayFolder(eq.base, eq.folderStructure, d)) ==> p == PreRunTodayFolder(eq.base, eq.folderStructure, d)
  {
    var guess := PreRunTodayFolder(eq.base, eq.folderStructure, d);
    if Exists(fs, guess) then guess else eq.base
  }

  /** The regular files of a listing, in listing order. */
  function FileEntries(es: seq<Entry>): (r: seq<Entry>)
    ensures |r| <= |es|
    ensures forall k | 0 <= k < |r| :: !r[k].isDir && r[k] in es
    ensures forall e | e in es && !e.isDir :: e in r
  {
    if es == [] then []
    else
      var init := FileEntries(es[..|es| - 1]);
      assert forall e | e in init :: e in es[..|es| - 1];
      if es[|es| - 1].isDir then init else init + [es[|es| - 1]]
  }

  function AsSample(e: Entry, d: Date): Sample
  {
    Sample(e.name, e.created == Some(d))
  }

  /** The samples of a list of files, in order. */
  function AsSamples(fs: seq<Entry>, d: Date): (r: seq<Sample>)
    ensures |r| == |fs| && forall k | 0 <= k < |fs| :: r[k] == AsSample(fs[k], d)
  {
    seq(|fs|, k requires 0 <= k < |fs| => AsSample(fs[k], d))
  }

  /** The loop breaks once file_count >= max_samples, after writing the file that reached it: a cap of 0 still writes one. */
  function Cap(maxSamples: nat): (c: nat)
    ensures c >= 1 && (maxSamples >= 1 ==> c == maxSamples)
  {
    if maxSamples == 0 then 1 else maxSamples
  }

  /** The samples written: the first Cap(max) files of the listing; directories are passed over and do not count. */
  function SamplesOf(es: seq<Entry>, d: Date, maxSamples: nat): (r: seq<Sample>)
    ensures |r| <= Cap(maxSamples) && |r| <= |FileEntries(es)|
    ensures |FileEntries(es)| <= Cap(maxSamples) ==> |r| == |FileEntries(es)|
    ensures forall k | 0 <= k < |r| :: r[k] == AsSample(FileEntries(es)[k], d)
  {
    var files := FileEntries(es);
    var n := if |files| <= Cap(maxSamples) then |files| else Cap(maxSamples);
    AsSamples(files[..n], d)
  }

  function SampleRunOf(fs: FileSystem, eq: PreRunEquipment, d: Date, maxSamples: nat): (r: SampleRun)
    requires Valid(d)
    ensures r.BaseUnreachable? <==> !Exists(fs, eq.base)
    ensures r.Sampled? ==> r.folder == SampleFolder(fs, eq, d) && ListDir(fs, r.folder).Some? &&
                           r.samples == SamplesOf(ListDir(fs, r.folder).value, d, maxSamples)
  {
    if !Exists(fs, eq.base) then BaseUnreachable
    else
      var folder := SampleFolder(fs, eq, d);
      match ListDir(fs, folder)
      case None => ListingFailed(folder)
      case Some(es) => Sampled(folder, SamplesOf(es, d, maxSamples))
  }

  predicate IsPrefix(a: seq<Entry>, b: seq<Entry>)
  {
    |a| <= |b| && a == b[..|a|]
  }

  /** A prefix of a listing has as its files a prefix of the listing's files. */
  lemma {:induction false} FileEntriesPrefix(es: seq<Entry>, i: nat)
    requires i <= |es|
    ensures IsPrefix(FileEntries(es[..i]), FileEntries(es))
    decreases |es|
  {
    if i == |es| {
      assert es[..i] == es;
    } else {
      var init := es[..|es| - 1];
      assert init[..i] == es[..i];
      FileEntriesPrefix(init, i);
      var a, b := FileEntries(es[..i]), FileEntries(init);
      assert FileEntries(es)[..|b|] == b;
      assert FileEntries(es)[..|a|] == b[..|a|];
    }
  }

  lemma FileEntriesStep(es: seq<Entry>, i: nat)
    requires i < |es|
    ensures FileEntries(es[..i + 1]) == FileEntries(es[..i]) + (if es[i].isDir then [] else [es[i]])
  {
    assert es[..i + 1][..i] == es[..i];
  }

  lemma AsSamplesAppend(a: seq<Entry>, e: Entry, d: Date)
    ensures AsSamples(a + [e], d) == AsSamples(a, d) + [AsSample(e, d)]
  {
  }

  /** Once the files of a prefix reach the cap, they are the files sampled. */
  lemma SamplesAtCap(es: seq<Entry>, j: nat, d: Date, maxSamples: nat)
    requires j <= |es| && |FileEntries(es[..j])| == Cap(maxSamples)
    ensures AsSamples(FileEntries(es[..j]), d) == SamplesOf(es, d, maxSamples)
  {
    FileEntriesPrefix(es, j);
  }

  /** The sampling loop: one sample per file, stopping at the cap. */
  method SampleListing(es: seq<Entry>, d: Date, maxSamples: nat) returns (samples: seq<Sample>)
    ensures samples == SamplesOf(es, d, maxSamples)
  {
    samples := [];
    var fileCount := 0;
    var i := 0;
    while i < |es|
      invariant 0 <= i <= |es|
      invariant samples == AsSamples(FileEntries(es[..i]), d)
      invariant fileCount == |samples| < Cap(maxSamples)
    {
      FileEntriesStep(es, i);
      if !es[i].isDir {
        AsSamplesAppend(FileEntries(es[..i]), es[i], d);
        samples := samples + [AsSample(es[i], d)];
        fileCount := fileCount + 1;
        if fileCount >= maxSamples {
          SamplesAtCap(es, i + 1, d, maxSamples);
          return;
        }
      }
      i := i + 1;
    }
    assert es[..i] == es;
  }

  method CollectFileSamples(fs: FileSystem, eq: PreRunEquipment, d: Date, maxSamples: nat) returns (r: SampleRun)
    requires Valid(d)
    ensures r == SampleRunOf(fs, eq, d, maxSamples)
  {
    if !Exists(fs, eq.base) {
      return BaseUnreachable;
    }
    var folder := eq.base;
    if eq.folderStructure.Some? && eq.folderStructure.value != "" {
      folder := PreRunTodayFolder(eq.base, eq.folderStructure, d);
      if !Exists(fs, folder) {
        folder := eq.base;
      }
    }
    var listing := ListDir(fs, folder);
    if listing.None? {
      return ListingFailed(folder);
    }
    var samples := SampleListing(listing.value, d, maxSamples);
    r := Sampled(folder, samples);
  }

  /** How many equipment sampled successfully (success_count). */
  function SuccessCount(fs: FileSystem, eqs: seq<PreRunEquipment>, d: Date, maxSamples: nat): (n: nat)
    requires Valid(d)
    ensures n <= |eqs|
  {
    if eqs == [] then 0
    else SuccessCount(fs, eqs[..|eqs| - 1], d, maxSamples) +
         (if SampleRunOf(fs, eqs[|eqs| - 1], d, maxSamples).Sampled? then 1 else 0)
  }

  method CollectAllSamples(fs: FileSystem, eqs: seq<PreRunEquipment>, d: Date, maxSamples: nat)
    returns (runs: seq<SampleRun>, successCount: nat)
    requires Valid(d)
    ensures |runs| == |eqs| && forall k | 0 <= k < |eqs| :: runs[k] == SampleRunOf(fs, eqs[k], d, maxSamples)
    ensures successCount == SuccessCount(fs, eqs, d, maxSamples)
  {
    runs := [];
    successCount := 0;
    var i := 0;
    while i < |eqs|
      invariant 0 <= i <= |eqs| && |runs| == i
      invariant forall k | 0 <= k < i :: runs[k] == SampleRunOf(fs, eqs[k], d, maxSamples)
      invariant successCount == SuccessCount(fs, eqs[..i], d, maxSamples)
    {
      assert eqs[..i + 1][..i] == eqs[..i];
      var r := CollectFileSamples(fs, eqs[i], d, maxSamples);
      runs := runs + [r];
      if r.Sampled? {
        successCount := successCount + 1;
      }
      i := i + 1;
    }
    assert eqs[..i] == eqs;
  }

  /** With a cap of at least one, no more than max_samples files are written and none is a directory. */
  lemma SamplesCapped(fs: FileSystem, eq: PreRunEquipment, d: Date, maxSamples: nat)
    requires Valid(d) && maxSamples >= 1
    requires SampleRunOf(fs, eq, d, maxSamples).Sampled?
    ensures |SampleRunOf(fs, eq, d, maxSamples).samples| <= maxSamples
    ensures forall s | s in SampleRunOf(fs, eq, d, maxSamples).samples ::
      exists e | e in ListDir(fs, SampleRunOf(fs, eq, d, maxSamples).folder).value :: !e.isDir && s.name == e.name
  {
    var r := SampleRunOf(fs, eq, d, maxSamples);
    var es := ListDir(fs, r.folder).value;
    forall s | s in r.samples
      ensures exists e | e in es :: !e.isDir && s.name == e.name
    {
      var k :| 0 <= k < |r.samples| && r.samples[k] == s;
      assert FileEntries(es)[k] in es;
    }
  }

  // ---------------------------------------------------- path verification

  /** An equipment passes when its base exists and, with a folder structure, today's folder too. */
  predicate EquipmentPathOk(fs: FileSystem, eq: PreRunEquipment, d: Date)
    requires Valid(d)
  {
    Exists(fs, eq.base) &&
    (eq.folderStructure.Some? && eq.folderStructure.value != "" ==> Exists(fs, PreRunTodayFolder(eq.base, eq.folderStructure, d)))
  }

  /** A fundus folder passes when it is not a placeholder and exists. */
  predicate FundusPathOk(fs: FileSystem, f: FolderRef)
  {
    !Contains(f.text, "[TODO") && !Contains(f.text, "[하위폴더]") && Exists(fs, f.path)
  }

  /**
   * verify_all_paths: the all_ok flag threaded through both loops. The
   * fundus folders are those of special_items['안저'] (None when that item is
   * not configured).
   */
  method VerifyAllPaths(fs: FileSystem, eqs: seq<PreRunEquipment>, fundus: Option<seq<FolderRef>>, d: Date)
    returns (allOk: bool)
    requires Valid(d)
    ensures allOk <==>
      (forall k | 0 <= k < |eqs| :: EquipmentPathOk(fs, eqs[k], d)) &&
      (fundus.Some? ==> forall k | 0 <= k < |fundus.value| :: FundusPathOk(fs, fundus.value[k]))
  {
    allOk := true;
    var i := 0;
    while i < |eqs|
      invariant 0 <= i <= |eqs|
      invariant allOk <==> forall k | 0 <= k < i :: EquipmentPathOk(fs, eqs[k], d)
    {
      var eq := eqs[i];
      if Exists(fs, eq.base) {
        if eq.folderStructure.Some? && eq.folderStructure.value != "" {
          var today := PreRunTodayFolder(eq.base, eq.folderStructure, d);
          if !Exists(fs, today) {
            allOk := false;
          }
        }
      } else {
        allOk := false;
      }
      i := i + 1;
    }
    ghost var equipmentOk := allOk;
    if fundus.Some? {
      var folders := fundus.value;
      var j := 0;
      while j < |folders|
        invariant 0 <= j <= |folders|
        invariant allOk <==> equipmentOk && forall k | 0 <= k < j :: FundusPathOk(fs, folders[k])
      {
        var f := folders[j];
        if Contains(f.text, "[TODO") || Contains(f.text, "[하위폴더]") {
          allOk := false;
        } else if !Exists(fs, f.path) {
          allOk := false;
        }
        j := j + 1;
      }
    }
  }
}
