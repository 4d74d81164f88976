/** When the export raises. Only three exceptions can stop it, and each names
    its cause in the disk the export started from: an output folder that is
    already a file, a row whose image is missing, or a row whose image already
    sits where it would be copied. When none of these holds, the export runs
    to the end. */
module ExportErrors {
  import opened Sequences
  import opened Paths
  import opened Split
  import opened Export
  import opened ExportProperties
  import opened ExportTheorems

  /** The image folders the export copies into: one per split, or the single
      images folder when the data is not split. */
  function ImageFolders(output: Path, splitData: bool): seq<Path>
  {
    if splitData then
      [ SplitFolder(output, true, "train", "images"), SplitFolder(output, true, "val", "images"),
        SplitFolder(output, true, "test", "images") ]
    else
      [SplitFolder(output, false, "all", "images")]
  }

  /** Why a record step raised: its image was missing from the disk the steps
      started from, or the copy's destination is its own image. */
  predicate StepBlamed(d: Disk, a: Action, e: ExportError)
  {
    && a.Emit?
    && ((e == SourceMissing(a.record.filePath) && a.record.filePath !in d.files)
        || (e == SameFile(a.record.filePath) && a.record.filePath == a.imageFile))
  }

  /** Why an export from disk d raised, in terms of its inputs alone. */
  predicate Blamed(d: Disk, fetched: seq<Record>, output: Path, splitData: bool, e: ExportError)
  {
    match e
    case FolderBlocked(f) => f in OutputFolders(output, splitData) && f in d.files
    case SourceMissing(src) => src !in d.files && exists r :: r in fetched && r.filePath == src
    case SameFile(src) =>
      exists r, f :: r in fetched && f in ImageFolders(output, splitData) && r.filePath == src && src == Join(f, Basename(src))
  }

  /** The makedirs loop touches no file and no accumulator entry, and it
      raises only on a folder that is already a file. */
  lemma {:induction false} MakeDirsRun(p: Progress, folders: seq<Path>)
    requires p.failure.None?
    ensures Run(p, MakeDirsActions(folders)).disk.files == p.disk.files
    ensures Run(p, MakeDirsActions(folders)).labelData == p.labelData
    ensures Run(p, MakeDirsActions(folders)).failure.Some? ==>
      exists f :: f in folders && f in p.disk.files && Run(p, MakeDirsActions(folders)).failure == Some(FolderBlocked(f))
    decreases |folders|
  {
    if folders != [] {
      var init, last := folders[..|folders| - 1], folders[|folders| - 1];
      var s := MakeDirsActions(folders);
      assert s[..|s| - 1] == MakeDirsActions(init);
      var q := Run(p, MakeDirsActions(init));
      assert Run(p, s) == Apply(q, MakeDirs(last));
      MakeDirsRun(p, init);
      if q.failure.Some? {
        var f :| f in init && f in p.disk.files && q.failure == Some(FolderBlocked(f));
        assert f in folders;
      } else if Run(p, s).failure.Some? {
        assert last in folders;
      }
    }
  }

  /** A run of record steps from a state without an exception raises only
      because of one of its steps, and the cause is in the starting disk:
      files are never removed, so a source missing later was missing then. */
  lemma {:induction false} EmitsRun(p: Progress, s: seq<Action>)
    requires p.failure.None?
    requires forall i :: 0 <= i < |s| ==> s[i].Emit?
    ensures Run(p, s).failure.Some? ==>
      exists i :: 0 <= i < |s| && StepBlamed(p.disk, s[i], Run(p, s).failure.value)
  {
    if s != [] {
      var init, last := s[..|s| - 1], s[|s| - 1];
      var q := Run(p, init);
      assert Run(p, s) == Apply(q, last);
      assert forall i :: 0 <= i < |init| ==> init[i] == s[i];
      EmitsRun(p, init);
      if q.failure.Some? {
        var i :| 0 <= i < |init| && StepBlamed(p.disk, init[i], q.failure.value);
        assert s[i] == init[i];
      } else if Run(p, s).failure.Some? {
        RunFootprint(p, init);
        assert StepBlamed(p.disk, s[|s| - 1], Run(p, s).failure.value);
      }
    }
  }

  /** Why an export of the splits bs from disk d raised: an output folder
      that is already a file, or a row of some split whose image is missing
      or already sits in the split's image folder under its basename. */
  predicate PlanBlamed(d: Disk, output: Path, splitData: bool, bs: seq<Bucket<Record>>, e: ExportError)
  {
    match e
    case FolderBlocked(f) => f in OutputFolders(output, splitData) && f in d.files
    case SourceMissing(src) => src !in d.files && exists c, r :: 0 <= c < |bs| && r in bs[c].items && r.filePath == src
    case SameFile(src) =>
      exists c, r :: 0 <= c < |bs| && r in bs[c].items && r.filePath == src
                     && src == Join(SplitFolder(output, splitData, bs[c].name, "images"), Basename(src))
  }

  /** The split loop raises only because of one of its rows. */
  lemma EmitAllFailure(q: Progress, output: Path, splitData: bool, bs: seq<Bucket<Record>>)
    requires q.failure.None?
    ensures Run(q, EmitAll(output, splitData, bs)).failure.Some? ==>
      PlanBlamed(q.disk, output, splitData, bs, Run(q, EmitAll(output, splitData, bs)).failure.value)
  {
    var emits := EmitAll(output, splitData, bs);
    forall i | 0 <= i < |emits| ensures emits[i].Emit? {
      EmitAllAt(output, splitData, bs, i);
    }
    EmitsRun(q, emits);
    var e := Run(q, emits).failure;
    if e.Some? {
      var i :| 0 <= i < |emits| && StepBlamed(q.disk, emits[i], e.value);
      EmitAllAt(output, splitData, bs, i);
      var c :| 0 <= c < |bs| && StepOf(output, splitData, bs[c], emits[i]);
      var r := emits[i].record;
      assert r in bs[c].items && emits[i] == StepIn(output, splitData, bs[c].name, r);
    }
  }

  /** The export of any splits raises only for a reason in the starting disk. */
  lemma PlanFailure(p: Progress, output: Path, splitData: bool, bs: seq<Bucket<Record>>)
    requires p.failure.None?
    ensures Run(p, Plan(output, splitData, bs)).failure.Some? ==>
      PlanBlamed(p.disk, output, splitData, bs, Run(p, Plan(output, splitData, bs)).failure.value)
  {
    var pre, emits := MakeDirsActions(OutputFolders(output, splitData)), EmitAll(output, splitData, bs);
    RunAppend(p, pre, emits);
    MakeDirsRun(p, OutputFolders(output, splitData));
    var q := Run(p, pre);
    if q.failure.None? {
      EmitAllFailure(q, output, splitData, bs);
      assert q.disk.files == p.disk.files;
    }
  }

  /** A shuffled row is a fetched row. */
  lemma ShuffledFetched(fetched: seq<Record>, order: seq<nat>, r: Record)
    requires IsPermutation(order, |fetched|) && r in Shuffle(fetched, order)
    ensures r in fetched
  {
    var records := Shuffle(fetched, order);
    var k :| 0 <= k < |records| && records[k] == r;
    assert r == fetched[order[k]];
  }

  /** A row of one bucket is a row of all buckets. */
  lemma {:induction false} InFlatten<T>(bs: seq<Bucket<T>>, c: nat, r: T)
    requires c < |bs| && r in bs[c].items
    ensures r in Flatten(bs)
    decreases |bs|
  {
    var init := bs[..|bs| - 1];
    if c < |bs| - 1 {
      assert init[c] == bs[c];
      InFlatten(init, c, r);
    }
  }

  /** A row of a split is one of the fetched rows. */
  lemma RowFetched(fetched: seq<Record>, order: seq<nat>, splitData: bool, trainRatio: real,
                   valRatio: real, c: nat, r: Record)
    requires IsPermutation(order, |fetched|) && 0.0 <= trainRatio && 0.0 <= valRatio
    requires c < |Splits(fetched, order, splitData, trainRatio, valRatio)|
    requires r in Splits(fetched, order, splitData, trainRatio, valRatio)[c].items
    ensures r in fetched
  {
    var records := Shuffle(fetched, order);
    InFlatten(Splits(fetched, order, splitData, trainRatio, valRatio), c, r);
    PartitionRestoresRecords(records, splitData, SplitCount(|records|, trainRatio), SplitCount(|records|, valRatio));
    ShuffledFetched(fetched, order, r);
  }

  /** Every split copies into one of the image folders. */
  lemma SplitImageFolder(records: seq<Record>, output: Path, splitData: bool, t: nat, v: nat, c: nat)
    requires c < |Partition(records, splitData, t, v)|
    ensures SplitFolder(output, splitData, Partition(records, splitData, t, v)[c].name, "images") in ImageFolders(output, splitData)
  {
    var fs := ImageFolders(output, splitData);
    if splitData {
      assert c == 0 || c == 1 || c == 2;
      if c == 0 { assert fs[0] in fs; } else if c == 1 { assert fs[1] in fs; } else { assert fs[2] in fs; }
    } else {
      assert fs[0] in fs;
    }
  }

  /** The exception that stops the export, if any, is one the inputs explain:
      an output folder that is already a file, a fetched row whose image is
      missing, or a fetched row whose image is already the file its copy
      would write. */
  lemma ExportFailure(d: Disk, fetched: seq<Record>, order: seq<nat>, output: Path, splitData: bool,
                      trainRatio: real, valRatio: real)
    requires IsPermutation(order, |fetched|) && 0.0 <= trainRatio && 0.0 <= valRatio
    ensures var q := ExportRun(d, fetched, order, output, splitData, trainRatio, valRatio);
      q.failure.Some? ==> Blamed(d, fetched, output, splitData, q.failure.value)
  {
    var bs := Splits(fetched, order, splitData, trainRatio, valRatio);
    PlanFailure(Progress(d, map[], None), output, splitData, bs);
    var e := ExportRun(d, fetched, order, output, splitData, trainRatio, valRatio).failure;
    if e.Some? && e.value.SourceMissing? {
      var c, r :| 0 <= c < |bs| && r in bs[c].items && r.filePath == e.value.source;
      RowFetched(fetched, order, splitData, trainRatio, valRatio, c, r);
    } else if e.Some? && e.value.SameFile? {
      var src := e.value.source;
      var c, r :| 0 <= c < |bs| && r in bs[c].items && r.filePath == src
                  && src == Join(SplitFolder(output, splitData, bs[c].name, "images"), Basename(src));
      RowFetched(fetched, order, splitData, trainRatio, valRatio, c, r);
      var records := Shuffle(fetched, order);
      SplitImageFolder(records, output, splitData, SplitCount(|records|, trainRatio), SplitCount(|records|, valRatio), c);
    }
  }

  /** The export runs to the end when no output folder is already a file,
      every fetched row's image exists, and no row's image already sits in
      an image folder under its own basename. */
  lemma ExportSucceeds(d: Disk, fetched: seq<Record>, order: seq<nat>, output: Path, splitData: bool,
                       trainRatio: real, valRatio: real)
    requires IsPermutation(order, |fetched|) && 0.0 <= trainRatio && 0.0 <= valRatio
    requires forall f :: f in OutputFolders(output, splitData) ==> f !in d.files
    requires forall r :: r in fetched ==> r.filePath in d.files
    requires forall r, f :: r in fetched && f in ImageFolders(output, splitData) ==> r.filePath != Join(f, Basename(r.filePath))
    ensures ExportRun(d, fetched, order, output, splitData, trainRatio, valRatio).failure.None?
  {
    ExportFailure(d, fetched, order, output, splitData, trainRatio, valRatio);
  }
}
