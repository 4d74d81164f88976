/** The export step of the dataset exporter: create the output folders, then
    for every record of every split copy its image under its basename into the
    split's image folder, append its YOLO line to a per-basename accumulator,
    and rewrite the record's label file with everything accumulated for that
    basename so far.

    The output folder is a `FileSystem` object whose two fields the export
    method updates in place. Its behaviour is specified by `Run`, a fold of
    `Apply` over the list of `Action`s the export performs; the properties of
    that fold are proved in module ExportProperties. */
module Export {
  import opened Sequences
  import opened Strings
  import opened Paths
  import opened Split

  datatype Option<T> = None | Some(value: T)

  /** One row of the annotation query: the image's path, the four normalised
      box coordinates (kept as the text they print as) and the class label. */
  datatype Record = Record(
    filePath: Path,
    xCenter: string,
    yCenter: string,
    width: string,
    height: string,
    className: string)

  /** What a file holds: image bytes, or the text of a label file. */
  datatype FileData = Binary(bytes: seq<bv8>) | Text(text: string)

  /** The exceptions the export lets escape. */
  datatype ExportError =
    | FolderBlocked(folder: Path)   // os.makedirs: a file already has the folder's name
    | SourceMissing(source: Path)   // shutil.copy: the image to copy is not a file
    | SameFile(source: Path)        // shutil.copy: the image would be copied onto itself

  /** The file system as the export sees it: folders and files by path. */
  datatype Disk = Disk(dirs: set<Path>, files: map<Path, FileData>)

  /** The YOLO label line of a record: "class x_center y_center width height". */
  function LabelLine(r: Record): string
  {
    r.className + " " + r.xCenter + " " + r.yCenter + " " + r.width + " " + r.height
  }

  /** The label file of an image: its basename without the extension, plus ".txt". */
  function LabelFileName(fileName: string): string
  {
    SplitextRoot(fileName) + ".txt"
  }

  /** The folders the export creates: train, val and test, each with images
      and labels, or one images/labels pair when the data is not split. */
  function OutputFolders(output: Path, splitData: bool): seq<Path>
  {
    if splitData then
      [ Join(Join(output, "train"), "images"), Join(Join(output, "train"), "labels"),
        Join(Join(output, "val"), "images"), Join(Join(output, "val"), "labels"),
        Join(Join(output, "test"), "images"), Join(Join(output, "test"), "labels") ]
    else
      [Join(output, "images"), Join(output, "labels")]
  }

  /** The image or label folder ("images" or "labels" as kind) of a split. */
  function SplitFolder(output: Path, splitData: bool, split: string, kind: string): Path
  {
    if splitData then Join(Join(output, split), kind) else Join(output, kind)
  }

  /** Why os.makedirs(folder, exist_ok=True) raises, if it does. */
  function MakeDirsFailure(d: Disk, folder: Path): Option<ExportError>
  {
    if folder in d.files then Some(FolderBlocked(folder)) else None
  }

  /** Why shutil.copy(src, dst) raises, if it does. */
  function CopyFailure(d: Disk, src: Path, dst: Path): Option<ExportError>
  {
    if src !in d.files then Some(SourceMissing(src))
    else if src == dst then Some(SameFile(src))
    else None
  }

  /** One step of the export: creating one folder, or exporting one record
      with the paths the loop body computes for it: the image's basename, the
      copy's destination and the label file. */
  datatype Action =
    | MakeDirs(folder: Path)
    | Emit(fileName: string, imageFile: Path, labelFile: Path, record: Record)

  /** The state between steps: the disk, the label_data accumulator (lines by
      image basename), and the exception that stopped the export, if any. */
  datatype Progress = Progress(disk: Disk, labelData: map<string, seq<string>>, failure: Option<ExportError>)

  /** The step of record r into the given image and label folders: its image
      is copied under its basename, its label file is named after it. */
  function RecordStep(imageFolder: Path, labelFolder: Path, r: Record): Action
  {
    var fileName := Basename(r.filePath);
    Emit(fileName, Join(imageFolder, fileName), Join(labelFolder, LabelFileName(fileName)), r)
  }

  /** The files a step writes. */
  function Targets(a: Action): set<Path>
  {
    match a
    case MakeDirs(_) => {}
    case Emit(_, imageFile, labelFile, _) => {imageFile, labelFile}
  }

  /** The folders a step creates. */
  function Folders(a: Action): set<Path>
  {
    match a
    case MakeDirs(folder) => {folder}
    case Emit(_, _, _, _) => {}
  }

  /** The accumulated lines of a basename; none before its first record. */
  function Lines(labelData: map<string, seq<string>>, fileName: string): seq<string>
  {
    if fileName in labelData then labelData[fileName] else []
  }

  /** One step. A stopped export stays stopped; a step that raises leaves
      everything as it was and records the exception. */
  function Apply(p: Progress, a: Action): (q: Progress)
    ensures p.failure.Some? ==> q == p
    ensures q.failure.Some? ==> q.disk == p.disk && q.labelData == p.labelData
  {
    if p.failure.Some? then p
    else
      match a
      case MakeDirs(folder) =>
        var err := MakeDirsFailure(p.disk, folder);
        if err.Some? then p.(failure := err)
        else p.(disk := p.disk.(dirs := p.disk.dirs + {folder}))
      case Emit(fileName, imageFile, labelFile, r) =>
        var err := CopyFailure(p.disk, r.filePath, imageFile);
        if err.Some? then p.(failure := err)
        else
          var lines := Lines(p.labelData, fileName) + [LabelLine(r)];
          var copied := p.disk.files[imageFile := p.disk.files[r.filePath]];
          var written := copied[labelFile := Text(JoinWith(lines, '\n'))];
          Progress(p.disk.(files := written), p.labelData[fileName := lines], None)
  }

  /** The steps one after another, from p. Once a step raises, nothing after
      it happens, so an export that ends without an exception never had one. */
  function Run(p: Progress, actions: seq<Action>): (q: Progress)
    ensures p.failure.Some? ==> q == p
    ensures q.failure.None? ==> p.failure.None?
  {
    if actions == [] then p
    else Apply(Run(p, actions[..|actions| - 1]), actions[|actions| - 1])
  }

  /** for folder in folders: os.makedirs(folder, exist_ok=True) */
  function MakeDirsActions(folders: seq<Path>): seq<Action>
  {
    seq(|folders|, i requires 0 <= i < |folders| => MakeDirs(folders[i]))
  }

  /** The steps for records exported into the given folders, in list order. */
  function RecordSteps(imageFolder: Path, labelFolder: Path, data: seq<Record>): seq<Action>
  {
    seq(|data|, i requires 0 <= i < |data| => RecordStep(imageFolder, labelFolder, data[i]))
  }

  /** The steps for the records of one split, in list order. */
  function EmitBucket(output: Path, splitData: bool, b: Bucket<Record>): seq<Action>
  {
    RecordSteps(SplitFolder(output, splitData, b.name, "images"), SplitFolder(output, splitData, b.name, "labels"), b.items)
  }

  /** The steps for all splits, in dictionary order. */
  function EmitAll(output: Path, splitData: bool, bs: seq<Bucket<Record>>): seq<Action>
  {
    if bs == [] then []
    else EmitAll(output, splitData, bs[..|bs| - 1]) + EmitBucket(output, splitData, bs[|bs| - 1])
  }

  /** Everything the export does once the records are split. */
  function Plan(output: Path, splitData: bool, bs: seq<Bucket<Record>>): seq<Action>
  {
    MakeDirsActions(OutputFolders(output, splitData)) + EmitAll(output, splitData, bs)
  }

  /** The splits of the shuffled records. */
  function Splits(fetched: seq<Record>, order: seq<nat>, splitData: bool, trainRatio: real, valRatio: real): seq<Bucket<Record>>
    requires IsPermutation(order, |fetched|)
    requires 0.0 <= trainRatio && 0.0 <= valRatio
  {
    var records := Shuffle(fetched, order);
    Partition(records, splitData, SplitCount(|records|, trainRatio), SplitCount(|records|, valRatio))
  }

  /** The whole export from disk d, with an empty accumulator. */
  function ExportRun(d: Disk, fetched: seq<Record>, order: seq<nat>, output: Path, splitData: bool,
                     trainRatio: real, valRatio: real): Progress
    requires IsPermutation(order, |fetched|)
    requires 0.0 <= trainRatio && 0.0 <= valRatio
  {
    Run(Progress(d, map[], None), Plan(output, splitData, Splits(fetched, order, splitData, trainRatio, valRatio)))
  }

  /** Running two lists of steps is running the first, then the second. */
  lemma {:induction false} RunAppend(p: Progress, xs: seq<Action>, ys: seq<Action>)
    ensures Run(p, xs + ys) == Run(Run(p, xs), ys)
    decreases |ys|
  {
    if ys == [] {
      assert xs + ys == xs;
    } else {
      AppendInit(xs, ys);
      RunAppend(p, xs, ys[..|ys| - 1]);
    }
  }

  /** Running one more step. */
  lemma RunSnoc(p: Progress, xs: seq<Action>, a: Action)
    ensures Run(p, xs + [a]) == Apply(Run(p, xs), a)
  {
    AppendInit(xs, [a]);
    TakeAllNone([a]);
    assert xs + [] == xs;
  }

  /** Once a step raises, the remaining steps change nothing. */
  lemma RunFailedPrefix(p: Progress, xs: seq<Action>, ys: seq<Action>)
    requires Run(p, xs).failure.Some?
    ensures Run(p, xs + ys) == Run(p, xs)
  {
    RunAppend(p, xs, ys);
  }

  /** The steps of several splits are the steps of each, in order. */
  lemma {:induction false} EmitAllAppend(output: Path, splitData: bool, xs: seq<Bucket<Record>>, ys: seq<Bucket<Record>>)
    ensures EmitAll(output, splitData, xs + ys) == EmitAll(output, splitData, xs) + EmitAll(output, splitData, ys)
    decreases |ys|
  {
    if ys == [] {
      assert xs + ys == xs;
    } else {
      var init, last := ys[..|ys| - 1], ys[|ys| - 1];
      AppendInit(xs, ys);
      EmitAllAppend(output, splitData, xs, init);
      Associate(EmitAll(output, splitData, xs), EmitAll(output, splitData, init), EmitBucket(output, splitData, last));
    }
  }

  /** The steps of the splits up to b, then b's. */
  lemma EmitAllNext(output: Path, splitData: bool, bs: seq<Bucket<Record>>, b: nat)
    requires b < |bs|
    ensures EmitAll(output, splitData, bs[..b + 1]) == EmitAll(output, splitData, bs[..b]) + EmitBucket(output, splitData, bs[b])
  {
    TakeTake(bs, b, b + 1);
  }

  /** Running the splits up to b is running those before b, then b's records
      into b's folders. */
  lemma RunNextSplit(p: Progress, output: Path, splitData: bool, bs: seq<Bucket<Record>>, b: nat,
                     imageFolder: Path, labelFolder: Path)
    requires b < |bs|
    requires imageFolder == SplitFolder(output, splitData, bs[b].name, "images")
    requires labelFolder == SplitFolder(output, splitData, bs[b].name, "labels")
    ensures Run(p, EmitAll(output, splitData, bs[..b + 1]))
         == Run(Run(p, EmitAll(output, splitData, bs[..b])), RecordSteps(imageFolder, labelFolder, bs[b].items))
  {
    EmitAllNext(output, splitData, bs, b);
    RunAppend(p, EmitAll(output, splitData, bs[..b]), RecordSteps(imageFolder, labelFolder, bs[b].items));
  }

  /** An export stopped in split b ends there. */
  lemma RunStopsInSplit(p: Progress, output: Path, splitData: bool, bs: seq<Bucket<Record>>, b: nat)
    requires b < |bs|
    requires Run(p, EmitAll(output, splitData, bs[..b + 1])).failure.Some?
    ensures Run(p, EmitAll(output, splitData, bs)) == Run(p, EmitAll(output, splitData, bs[..b + 1]))
  {
    TakeDrop(bs, b + 1);
    EmitAllAppend(output, splitData, bs[..b + 1], bs[b + 1..]);
    RunFailedPrefix(p, EmitAll(output, splitData, bs[..b + 1]), EmitAll(output, splitData, bs[b + 1..]));
  }

  /** The output folder, updated in place by the export. */
  class FileSystem {
    var dirs: set<Path>
    var files: map<Path, FileData>

    constructor (dirs: set<Path>, files: map<Path, FileData>)
      ensures this.dirs == dirs && this.files == files
    {
      this.dirs := dirs;
      this.files := files;
    }

    function Snapshot(): Disk
      reads this
    {
      Disk(dirs, files)
    }

    /** os.makedirs(folder, exist_ok=True): an existing folder is no error, a
        file of that name is. */
    method MakeDirs(folder: Path) returns (failure: Option<ExportError>)
      modifies this
      ensures failure == MakeDirsFailure(old(Snapshot()), folder)
      ensures files == old(files)
      ensures dirs == if failure.None? then old(dirs) + {folder} else old(dirs)
    {
      if folder in files {
        failure := Some(FolderBlocked(folder));
      } else {
        dirs := dirs + {folder};
        failure := None;
      }
    }

    /** shutil.copy(src, dst): dst gets src's contents, replacing any file there. */
    method Copy(src: Path, dst: Path) returns (failure: Option<ExportError>)
      modifies this
      ensures failure == CopyFailure(old(Snapshot()), src, dst)
      ensures dirs == old(dirs)
      ensures files == if failure.None? then old(files)[dst := old(files)[src]] else old(files)
    {
      if src !in files {
        failure := Some(SourceMissing(src));
      } else if src == dst {
        failure := Some(SameFile(src));
      } else {
        files := files[dst := files[src]];
        failure := None;
      }
    }

    /** open(path, "w").write(text): the file holds exactly text afterwards. */
    method WriteText(path: Path, text: string)
      modifies this
      ensures dirs == old(dirs)
      ensures files == old(files)[path := Text(text)]
    {
      files := files[path := Text(text)];
    }
  }

  /** One more step from a prefix of the steps is the next prefix. */
  lemma RunStep(p: Progress, steps: seq<Action>, j: nat)
    requires j < |steps|
    ensures Run(p, steps[..j + 1]) == Apply(Run(p, steps[..j]), steps[j])
  {
    TakeTake(steps, j, j + 1);
  }

  /** An export stopped by step j ends there. */
  lemma RunStopsAt(p: Progress, steps: seq<Action>, j: nat)
    requires j < |steps|
    requires Run(p, steps[..j + 1]).failure.Some?
    ensures Run(p, steps) == Run(p, steps[..j + 1])
  {
    TakeDrop(steps, j + 1);
    RunFailedPrefix(p, steps[..j + 1], steps[j + 1..]);
  }

  /** One more record from a prefix of a split's records. */
  lemma RunNextRecord(p: Progress, imageFolder: Path, labelFolder: Path, data: seq<Record>, j: nat)
    requires j < |data|
    ensures var steps := RecordSteps(imageFolder, labelFolder, data);
      Run(p, steps[..j + 1]) == Apply(Run(p, steps[..j]), RecordStep(imageFolder, labelFolder, data[j]))
  {
    RunStep(p, RecordSteps(imageFolder, labelFolder, data), j);
  }

  /** A successful step adds exactly its own files and folders. */
  lemma ApplyFootprint(p: Progress, a: Action)
    requires Apply(p, a).failure.None?
    ensures p.failure.None?
    ensures Apply(p, a).disk.files.Keys == p.disk.files.Keys + Targets(a)
    ensures Apply(p, a).disk.dirs == p.disk.dirs + Folders(a)
  {
  }

  /** A record step that copies successfully, spelled out. */
  lemma ApplyEmit(p: Progress, a: Action)
    requires a.Emit? && Apply(p, a).failure.None?
    ensures
      var lines := Lines(p.labelData, a.fileName) + [LabelLine(a.record)];
      Apply(p, a) ==
        Progress(
          p.disk.(files := p.disk.files[a.imageFile := p.disk.files[a.record.filePath]]
                                       [a.labelFile := Text(JoinWith(lines, '\n'))]),
          p.labelData[a.fileName := lines],
          None)
  {
  }

  /** The steps of the whole export, cut just after record j of split b. */
  lemma PlanAt(pre: seq<Action>, output: Path, splitData: bool, bs: seq<Bucket<Record>>, b: nat, j: nat)
    requires b < |bs| && j < |bs[b].items|
    ensures
      var emits := EmitBucket(output, splitData, bs[b]);
      pre + EmitAll(output, splitData, bs)
        == (pre + EmitAll(output, splitData, bs[..b]) + emits[..j + 1]) + (emits[j + 1..] + EmitAll(output, splitData, bs[b + 1..]))
  {
    var emits := EmitBucket(output, splitData, bs[b]);
    var done := EmitAll(output, splitData, bs[..b]);
    var later := EmitAll(output, splitData, bs[b + 1..]);
    EmitAllNext(output, splitData, bs, b);
    TakeDrop(bs, b + 1);
    EmitAllAppend(output, splitData, bs[..b + 1], bs[b + 1..]);
    TakeDrop(emits, j + 1);
    Regroup(pre, done, emits[..j + 1], emits[j + 1..], later);
  }

  /** label_data[f] starts as [] if missing, then gets one more line. */
  lemma AppendLine(labelData: map<string, seq<string>>, fileName: string, line: string)
    ensures
      var started := if fileName in labelData then labelData else labelData[fileName := []];
      started[fileName := started[fileName] + [line]] == labelData[fileName := Lines(labelData, fileName) + [line]]
  {
  }

  /** One pass of the record loop: copy the image under its basename, append
      the record's line to its basename's entry (starting the entry if it is
      new), rewrite the label file with the whole entry. It does exactly what
      the record's step does; when the copy raises, nothing else happens. */
  method ExportRecord(fs: FileSystem, labelData: map<string, seq<string>>, imageFolder: Path, labelFolder: Path, r: Record)
    returns (failure: Option<ExportError>, labelData': map<string, seq<string>>)
    modifies fs
    ensures var q := Apply(Progress(old(fs.Snapshot()), labelData, None), RecordStep(imageFolder, labelFolder, r));
      fs.Snapshot() == q.disk && labelData' == q.labelData && failure == q.failure
  {
    var fileName := Basename(r.filePath);
    failure := fs.Copy(r.filePath, Join(imageFolder, fileName));
    labelData' := labelData;
    if failure.Some? {
      return;
    }
    if fileName !in labelData' {
      labelData' := labelData'[fileName := []];
    }
    labelData' := labelData'[fileName := labelData'[fileName] + [LabelLine(r)]];
    AppendLine(labelData, fileName, LabelLine(r));
    var labelFile := LabelFileName(fileName);
    fs.WriteText(Join(labelFolder, labelFile), JoinWith(labelData'[fileName], '\n'));
  }

  /** The record loop of one split: every record of data in turn, stopping at
      the first exception. It does exactly what the split's steps do. */
  method ExportItems(fs: FileSystem, labelData: map<string, seq<string>>, imageFolder: Path, labelFolder: Path,
                     data: seq<Record>)
    returns (failure: Option<ExportError>, labelData': map<string, seq<string>>)
    modifies fs
    ensures var q := Run(Progress(old(fs.Snapshot()), labelData, None), RecordSteps(imageFolder, labelFolder, data));
      fs.Snapshot() == q.disk && labelData' == q.labelData && failure == q.failure
  {
    ghost var p := Progress(fs.Snapshot(), labelData, None);
    ghost var steps := RecordSteps(imageFolder, labelFolder, data);
    ghost var q := p;
    labelData' := labelData;
    failure := None;
    var j := 0;
    TakeAllNone(steps);
    while j < |data|
      invariant 0 <= j <= |data|
      invariant q == Run(p, steps[..j])
      invariant failure == q.failure == None && fs.Snapshot() == q.disk && labelData' == q.labelData
    {
      RunNextRecord(p, imageFolder, labelFolder, data, j);
      failure, labelData' := ExportRecord(fs, labelData', imageFolder, labelFolder, data[j]);
      q := Apply(q, RecordStep(imageFolder, labelFolder, data[j]));
      if failure.Some? {
        RunStopsAt(p, steps, j);
        return;
      }
      j := j + 1;
    }
  }

  /** The loop over the splits dictionary, after the folders exist: the
      accumulator passed in is the one shared by all splits. */
  method ExportSplits(fs: FileSystem, labelData: map<string, seq<string>>, output: Path, splitData: bool,
                      splits: seq<Bucket<Record>>)
    returns (failure: Option<ExportError>)
    modifies fs
    ensures var q := Run(Progress(old(fs.Snapshot()), labelData, None), EmitAll(output, splitData, splits));
      fs.Snapshot() == q.disk && failure == q.failure
  {
    ghost var p := Progress(fs.Snapshot(), labelData, None);
    ghost var q := p;
    var labels := labelData;
    failure := None;
    var b := 0;
    TakeAllNone(splits);
    while b < |splits|
      invariant 0 <= b <= |splits|
      invariant q == Run(p, EmitAll(output, splitData, splits[..b]))
      invariant failure == q.failure == None && fs.Snapshot() == q.disk && labels == q.labelData
    {
      var splitName := splits[b].name;
      var data := splits[b].items;
      var imageFolder := SplitFolder(output, splitData, splitName, "images");
      var labelFolder := SplitFolder(output, splitData, splitName, "labels");
      ghost var steps := RecordSteps(imageFolder, labelFolder, data);
      RunNextSplit(p, output, splitData, splits, b, imageFolder, labelFolder);
      assert q == Progress(fs.Snapshot(), labels, None);
      failure, labels := ExportItems(fs, labels, imageFolder, labelFolder, data);
      q := Run(q, steps);
      if failure.Some? {
        RunStopsInSplit(p, output, splitData, splits, b);
        return;
      }
      b := b + 1;
    }
    TakeAllNone(splits);
  }

  /** for folder in folders: os.makedirs(folder, exist_ok=True), stopping at
      the first exception. */
  method MakeFolders(fs: FileSystem, folders: seq<Path>) returns (failure: Option<ExportError>)
    modifies fs
    ensures var q := Run(Progress(old(fs.Snapshot()), map[], None), MakeDirsActions(folders));
      fs.Snapshot() == q.disk && failure == q.failure && q.labelData == map[]
  {
    ghost var p := Progress(fs.Snapshot(), map[], None);
    ghost var steps := MakeDirsActions(folders);
    ghost var q := p;
    failure := None;
    var i := 0;
    TakeAllNone(steps);
    while i < |folders|
      invariant 0 <= i <= |folders|
      invariant q == Run(p, steps[..i])
      invariant failure == q.failure == None && fs.Snapshot() == q.disk && q.labelData == map[]
    {
      RunStep(p, steps, i);
      failure := fs.MakeDirs(folders[i]);
      q := Apply(q, steps[i]);
      if failure.Some? {
        RunStopsAt(p, steps, i);
        return;
      }
      i := i + 1;
    }
  }

  /** fetch_and_download_data once the rows are fetched: `fetched` are the rows
      of the query and `order` the permutation random.shuffle applied. The
      folder ends as `ExportRun` says, and the exception that stopped the
      export, if any, is the one `ExportRun` records. */
  method FetchAndDownloadData(fs: FileSystem, fetched: seq<Record>, order: seq<nat>, output: Path,
                              splitData: bool, trainRatio: real, valRatio: real)
    returns (failure: Option<ExportError>)
    requires IsPermutation(order, |fetched|)
    requires 0.0 <= trainRatio && 0.0 <= valRatio
    modifies fs
    ensures var p := ExportRun(old(fs.Snapshot()), fetched, order, output, splitData, trainRatio, valRatio);
      fs.Snapshot() == p.disk && failure == p.failure
  {
    var records := Shuffle(fetched, order);
    var total := |records|;
    var trainCount := SplitCount(total, trainRatio);
    var valCount := SplitCount(total, valRatio);
    var splits := Partition(records, splitData, trainCount, valCount);
    ghost var p0 := Progress(fs.Snapshot(), map[], None);
    ghost var makeDirs := MakeDirsActions(OutputFolders(output, splitData));
    ghost var emits := EmitAll(output, splitData, splits);
    assert Plan(output, splitData, splits) == makeDirs + emits;
    RunAppend(p0, makeDirs, emits);

    failure := MakeFolders(fs, OutputFolders(output, splitData));
    if failure.Some? {
      return;
    }
    var labelData: map<string, seq<string>> := map[];
    failure := ExportSplits(fs, labelData, output, splitData, splits);
  }
}
