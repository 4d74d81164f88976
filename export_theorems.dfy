/** What a whole export leaves in the output folder: the folders it creates,
    the files each split's folders hold, what each label file holds, and the
    accumulator at the end. Stated first for any list of splits, then for the
    splits the exporter cuts from the shuffled rows. */
module ExportTheorems {
  import opened Sequences
  import opened Strings
  import opened Paths
  import opened Split
  import opened Export
  import opened ExportProperties

  /** A split name that is one path component. */
  predicate IsComponent(s: string)
  {
    s != [] && '/' !in s
  }

  /** Splits whose folders never coincide: distinct one-component names when
      the data is split, a single split otherwise. */
  predicate WellNamed(bs: seq<Bucket<Record>>, splitData: bool)
  {
    && (forall c :: 0 <= c < |bs| ==> IsComponent(bs[c].name))
    && (splitData ==> forall c, c' :: 0 <= c < c' < |bs| ==> bs[c].name != bs[c'].name)
    && (!splitData ==> |bs| == 1)
  }

  /** The name a record's file gets in a split's folder of the given kind:
      its image's basename under "images", its label file under "labels". */
  function OutputName(kind: string, r: Record): string
  {
    if kind == "images" then Basename(r.filePath) else LabelFileName(Basename(r.filePath))
  }

  /** The step of record r in the folders of split name. */
  function StepIn(output: Path, splitData: bool, name: string, r: Record): Action
  {
    RecordStep(SplitFolder(output, splitData, name, "images"), SplitFolder(output, splitData, name, "labels"), r)
  }

  /** a is the step of one of b's records, in b's folders. */
  predicate StepOf(output: Path, splitData: bool, b: Bucket<Record>, a: Action)
  {
    a.Emit? && a.record in b.items && a == StepIn(output, splitData, b.name, a.record)
  }

  /** The splits the exporter cuts are well named. */
  lemma PartitionWellNamed(records: seq<Record>, splitData: bool, t: nat, v: nat)
    ensures WellNamed(Partition(records, splitData, t, v), splitData)
  {
  }

  /** A label file's name is one path component. */
  lemma {:induction false} LabelFileNameIsComponent(fileName: string)
    requires '/' !in fileName
    ensures IsComponent(LabelFileName(fileName))
  {
    var root := SplitextRoot(fileName);
    SplitextRootShape(fileName);
    var name := LabelFileName(fileName);
    forall k | 0 <= k < |name| ensures name[k] != '/' {
      if k < |root| {
        assert name[k] == fileName[k];
      }
    }
  }

  /** The step of a record writes its image under its basename into the
      split's image folder and its label file into the split's label folder;
      both names are single components. */
  lemma StepTargets(output: Path, splitData: bool, name: string, r: Record)
    ensures Targets(StepIn(output, splitData, name, r))
         == {Join(SplitFolder(output, splitData, name, "images"), OutputName("images", r)),
             Join(SplitFolder(output, splitData, name, "labels"), OutputName("labels", r))}
    ensures IsComponent(OutputName("labels", r)) && '/' !in OutputName("images", r)
  {
    BasenameShape(r.filePath);
    LabelFileNameIsComponent(Basename(r.filePath));
  }

  /** A file in one split folder is the same path as a file in another only
      when the names and the kinds agree and, when the data is split, the
      splits do. */
  lemma {:induction false} TargetsApart(output: Path, splitData: bool, name1: string, kind1: string, x1: string,
                                        name2: string, kind2: string, x2: string)
    requires IsComponent(name1) && IsComponent(name2) && IsComponent(kind1) && IsComponent(kind2)
    requires '/' !in x1 && '/' !in x2
    ensures Join(SplitFolder(output, splitData, name1, kind1), x1) == Join(SplitFolder(output, splitData, name2, kind2), x2)
        ==> x1 == x2 && kind1 == kind2 && (splitData ==> name1 == name2)
  {
    var f1, f2 := SplitFolder(output, splitData, name1, kind1), SplitFolder(output, splitData, name2, kind2);
    if Join(f1, x1) == Join(f2, x2) {
      JoinInjective(f1, x1, f2, x2);
      if splitData {
        SepOfJoin(Join(output, name1), kind1);
        SepOfJoin(Join(output, name2), kind2);
      } else {
        SepOfJoin(output, kind1);
        SepOfJoin(output, kind2);
      }
      AppendFront(f1, "/");
      AppendFront(f2, "/");
      if splitData {
        NestedJoinInjective(output, name1, kind1, name2, kind2);
      } else {
        JoinInjective(output, kind1, output, kind2);
      }
    }
  }

  /** A file of a split's folder is written by a record's step only when the
      step is in that split (when the data is split) and the file is the
      record's file of that kind. */
  lemma StepWrites(output: Path, splitData: bool, name: string, kind: string, x: string, other: string, r: Record)
    requires IsComponent(name) && IsComponent(other) && (kind == "images" || kind == "labels") && '/' !in x
    requires Join(SplitFolder(output, splitData, name, kind), x) in Targets(StepIn(output, splitData, other, r))
    ensures x == OutputName(kind, r)
    ensures splitData ==> name == other
  {
    KindNames();
    StepTargets(output, splitData, other, r);
    TargetsApart(output, splitData, name, kind, x, other, "images", OutputName("images", r));
    TargetsApart(output, splitData, name, kind, x, other, "labels", OutputName("labels", r));
  }

  /** A record's image and its label file are different paths. */
  lemma StepFilesApart(output: Path, splitData: bool, name: string, r: Record)
    requires IsComponent(name)
    ensures StepIn(output, splitData, name, r).imageFile != StepIn(output, splitData, name, r).labelFile
  {
    KindNames();
    StepTargets(output, splitData, name, r);
    TargetsApart(output, splitData, name, "images", OutputName("images", r), name, "labels", OutputName("labels", r));
  }

  /** Every record step of the splits belongs to one of them. */
  lemma {:induction false} EmitAllAt(output: Path, splitData: bool, bs: seq<Bucket<Record>>, i: nat)
    requires i < |EmitAll(output, splitData, bs)|
    ensures exists c :: 0 <= c < |bs| && StepOf(output, splitData, bs[c], EmitAll(output, splitData, bs)[i])
  {
    var init, last := bs[..|bs| - 1], bs[|bs| - 1];
    var e, f := EmitAll(output, splitData, init), EmitBucket(output, splitData, last);
    assert EmitAll(output, splitData, bs) == e + f;
    IndexAppend(e, f, i);
    if i < |e| {
      EmitAllAt(output, splitData, init, i);
      var c :| 0 <= c < |init| && StepOf(output, splitData, init[c], e[i]);
      assert bs[c] == init[c];
    } else {
      var k := i - |e|;
      assert last.items[k] in last.items;
      assert StepOf(output, splitData, last, f[k]);
    }
  }

  /** Every record of every split has its step among the steps. */
  lemma {:induction false} EmitAllHas(output: Path, splitData: bool, bs: seq<Bucket<Record>>, b: nat, k: nat)
    requires b < |bs| && k < |bs[b].items|
    ensures exists i :: 0 <= i < |EmitAll(output, splitData, bs)|
                        && EmitAll(output, splitData, bs)[i] == StepIn(output, splitData, bs[b].name, bs[b].items[k])
  {
    var done, emits, later := EmitAll(output, splitData, bs[..b]), EmitBucket(output, splitData, bs[b]), EmitAll(output, splitData, bs[b + 1..]);
    EmitAllNext(output, splitData, bs, b);
    TakeDrop(bs, b + 1);
    EmitAllAppend(output, splitData, bs[..b + 1], bs[b + 1..]);
    assert emits[k] == StepIn(output, splitData, bs[b].name, bs[b].items[k]);
    IndexMiddle(done, emits, later, k);
    assert EmitAll(output, splitData, bs)[|done| + k] == emits[k];
  }

  /** Folders <output>/<name>/<kind> of different names or kinds differ. */
  lemma NestedFoldersApart(output: Path, name1: string, kind1: string, name2: string, kind2: string)
    requires IsComponent(name1) && IsComponent(name2) && IsComponent(kind1) && IsComponent(kind2)
    requires name1 != name2 || kind1 != kind2
    ensures Join(Join(output, name1), kind1) != Join(Join(output, name2), kind2)
  {
    if Join(Join(output, name1), kind1) == Join(Join(output, name2), kind2) {
      NestedJoinInjective(output, name1, kind1, name2, kind2);
    }
  }

  /** The image and label folders of two different splits are four
      different paths. */
  lemma SplitsApart(output: Path, name1: string, name2: string)
    requires IsComponent(name1) && IsComponent(name2)
    ensures name1 != name2 ==>
      && Join(Join(output, name1), "images") != Join(Join(output, name2), "images")
      && Join(Join(output, name1), "images") != Join(Join(output, name2), "labels")
      && Join(Join(output, name1), "labels") != Join(Join(output, name2), "images")
      && Join(Join(output, name1), "labels") != Join(Join(output, name2), "labels")
    ensures Join(Join(output, name1), "images") != Join(Join(output, name1), "labels")
  {
    KindNames();
    NestedFoldersApart(output, name1, "images", name1, "labels");
    if name1 != name2 {
      NestedFoldersApart(output, name1, "images", name2, "images");
      NestedFoldersApart(output, name1, "images", name2, "labels");
      NestedFoldersApart(output, name1, "labels", name2, "images");
      NestedFoldersApart(output, name1, "labels", name2, "labels");
    }
  }

  /** The two folder kinds are different single components. */
  lemma KindNames()
    ensures IsComponent("images") && IsComponent("labels") && "images" != "labels"
  {
  }

  /** The three split names are different single components. */
  lemma SplitNames()
    ensures IsComponent("train") && IsComponent("val") && IsComponent("test")
    ensures "train" != "val" && "val" != "test" && "test" != "train"
  {
  }

  /** The six folders of a split export, or the two of an unsplit one, are
      all different paths. */
  lemma OutputFoldersDistinct(output: Path, splitData: bool)
    ensures |OutputFolders(output, splitData)| == if splitData then 6 else 2
    ensures Distinct(OutputFolders(output, splitData))
  {
    var fs := OutputFolders(output, splitData);
    if splitData {
      SplitNames();
      SplitsApart(output, "train", "val");
      SplitsApart(output, "val", "test");
      SplitsApart(output, "test", "train");
      var ti, tl := Join(Join(output, "train"), "images"), Join(Join(output, "train"), "labels");
      var vi, vl := Join(Join(output, "val"), "images"), Join(Join(output, "val"), "labels");
      var si, sl := Join(Join(output, "test"), "images"), Join(Join(output, "test"), "labels");
      DistinctSix(ti, tl, vi, vl, si, sl);
    } else if Join(output, "images") == Join(output, "labels") {
      JoinInjective(output, "images", output, "labels");
    }
  }

  /** The record steps of the splits create no folder. */
  lemma EmitAllCreatesNothing(output: Path, splitData: bool, bs: seq<Bucket<Record>>)
    ensures Created(EmitAll(output, splitData, bs)) == {}
  {
    var emits := EmitAll(output, splitData, bs);
    forall f ensures f !in Created(emits) {
      CreatedAt(emits, f);
      if f in Created(emits) {
        var i :| 0 <= i < |emits| && f in Folders(emits[i]);
        EmitAllAt(output, splitData, bs, i);
        assert false;
      }
    }
  }

  /** The steps of an export create exactly its output folders. */
  lemma PlanCreates(output: Path, splitData: bool, bs: seq<Bucket<Record>>)
    ensures Created(Plan(output, splitData, bs)) == set f | f in OutputFolders(output, splitData)
  {
    var folders := OutputFolders(output, splitData);
    CreatedAppend(MakeDirsActions(folders), EmitAll(output, splitData, bs));
    MakeDirsCreated(folders);
    EmitAllCreatesNothing(output, splitData, bs);
  }

  /** A successful export adds exactly its output folders to the folders. */
  lemma FoldersCreated(p: Progress, output: Path, splitData: bool, bs: seq<Bucket<Record>>)
    requires Run(p, Plan(output, splitData, bs)).failure.None?
    ensures Run(p, Plan(output, splitData, bs)).disk.dirs
         == p.disk.dirs + set f | f in OutputFolders(output, splitData)
  {
    RunFootprint(p, Plan(output, splitData, bs));
    PlanCreates(output, splitData, bs);
  }

  /** The only files of split b's folder of the given kind that the steps of
      an export write are the files of that kind of b's records. */
  lemma PlanWritesOnly(output: Path, splitData: bool, bs: seq<Bucket<Record>>, b: nat, kind: string, x: string)
    requires WellNamed(bs, splitData) && b < |bs|
    requires (kind == "images" || kind == "labels") && '/' !in x
    requires Join(SplitFolder(output, splitData, bs[b].name, kind), x) in Written(Plan(output, splitData, bs))
    ensures exists k :: 0 <= k < |bs[b].items| && OutputName(kind, bs[b].items[k]) == x
  {
    var plan := Plan(output, splitData, bs);
    var pre := MakeDirsActions(OutputFolders(output, splitData));
    var emits := EmitAll(output, splitData, bs);
    var f := Join(SplitFolder(output, splitData, bs[b].name, kind), x);
    WrittenAt(plan, f);
    var i :| 0 <= i < |plan| && f in Targets(plan[i]);
    assert i >= |pre|;
    assert plan[i] == emits[i - |pre|];
    EmitAllAt(output, splitData, bs, i - |pre|);
    var c :| 0 <= c < |bs| && StepOf(output, splitData, bs[c], emits[i - |pre|]);
    var r := plan[i].record;
    StepWrites(output, splitData, bs[b].name, kind, x, bs[c].name, r);
    assert c == b;
    var k :| 0 <= k < |bs[b].items| && bs[b].items[k] == r;
  }

  /** The steps of an export write the file of each kind of each record of
      each split, into the split's folder of that kind. */
  lemma PlanWritesAll(output: Path, splitData: bool, bs: seq<Bucket<Record>>, b: nat, k: nat, kind: string)
    requires b < |bs| && k < |bs[b].items|
    requires kind == "images" || kind == "labels"
    ensures Join(SplitFolder(output, splitData, bs[b].name, kind), OutputName(kind, bs[b].items[k])) in Written(Plan(output, splitData, bs))
  {
    var plan := Plan(output, splitData, bs);
    var pre := MakeDirsActions(OutputFolders(output, splitData));
    var emits := EmitAll(output, splitData, bs);
    var r := bs[b].items[k];
    EmitAllHas(output, splitData, bs, b, k);
    var i :| 0 <= i < |emits| && emits[i] == StepIn(output, splitData, bs[b].name, r);
    StepTargets(output, splitData, bs[b].name, r);
    var f := Join(SplitFolder(output, splitData, bs[b].name, kind), OutputName(kind, r));
    assert f in Targets(emits[i]);
    WrittenAt(emits, f);
    WrittenAppend(pre, emits);
  }

  /** After a successful export, each split's image folder holds an image
      named x exactly when it held one before or one of the split's records
      has basename x; and its label folder holds a file named x exactly when
      it held one before or x is the label file name of one of its records.
      In a folder that starts empty: the basenames of its records, no more. */
  lemma SplitFolderFiles(p: Progress, output: Path, splitData: bool, bs: seq<Bucket<Record>>, b: nat, kind: string, x: string)
    requires WellNamed(bs, splitData) && b < |bs|
    requires (kind == "images" || kind == "labels") && '/' !in x
    requires Run(p, Plan(output, splitData, bs)).failure.None?
    ensures var f := Join(SplitFolder(output, splitData, bs[b].name, kind), x);
      (f in Run(p, Plan(output, splitData, bs)).disk.files)
        <==> (f in p.disk.files || exists k :: 0 <= k < |bs[b].items| && OutputName(kind, bs[b].items[k]) == x)
  {
    var f := Join(SplitFolder(output, splitData, bs[b].name, kind), x);
    RunFootprint(p, Plan(output, splitData, bs));
    if f in Written(Plan(output, splitData, bs)) {
      PlanWritesOnly(output, splitData, bs, b, kind, x);
    }
    if exists k :: 0 <= k < |bs[b].items| && OutputName(kind, bs[b].items[k]) == x {
      var k :| 0 <= k < |bs[b].items| && OutputName(kind, bs[b].items[k]) == x;
      PlanWritesAll(output, splitData, bs, b, k, kind);
    }
  }

  /** A record's step leaves a file of a split's folder alone unless the file
      is the record's own file of that kind in the step's split. */
  lemma StepMisses(output: Path, splitData: bool, name: string, kind: string, x: string, other: string, r: Record)
    requires IsComponent(name) && IsComponent(other) && (kind == "images" || kind == "labels") && '/' !in x
    requires x != OutputName(kind, r) || (splitData && name != other)
    ensures Join(SplitFolder(output, splitData, name, kind), x) !in Targets(StepIn(output, splitData, other, r))
  {
    if Join(SplitFolder(output, splitData, name, kind), x) in Targets(StepIn(output, splitData, other, r)) {
      StepWrites(output, splitData, name, kind, x, other, r);
    }
  }

  /** No step of a later split writes a file of split b's folders. */
  lemma {:induction false} LaterSplitsMiss(output: Path, splitData: bool, bs: seq<Bucket<Record>>, b: nat, kind: string, x: string)
    requires WellNamed(bs, splitData) && b < |bs|
    requires (kind == "images" || kind == "labels") && '/' !in x
    ensures Join(SplitFolder(output, splitData, bs[b].name, kind), x) !in Written(EmitAll(output, splitData, bs[b + 1..]))
  {
    var later := EmitAll(output, splitData, bs[b + 1..]);
    var f := Join(SplitFolder(output, splitData, bs[b].name, kind), x);
    if splitData {
      forall i | 0 <= i < |later| ensures f !in Targets(later[i]) {
        EmitAllAt(output, splitData, bs[b + 1..], i);
        var c :| 0 <= c < |bs[b + 1..]| && StepOf(output, splitData, bs[b + 1..][c], later[i]);
        assert bs[b + 1..][c] == bs[b + 1 + c];
        StepMisses(output, splitData, bs[b].name, kind, x, bs[b + 1 + c].name, later[i].record);
      }
      WrittenAt(later, f);
    } else {
      assert bs[b + 1..] == [];
    }
  }

  /** After record j of a split, when no later record of the split has the
      same file of the given kind, no later step of the split writes record
      j's file of that kind. */
  lemma LaterRecordsMiss(output: Path, splitData: bool, name: string, data: seq<Record>, j: nat, kind: string)
    requires IsComponent(name) && j < |data|
    requires kind == "images" || kind == "labels"
    requires forall k :: j < k < |data| ==> OutputName(kind, data[k]) != OutputName(kind, data[j])
    ensures
      var emits := RecordSteps(SplitFolder(output, splitData, name, "images"), SplitFolder(output, splitData, name, "labels"), data);
      Join(SplitFolder(output, splitData, name, kind), OutputName(kind, data[j])) !in Written(emits[j + 1..])
  {
    var imageFolder, labelFolder := SplitFolder(output, splitData, name, "images"), SplitFolder(output, splitData, name, "labels");
    var rest := data[j + 1..];
    var later := RecordSteps(imageFolder, labelFolder, rest);
    var x := OutputName(kind, data[j]);
    var f := Join(SplitFolder(output, splitData, name, kind), x);
    StepTargets(output, splitData, name, data[j]);
    forall i | 0 <= i < |later| ensures f !in Targets(later[i]) {
      assert rest[i] == data[j + 1 + i];
      StepMisses(output, splitData, name, kind, x, name, rest[i]);
    }
    WrittenAt(later, f);
    RecordStepsDrop(imageFolder, labelFolder, data, j + 1);
  }

  /** After record j of split b, when no later record of b has the same file
      of the given kind, no step writes record j's file of that kind again. */
  lemma {:induction false} LaterStepsMiss(output: Path, splitData: bool, bs: seq<Bucket<Record>>, b: nat, j: nat, kind: string)
    requires WellNamed(bs, splitData) && b < |bs| && j < |bs[b].items|
    requires kind == "images" || kind == "labels"
    requires forall k :: j < k < |bs[b].items| ==> OutputName(kind, bs[b].items[k]) != OutputName(kind, bs[b].items[j])
    ensures
      var emits := EmitBucket(output, splitData, bs[b]);
      Join(SplitFolder(output, splitData, bs[b].name, kind), OutputName(kind, bs[b].items[j]))
        !in Written(emits[j + 1..] + EmitAll(output, splitData, bs[b + 1..]))
  {
    var emits := EmitBucket(output, splitData, bs[b]);
    var x := OutputName(kind, bs[b].items[j]);
    StepTargets(output, splitData, bs[b].name, bs[b].items[j]);
    LaterSplitsMiss(output, splitData, bs, b, kind, x);
    LaterRecordsMiss(output, splitData, bs[b].name, bs[b].items, j, kind);
    WrittenAppend(emits[j + 1..], EmitAll(output, splitData, bs[b + 1..]));
  }

  /** The lines the steps of an export append for basename n, up to record j
      of split b: those of every record of the earlier splits and of b's
      first j + 1 records with that basename. */
  lemma {:induction false} LinesUpTo(output: Path, splitData: bool, bs: seq<Bucket<Record>>, b: nat, j: nat, n: string)
    requires b < |bs| && j < |bs[b].items|
    ensures
      var pre := MakeDirsActions(OutputFolders(output, splitData));
      var emits := EmitBucket(output, splitData, bs[b]);
      LinesOf(pre + EmitAll(output, splitData, bs[..b]) + emits[..j + 1], n)
        == LinesFor(Flatten(bs[..b]) + bs[b].items[..j + 1], n)
  {
    var folders := OutputFolders(output, splitData);
    var pre := MakeDirsActions(folders);
    var done := EmitAll(output, splitData, bs[..b]);
    var emits := EmitBucket(output, splitData, bs[b]);
    var imageFolder := SplitFolder(output, splitData, bs[b].name, "images");
    var labelFolder := SplitFolder(output, splitData, bs[b].name, "labels");
    AfterFoldersLines(folders, done, emits[..j + 1], n);
    EmitAllLines(output, splitData, bs[..b], n);
    RecordStepsPrefixLines(imageFolder, labelFolder, bs[b].items, j + 1, n);
    LinesForAppend(Flatten(bs[..b]), bs[b].items[..j + 1], n);
  }

  /** The steps of an export, cut around record j of split b. */
  lemma PlanAround(output: Path, splitData: bool, bs: seq<Bucket<Record>>, b: nat, j: nat)
    requires b < |bs| && j < |bs[b].items|
    ensures
      var pre := MakeDirsActions(OutputFolders(output, splitData));
      var emits := EmitBucket(output, splitData, bs[b]);
      var xs := pre + EmitAll(output, splitData, bs[..b]) + emits[..j];
      && Plan(output, splitData, bs) == xs + [emits[j]] + (emits[j + 1..] + EmitAll(output, splitData, bs[b + 1..]))
      && xs + [emits[j]] == pre + EmitAll(output, splitData, bs[..b]) + emits[..j + 1]
  {
    var pre := MakeDirsActions(OutputFolders(output, splitData));
    var done := EmitAll(output, splitData, bs[..b]);
    var emits := EmitBucket(output, splitData, bs[b]);
    PlanAt(pre, output, splitData, bs, b, j);
    TakeNext(emits, j);
    Associate(pre + done, emits[..j], [emits[j]]);
  }

  /** After a successful export, the label file of record j of split b, when
      no later record of b has the same label file name, holds the lines
      accumulated for record j's basename: those the accumulator started
      with, then those of every record with that basename in the earlier
      splits and in b up to j, joined by newlines. Earlier splits count
      because the accumulator is shared; other basenames with the same label
      file name (a.jpg and a.png) do not, because each write replaces the
      file. */
  lemma {:induction false} LabelFileContents(p: Progress, output: Path, splitData: bool, bs: seq<Bucket<Record>>, b: nat, j: nat)
    requires WellNamed(bs, splitData) && b < |bs| && j < |bs[b].items|
    requires Run(p, Plan(output, splitData, bs)).failure.None?
    requires forall k :: j < k < |bs[b].items| ==> OutputName("labels", bs[b].items[k]) != OutputName("labels", bs[b].items[j])
    ensures
      var r := bs[b].items[j];
      var n := Basename(r.filePath);
      var f := Join(SplitFolder(output, splitData, bs[b].name, "labels"), LabelFileName(n));
      var files := Run(p, Plan(output, splitData, bs)).disk.files;
      && f in files
      && files[f] == Text(JoinWith(Lines(p.labelData, n) + LinesFor(Flatten(bs[..b]) + bs[b].items[..j + 1], n), '\n'))
  {
    var pre := MakeDirsActions(OutputFolders(output, splitData));
    var emits := EmitBucket(output, splitData, bs[b]);
    var xs := pre + EmitAll(output, splitData, bs[..b]) + emits[..j];
    var ys := emits[j + 1..] + EmitAll(output, splitData, bs[b + 1..]);
    PlanAround(output, splitData, bs, b, j);
    LaterStepsMiss(output, splitData, bs, b, j, "labels");
    LastLabelWrite(p, xs, emits[j], ys);
    LinesUpTo(output, splitData, bs, b, j, Basename(bs[b].items[j].filePath));
  }

  /** After a successful export, the image of record j of split b, when no
      later record of b has the same basename and no step of the export
      writes its source, holds the source's contents. */
  lemma {:induction false} ImageContents(p: Progress, output: Path, splitData: bool, bs: seq<Bucket<Record>>, b: nat, j: nat)
    requires WellNamed(bs, splitData) && b < |bs| && j < |bs[b].items|
    requires Run(p, Plan(output, splitData, bs)).failure.None?
    requires forall k :: j < k < |bs[b].items| ==> Basename(bs[b].items[k].filePath) != Basename(bs[b].items[j].filePath)
    requires bs[b].items[j].filePath !in Written(Plan(output, splitData, bs))
    ensures
      var r := bs[b].items[j];
      var f := Join(SplitFolder(output, splitData, bs[b].name, "images"), Basename(r.filePath));
      var files := Run(p, Plan(output, splitData, bs)).disk.files;
      && r.filePath in p.disk.files && f in files && files[f] == p.disk.files[r.filePath]
  {
    var r := bs[b].items[j];
    var plan := Plan(output, splitData, bs);
    var pre := MakeDirsActions(OutputFolders(output, splitData));
    var emits := EmitBucket(output, splitData, bs[b]);
    var xs := pre + EmitAll(output, splitData, bs[..b]) + emits[..j];
    var ys := emits[j + 1..] + EmitAll(output, splitData, bs[b + 1..]);
    PlanAround(output, splitData, bs, b, j);
    LaterStepsMiss(output, splitData, bs, b, j, "images");
    WrittenPrefix(xs, emits[j], ys, r.filePath);
    StepFilesApart(output, splitData, bs[b].name, r);
    LastImageWrite(p, xs, emits[j], ys);
  }

  /** After a successful export, the accumulator holds, for every basename,
      the lines it started with followed by those of every record with that
      basename, split after split: it is never cleared. */
  lemma {:induction false} AccumulatorHoldsAllLines(p: Progress, output: Path, splitData: bool, bs: seq<Bucket<Record>>, n: string)
    requires Run(p, Plan(output, splitData, bs)).failure.None?
    ensures Lines(Run(p, Plan(output, splitData, bs)).labelData, n) == Lines(p.labelData, n) + LinesFor(Flatten(bs), n)
  {
    var folders := OutputFolders(output, splitData);
    var pre, emits := MakeDirsActions(folders), EmitAll(output, splitData, bs);
    RunLines(p, Plan(output, splitData, bs), n);
    LinesOfAppend(pre, emits, n);
    MakeDirsLines(folders, n);
    EmitAllLines(output, splitData, bs, n);
    assert LinesOf(pre + emits, n) == [] + LinesFor(Flatten(bs), n) == LinesFor(Flatten(bs), n);
  }

  /** "a.jpg" and "a.png" are given the same label file "a.txt". */
  lemma {:induction false} LabelNameCollision(stem: string, ext1: string, ext2: string)
    requires '/' !in stem && '/' !in ext1 && '.' !in ext1 && '/' !in ext2 && '.' !in ext2
    requires exists k :: 0 <= k < |stem| && stem[k] != '.'
    ensures LabelFileName(stem + "." + ext1) == LabelFileName(stem + "." + ext2) == stem + ".txt"
  {
    SplitextDropsExtension(stem, ext1);
    SplitextDropsExtension(stem, ext2);
  }

  /** The fields of a label line, in the order YOLO reads them. */
  function LabelFields(r: Record): seq<string>
  {
    [r.className, r.xCenter, r.yCenter, r.width, r.height]
  }

  /** A label line is its five fields joined by single spaces. */
  lemma LabelLineJoins(r: Record)
    ensures LabelLine(r) == JoinWith(LabelFields(r), ' ')
  {
    var sp := [' '];
    assert JoinWith([r.height], ' ') == r.height;
    assert JoinWith([r.width, r.height], ' ') == r.width + sp + r.height;
    assert JoinWith([r.yCenter, r.width, r.height], ' ') == r.yCenter + sp + r.width + sp + r.height;
    assert JoinWith([r.xCenter, r.yCenter, r.width, r.height], ' ')
        == r.xCenter + sp + r.yCenter + sp + r.width + sp + r.height;
    assert JoinWith(LabelFields(r), ' ')
        == r.className + sp + r.xCenter + sp + r.yCenter + sp + r.width + sp + r.height;
  }

  /** Splitting a label line at spaces gives back the record's class and
      box, as long as no field holds a space. */
  lemma LabelLineFields(r: Record)
    requires forall k :: 0 <= k < 5 ==> ' ' !in LabelFields(r)[k]
    ensures SplitOn(LabelLine(r), ' ') == LabelFields(r)
  {
    LabelLineJoins(r);
    SplitJoin(LabelFields(r), ' ');
  }

  /** The whole export from disk d, for any outcome of the shuffle: when it
      succeeds, the folders it adds are exactly its output folders, six
      different ones when the data is split and two otherwise. */
  lemma ExportCreatesFolders(d: Disk, fetched: seq<Record>, order: seq<nat>, output: Path, splitData: bool,
                             trainRatio: real, valRatio: real)
    requires IsPermutation(order, |fetched|) && 0.0 <= trainRatio && 0.0 <= valRatio
    requires ExportRun(d, fetched, order, output, splitData, trainRatio, valRatio).failure.None?
    ensures ExportRun(d, fetched, order, output, splitData, trainRatio, valRatio).disk.dirs
         == d.dirs + set f | f in OutputFolders(output, splitData)
    ensures |OutputFolders(output, splitData)| == (if splitData then 6 else 2) && Distinct(OutputFolders(output, splitData))
  {
    FoldersCreated(Progress(d, map[], None), output, splitData, Splits(fetched, order, splitData, trainRatio, valRatio));
    OutputFoldersDistinct(output, splitData);
  }

  /** At the end of a successful export the accumulator holds, for every
      basename, the lines of all the shuffled records with that basename, in
      shuffled order, whatever split they fell in. */
  lemma ExportAccumulator(d: Disk, fetched: seq<Record>, order: seq<nat>, output: Path, splitData: bool,
                          trainRatio: real, valRatio: real, n: string)
    requires IsPermutation(order, |fetched|) && 0.0 <= trainRatio && 0.0 <= valRatio
    requires ExportRun(d, fetched, order, output, splitData, trainRatio, valRatio).failure.None?
    ensures Lines(ExportRun(d, fetched, order, output, splitData, trainRatio, valRatio).labelData, n)
         == LinesFor(Shuffle(fetched, order), n)
  {
    var records := Shuffle(fetched, order);
    var bs := Splits(fetched, order, splitData, trainRatio, valRatio);
    AccumulatorHoldsAllLines(Progress(d, map[], None), output, splitData, bs, n);
    PartitionRestoresRecords(records, splitData, SplitCount(|records|, trainRatio), SplitCount(|records|, valRatio));
    assert [] + LinesFor(records, n) == LinesFor(records, n);
  }

  /** After a successful export, a file named x is in the image (or label)
      folder of split b exactly when it was there before or it is the
      basename (or label file name) of one of the split's records. */
  lemma ExportSplitFiles(d: Disk, fetched: seq<Record>, order: seq<nat>, output: Path, splitData: bool,
                         trainRatio: real, valRatio: real, b: nat, kind: string, x: string)
    requires IsPermutation(order, |fetched|) && 0.0 <= trainRatio && 0.0 <= valRatio
    requires ExportRun(d, fetched, order, output, splitData, trainRatio, valRatio).failure.None?
    requires b < |Splits(fetched, order, splitData, trainRatio, valRatio)|
    requires (kind == "images" || kind == "labels") && '/' !in x
    ensures
      var bs := Splits(fetched, order, splitData, trainRatio, valRatio);
      var f := Join(SplitFolder(output, splitData, bs[b].name, kind), x);
      (f in ExportRun(d, fetched, order, output, splitData, trainRatio, valRatio).disk.files)
        <==> (f in d.files || exists k :: 0 <= k < |bs[b].items| && OutputName(kind, bs[b].items[k]) == x)
  {
    var records := Shuffle(fetched, order);
    var bs := Splits(fetched, order, splitData, trainRatio, valRatio);
    PartitionWellNamed(records, splitData, SplitCount(|records|, trainRatio), SplitCount(|records|, valRatio));
    SplitFolderFiles(Progress(d, map[], None), output, splitData, bs, b, kind, x);
  }

  /** After a successful export, the label file of record j of split b, when
      no later record of b has the same label file name, holds the lines of
      the records with record j's basename from the earlier splits and from
      b up to j, joined by newlines. */
  lemma ExportLabelFile(d: Disk, fetched: seq<Record>, order: seq<nat>, output: Path, splitData: bool,
                        trainRatio: real, valRatio: real, b: nat, j: nat)
    requires IsPermutation(order, |fetched|) && 0.0 <= trainRatio && 0.0 <= valRatio
    requires ExportRun(d, fetched, order, output, splitData, trainRatio, valRatio).failure.None?
    requires
      var bs := Splits(fetched, order, splitData, trainRatio, valRatio);
      && b < |bs| && j < |bs[b].items|
      && forall k :: j < k < |bs[b].items| ==> OutputName("labels", bs[b].items[k]) != OutputName("labels", bs[b].items[j])
    ensures
      var bs := Splits(fetched, order, splitData, trainRatio, valRatio);
      var n := Basename(bs[b].items[j].filePath);
      var f := Join(SplitFolder(output, splitData, bs[b].name, "labels"), LabelFileName(n));
      var files := ExportRun(d, fetched, order, output, splitData, trainRatio, valRatio).disk.files;
      && f in files
      && files[f] == Text(JoinWith(LinesFor(Flatten(bs[..b]) + bs[b].items[..j + 1], n), '\n'))
  {
    var records := Shuffle(fetched, order);
    var bs := Splits(fetched, order, splitData, trainRatio, valRatio);
    var n := Basename(bs[b].items[j].filePath);
    PartitionWellNamed(records, splitData, SplitCount(|records|, trainRatio), SplitCount(|records|, valRatio));
    LabelFileContents(Progress(d, map[], None), output, splitData, bs, b, j);
    assert [] + LinesFor(Flatten(bs[..b]) + bs[b].items[..j + 1], n) == LinesFor(Flatten(bs[..b]) + bs[b].items[..j + 1], n);
  }
}
