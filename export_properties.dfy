/** What the export does to the output folder, stated over the fold `Run`:
    which files and folders exist afterwards, what every label file holds,
    and how the accumulator grows. */
module ExportProperties {
  import opened Sequences
  import opened Strings
  import opened Paths
  import opened Split
  import opened Export

  /** The label lines the steps append under fileName, in order. */
  function LinesOf(s: seq<Action>, fileName: string): seq<string>
  {
    if s == [] then []
    else
      var last := s[|s| - 1];
      LinesOf(s[..|s| - 1], fileName) + (if last.Emit? && last.fileName == fileName then [LabelLine(last.record)] else [])
  }

  /** The label lines of those records whose image has basename fileName, in order. */
  function LinesFor(rs: seq<Record>, fileName: string): seq<string>
  {
    if rs == [] then []
    else
      LinesFor(rs[..|rs| - 1], fileName)
      + (if Basename(rs[|rs| - 1].filePath) == fileName then [LabelLine(rs[|rs| - 1])] else [])
  }

  /** Every file the steps write. */
  function Written(s: seq<Action>): set<Path>
  {
    if s == [] then {} else Written(s[..|s| - 1]) + Targets(s[|s| - 1])
  }

  /** Every folder the steps create. */
  function Created(s: seq<Action>): set<Path>
  {
    if s == [] then {} else Created(s[..|s| - 1]) + Folders(s[|s| - 1])
  }

  /** Appending a line to one entry of the accumulator, seen from any entry. */
  lemma LinesAfterAppend(labelData: map<string, seq<string>>, fileName: string, line: string, n: string)
    ensures Lines(labelData[fileName := Lines(labelData, fileName) + [line]], n)
         == Lines(labelData, n) + (if fileName == n then [line] else [])
  {
  }

  /** A record step whose copy succeeds appends the record's line to its
      basename's entry and leaves every other entry alone. */
  lemma ApplyAppendsLine(p: Progress, a: Action, n: string)
    requires a.Emit? && Apply(p, a).failure.None?
    ensures Lines(Apply(p, a).labelData, n) == Lines(p.labelData, n) + (if a.fileName == n then [LabelLine(a.record)] else [])
  {
    ApplyEmit(p, a);
    LinesAfterAppend(p.labelData, a.fileName, LabelLine(a.record), n);
  }

  /** A successful run adds exactly the files and folders of its steps. */
  lemma {:induction false} RunFootprint(p: Progress, s: seq<Action>)
    requires Run(p, s).failure.None?
    ensures Run(p, s).disk.files.Keys == p.disk.files.Keys + Written(s)
    ensures Run(p, s).disk.dirs == p.disk.dirs + Created(s)
  {
    if s != [] {
      var init, last := s[..|s| - 1], s[|s| - 1];
      assert Run(p, s) == Apply(Run(p, init), last);
      RunFootprint(p, init);
      ApplyFootprint(Run(p, init), last);
    }
  }

  /** After a successful run, each basename's accumulated lines are the lines
      it had, followed by the lines of its records in order: the accumulator
      is never cleared. */
  lemma {:induction false} RunLines(p: Progress, s: seq<Action>, n: string)
    requires Run(p, s).failure.None?
    ensures Lines(Run(p, s).labelData, n) == Lines(p.labelData, n) + LinesOf(s, n)
  {
    if s != [] {
      var init, last := s[..|s| - 1], s[|s| - 1];
      var q := Run(p, init);
      assert Run(p, s) == Apply(q, last);
      RunLines(p, init, n);
      var before, earlier := Lines(p.labelData, n), LinesOf(init, n);
      var added := if last.Emit? && last.fileName == n then [LabelLine(last.record)] else [];
      if last.Emit? {
        ApplyAppendsLine(q, last, n);
      } else {
        assert Run(p, s).labelData == q.labelData;
      }
      assert Lines(Run(p, s).labelData, n) == before + earlier + added;
      Associate(before, earlier, added);
    } else {
      assert Lines(p.labelData, n) + [] == Lines(p.labelData, n);
    }
  }

  /** A file no step writes keeps its presence and its contents, whether the
      run succeeds or not. */
  lemma {:induction false} RunUntouched(p: Progress, s: seq<Action>, f: Path)
    requires f !in Written(s)
    ensures f in Run(p, s).disk.files <==> f in p.disk.files
    ensures f in p.disk.files ==> Run(p, s).disk.files[f] == p.disk.files[f]
  {
    if s != [] {
      var init, last := s[..|s| - 1], s[|s| - 1];
      RunUntouched(p, init, f);
      var q := Run(p, init);
      assert Run(p, s) == Apply(q, last);
      if last.Emit? && Apply(q, last).failure.None? {
        ApplyEmit(q, last);
      }
    }
  }

  /** A successful record step leaves its label file holding its basename's
      accumulated lines, joined by newlines. */
  lemma StepWritesLabel(p: Progress, a: Action)
    requires a.Emit? && Apply(p, a).failure.None?
    ensures a.labelFile in Apply(p, a).disk.files
    ensures Apply(p, a).disk.files[a.labelFile] == Text(JoinWith(Lines(Apply(p, a).labelData, a.fileName), '\n'))
  {
    ApplyEmit(p, a);
  }

  /** A label file that no later step writes holds the lines accumulated for
      its step's basename when that step ran, joined by newlines. */
  lemma {:induction false} LastLabelWrite(p: Progress, xs: seq<Action>, a: Action, ys: seq<Action>)
    requires a.Emit?
    requires Run(p, xs + [a] + ys).failure.None?
    requires a.labelFile !in Written(ys)
    ensures a.labelFile in Run(p, xs + [a] + ys).disk.files
    ensures Run(p, xs + [a] + ys).disk.files[a.labelFile]
         == Text(JoinWith(Lines(p.labelData, a.fileName) + LinesOf(xs + [a], a.fileName), '\n'))
  {
    var q := Run(p, xs + [a]);
    RunAppend(p, xs + [a], ys);
    var r := Run(q, ys);
    assert q.failure.None?;
    RunSnoc(p, xs, a);
    StepWritesLabel(Run(p, xs), a);
    var text := Text(JoinWith(Lines(q.labelData, a.fileName), '\n'));
    assert a.labelFile in q.disk.files && q.disk.files[a.labelFile] == text;
    RunUntouched(q, ys, a.labelFile);
    assert a.labelFile in r.disk.files && r.disk.files[a.labelFile] == text;
    RunLines(p, xs + [a], a.fileName);
  }

  /** A successful record step leaves its image file holding the contents its
      source had before the step. */
  lemma StepCopiesImage(p: Progress, a: Action)
    requires a.Emit? && Apply(p, a).failure.None?
    requires a.imageFile != a.labelFile
    ensures a.record.filePath in p.disk.files && a.imageFile in Apply(p, a).disk.files
    ensures Apply(p, a).disk.files[a.imageFile] == p.disk.files[a.record.filePath]
  {
    ApplyEmit(p, a);
  }

  /** An image that no later step writes, copied from a source that no
      earlier step wrote, holds the source's original contents. */
  lemma {:induction false} LastImageWrite(p: Progress, xs: seq<Action>, a: Action, ys: seq<Action>)
    requires a.Emit? && a.imageFile != a.labelFile
    requires Run(p, xs + [a] + ys).failure.None?
    requires a.record.filePath !in Written(xs) && a.imageFile !in Written(ys)
    ensures a.record.filePath in p.disk.files && a.imageFile in Run(p, xs + [a] + ys).disk.files
    ensures Run(p, xs + [a] + ys).disk.files[a.imageFile] == p.disk.files[a.record.filePath]
  {
    var q := Run(p, xs + [a]);
    RunAppend(p, xs + [a], ys);
    assert q.failure.None?;
    RunSnoc(p, xs, a);
    var q0 := Run(p, xs);
    StepCopiesImage(q0, a);
    RunUntouched(p, xs, a.record.filePath);
    RunUntouched(q, ys, a.imageFile);
  }

  /** LinesOf and LinesFor distribute over concatenation. */
  lemma {:induction false} LinesOfAppend(xs: seq<Action>, ys: seq<Action>, n: string)
    ensures LinesOf(xs + ys, n) == LinesOf(xs, n) + LinesOf(ys, n)
    decreases |ys|
  {
    if ys == [] {
      assert xs + ys == xs;
    } else {
      var init, last := ys[..|ys| - 1], ys[|ys| - 1];
      AppendInit(xs, ys);
      LinesOfAppend(xs, init, n);
      Associate(LinesOf(xs, n), LinesOf(init, n), if last.Emit? && last.fileName == n then [LabelLine(last.record)] else []);
    }
  }

  lemma {:induction false} LinesForAppend(xs: seq<Record>, ys: seq<Record>, n: string)
    ensures LinesFor(xs + ys, n) == LinesFor(xs, n) + LinesFor(ys, n)
    decreases |ys|
  {
    if ys == [] {
      assert xs + ys == xs;
    } else {
      var init, last := ys[..|ys| - 1], ys[|ys| - 1];
      AppendInit(xs, ys);
      LinesForAppend(xs, init, n);
      Associate(LinesFor(xs, n), LinesFor(init, n), if Basename(last.filePath) == n then [LabelLine(last)] else []);
    }
  }

  /** A folder is created by the steps exactly when one of them creates it. */
  lemma {:induction false} CreatedAt(s: seq<Action>, f: Path)
    ensures f in Created(s) <==> exists i :: 0 <= i < |s| && f in Folders(s[i])
  {
    if s != [] {
      var init := s[..|s| - 1];
      CreatedAt(init, f);
      if f in Created(init) {
        var i :| 0 <= i < |init| && f in Folders(init[i]);
        assert s[i] == init[i];
      }
      if exists i :: 0 <= i < |s| && f in Folders(s[i]) {
        var i :| 0 <= i < |s| && f in Folders(s[i]);
        if i < |init| {
          assert init[i] == s[i];
        }
      }
    }
  }

  /** The files two lists of steps write are those each writes. */
  lemma {:induction false} WrittenAppend(xs: seq<Action>, ys: seq<Action>)
    ensures Written(xs + ys) == Written(xs) + Written(ys)
    decreases |ys|
  {
    if ys == [] {
      assert xs + ys == xs;
    } else {
      AppendInit(xs, ys);
      WrittenAppend(xs, ys[..|ys| - 1]);
    }
  }

  /** The folders two lists of steps create are those each creates. */
  lemma {:induction false} CreatedAppend(xs: seq<Action>, ys: seq<Action>)
    ensures Created(xs + ys) == Created(xs) + Created(ys)
    decreases |ys|
  {
    if ys == [] {
      assert xs + ys == xs;
    } else {
      AppendInit(xs, ys);
      CreatedAppend(xs, ys[..|ys| - 1]);
    }
  }

  /** The folder steps create exactly their folders. */
  lemma {:induction false} MakeDirsCreated(folders: seq<Path>)
    ensures Created(MakeDirsActions(folders)) == set f | f in folders
    decreases |folders|
  {
    if folders != [] {
      var init := folders[..|folders| - 1];
      assert MakeDirsActions(folders)[..|folders| - 1] == MakeDirsActions(init);
      MakeDirsCreated(init);
      CutAt(folders, |folders| - 1);
    }
  }

  /** A prefix of the steps writes no file the whole steps do not. */
  lemma WrittenPrefix(xs: seq<Action>, a: Action, ys: seq<Action>, f: Path)
    requires f !in Written(xs + [a] + ys)
    ensures f !in Written(xs)
  {
    WrittenAppend(xs + [a], ys);
    WrittenAppend(xs, [a]);
  }

  /** A file is written by the steps exactly when one of them writes it. */
  lemma {:induction false} WrittenAt(s: seq<Action>, f: Path)
    ensures f in Written(s) <==> exists i :: 0 <= i < |s| && f in Targets(s[i])
  {
    if s != [] {
      var init := s[..|s| - 1];
      WrittenAt(init, f);
      if f in Written(init) {
        var i :| 0 <= i < |init| && f in Targets(init[i]);
        assert s[i] == init[i];
      }
      if exists i :: 0 <= i < |s| && f in Targets(s[i]) {
        var i :| 0 <= i < |s| && f in Targets(s[i]);
        if i < |init| {
          assert init[i] == s[i];
        }
      }
    }
  }

  /** The folder steps append no label line. */
  lemma {:induction false} MakeDirsLines(folders: seq<Path>, n: string)
    ensures LinesOf(MakeDirsActions(folders), n) == []
    decreases |folders|
  {
    if folders != [] {
      var init := folders[..|folders| - 1];
      assert MakeDirsActions(folders)[..|folders| - 1] == MakeDirsActions(init);
      MakeDirsLines(init, n);
    }
  }

  /** The steps of some records are those of all but the last, then the last's. */
  lemma {:induction false} RecordStepsSnoc(imageFolder: Path, labelFolder: Path, data: seq<Record>)
    requires data != []
    ensures RecordSteps(imageFolder, labelFolder, data)
         == RecordSteps(imageFolder, labelFolder, data[..|data| - 1]) + [RecordStep(imageFolder, labelFolder, data[|data| - 1])]
  {
    var s := RecordSteps(imageFolder, labelFolder, data);
    var t := RecordSteps(imageFolder, labelFolder, data[..|data| - 1]) + [RecordStep(imageFolder, labelFolder, data[|data| - 1])];
    assert |s| == |t|;
    forall i | 0 <= i < |t| ensures s[i] == t[i] {
      if i < |data| - 1 {
        assert data[..|data| - 1][i] == data[i];
      }
    }
  }

  /** A prefix of the steps is the steps of the prefix. */
  lemma {:induction false} RecordStepsPrefix(imageFolder: Path, labelFolder: Path, data: seq<Record>, m: nat)
    requires m <= |data|
    ensures RecordSteps(imageFolder, labelFolder, data)[..m] == RecordSteps(imageFolder, labelFolder, data[..m])
  {
    var s, t := RecordSteps(imageFolder, labelFolder, data)[..m], RecordSteps(imageFolder, labelFolder, data[..m]);
    assert |s| == |t|;
    forall i | 0 <= i < |t| ensures s[i] == t[i] {
      assert data[..m][i] == data[i];
    }
  }

  /** A record's step appends its line under its basename. */
  lemma RecordStepLine(imageFolder: Path, labelFolder: Path, r: Record, n: string)
    ensures LinesOf([RecordStep(imageFolder, labelFolder, r)], n) == if Basename(r.filePath) == n then [LabelLine(r)] else []
  {
    var a := RecordStep(imageFolder, labelFolder, r);
    assert [a][..0] == [];
  }

  /** The record steps append the records' lines. */
  lemma {:induction false} RecordStepsLines(imageFolder: Path, labelFolder: Path, data: seq<Record>, n: string)
    ensures LinesOf(RecordSteps(imageFolder, labelFolder, data), n) == LinesFor(data, n)
  {
    if data != [] {
      var init, r := data[..|data| - 1], data[|data| - 1];
      RecordStepsSnoc(imageFolder, labelFolder, data);
      LinesOfAppend(RecordSteps(imageFolder, labelFolder, init), [RecordStep(imageFolder, labelFolder, r)], n);
      RecordStepLine(imageFolder, labelFolder, r, n);
      RecordStepsLines(imageFolder, labelFolder, init, n);
    } else {
      assert RecordSteps(imageFolder, labelFolder, data) == [];
    }
  }

  /** The record steps after the first m are the steps of the records after
      the first m. */
  lemma {:induction false} RecordStepsDrop(imageFolder: Path, labelFolder: Path, data: seq<Record>, m: nat)
    requires m <= |data|
    ensures RecordSteps(imageFolder, labelFolder, data)[m..] == RecordSteps(imageFolder, labelFolder, data[m..])
  {
    var s, t := RecordSteps(imageFolder, labelFolder, data)[m..], RecordSteps(imageFolder, labelFolder, data[m..]);
    assert |s| == |t|;
    forall i | 0 <= i < |t| ensures s[i] == t[i] {
      assert s[i] == RecordStep(imageFolder, labelFolder, data[m + i]);
      assert data[m..][i] == data[m + i];
    }
  }

  /** The first m record steps append the lines of the first m records. */
  lemma RecordStepsPrefixLines(imageFolder: Path, labelFolder: Path, data: seq<Record>, m: nat, n: string)
    requires m <= |data|
    ensures LinesOf(RecordSteps(imageFolder, labelFolder, data)[..m], n) == LinesFor(data[..m], n)
  {
    RecordStepsPrefix(imageFolder, labelFolder, data, m);
    RecordStepsLines(imageFolder, labelFolder, data[..m], n);
  }

  /** Folder steps in front of other steps add no line. */
  lemma AfterFoldersLines(folders: seq<Path>, xs: seq<Action>, ys: seq<Action>, n: string)
    ensures LinesOf(MakeDirsActions(folders) + xs + ys, n) == LinesOf(xs, n) + LinesOf(ys, n)
  {
    var pre := MakeDirsActions(folders);
    LinesOfAppend(pre + xs, ys, n);
    LinesOfAppend(pre, xs, n);
    MakeDirsLines(folders, n);
    assert LinesOf(pre + xs, n) == [] + LinesOf(xs, n) == LinesOf(xs, n);
  }

  /** The record steps of all splits append the lines of the splits' records
      in order. */
  lemma {:induction false} EmitAllLines(output: Path, splitData: bool, bs: seq<Bucket<Record>>, n: string)
    ensures LinesOf(EmitAll(output, splitData, bs), n) == LinesFor(Flatten(bs), n)
  {
    if bs != [] {
      var init, last := bs[..|bs| - 1], bs[|bs| - 1];
      EmitAllLines(output, splitData, init, n);
      var emits := EmitBucket(output, splitData, last);
      LinesOfAppend(EmitAll(output, splitData, init), emits, n);
      RecordStepsLines(SplitFolder(output, splitData, last.name, "images"), SplitFolder(output, splitData, last.name, "labels"),
                       last.items, n);
      LinesForAppend(Flatten(init), last.items, n);
    }
  }
}
