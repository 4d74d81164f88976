# Dataset export: split and YOLO label files

This project models the export step of `fetch_and_download_data` in `utils.py`. The step takes the annotation rows fetched from the database and runs three stages:

1. **Shuffle.** It shuffles the rows.
2. **Split.** It cuts them into the `train`, `val` and `test` splits. The two split sizes are truncated ratio products, so the test split gets the rest. When the data is not split, all rows go into one `all` bucket.
3. **Export.** It creates the output folders, then walks the splits and their rows in order. For each row it:
   - copies the row's image into the split's `images` folder, under the image's basename;
   - appends the row's YOLO line (`class x_center y_center width height`) to an in-memory dictionary keyed by that basename;
   - rewrites the label file `<stem>.txt` in the split's `labels` folder with every line accumulated so far for that basename, joined by newlines.

The modules follow the structure of the code:

- `Strings` and `Paths`: the parts of Python's `str` and `posixpath` the export relies on, as plain functions on strings.
  - The export calls `os.path.join`, `os.path.basename`, `os.path.splitext` and `"\n".join`.
  - `RFind` is `str.rfind`, which `basename` and `splitext` use internally.
  - `SplitOn` (`str.split`) and its helper `Find` (`str.find`) are not called by the export. They exist to state the inverse of the join at utils.py:86: a reader of a label file gets its lines back.
- `Split`: the pure arithmetic of the split.
  - `SplitCount` is `int(total * ratio)`.
  - `Slice` is Python slicing, including how it clamps at the end of the list.
  - `Partition` builds the splits dictionary in iteration order.
  - `Shuffle` applies one outcome of `random.shuffle`, given as a permutation of indices.
- `Export`: the imperative part.
  - The output folder is a `FileSystem` object. Its `dirs` set and `files` map are updated in place by `MakeDirs` (`os.makedirs(..., exist_ok=True)`), `Copy` (`shutil.copy`) and `WriteText` (`open(..., "w").write`).
  - The nested loops are the methods `MakeFolders`, `ExportSplits`, `ExportItems` and `ExportRecord`. `FetchAndDownloadData` runs them all.
  - Each method is proved against `Run`, a fold of the single step `Apply` over the list of `Action`s the export performs. `ExportRun` is the `Run` of the whole export.
  - An exception (a folder name taken by a file, a missing source image, a copy onto itself) stops the export where it happened.
- `ExportProperties`: what a run of steps does to the disk and to the accumulator.
- `ExportTheorems`: what the whole export leaves behind, stated first for any list of splits and then for the splits cut from the shuffled rows:
  - the folders it creates;
  - which files each split's folders hold;
  - what each label file and each image holds;
  - the final accumulator.
- `ExportErrors`: when the export raises. Every exception it raises is explained by its inputs. When no output folder is already a file, every row's image exists, and no image already sits where it would be copied, the export runs to the end.

The accumulator `label_data` is created once, before the loop over the splits (utils.py:67), and is never cleared. One might expect each split's label files to hold only that split's lines. Because the accumulator is shared, they are cumulative instead: when rows with the same image basename fall into two splits, the later split's label file also holds the earlier split's lines. `ExportTheorems.LabelFileContents` states this cross-split behaviour exactly.

The accumulator is keyed by basename, while the label file name drops the extension. So `a.jpg` and `a.png` (`ExportTheorems.LabelNameCollision`) share `a.txt`, and each write replaces the file with its own basename's lines: the last write wins.

## Model

| member | source | states |
|---|---|---|
| Strings.RFind | utils.py:73 | the index of the last occurrence of the character, or -1 when there is none; no later position holds it |
| Strings.SplitOnJoins | utils.py:86 | splitting a text at newlines gives at least one piece, no piece holds a newline, and joining the pieces gives the text back |
| Strings.SplitJoin | utils.py:86 | a label file written as its lines joined by "\n" (no trailing newline) splits back into exactly those lines, when no line holds a newline |
| Paths.BasenameShape | utils.py:73 | the basename holds no '/', is a suffix of the path, and is either the whole path or preceded by '/' |
| Paths.SplitextRootShape | utils.py:84 | the splitext root is a prefix of the name; what it drops starts with '.', holds no other '.' or '/', and follows a component that is not all dots |
| Paths.BasenameOfJoin | utils.py:76 | joining a '/'-free name onto a folder puts exactly one separator between them, and the basename of the result is that name |
| Paths.JoinInjective | utils.py:76 | two joins with '/'-free names are the same path only when the names and the folder prefixes agree |
| Paths.NestedJoinInjective | utils.py:38-43 | `<output>/<split>/<kind>` paths coincide only for the same split and kind |
| Paths.SplitextDropsExtension | utils.py:84 | for `<stem>.<ext>` with a stem that is not all dots, the splitext root is exactly the stem |
| Paths.SplitextKeepsHiddenName | utils.py:84 | a leading dot is not an extension: the root of ".bashrc" is ".bashrc" |
| Split.SplitCount | utils.py:54-55 | int(total * ratio) for a non-negative ratio is the largest natural number not above the product |
| Split.Slice | utils.py:58-60 | Python's s[lo:hi]: the length after clamping both bounds to the list, and element k is s[lo + k] |
| Split.SlicesConcatenate | utils.py:57-61 | the train, val and test slices concatenate back to the shuffled list for any non-negative counts |
| Split.PartitionRestoresRecords | utils.py:57-64 | every row lands in exactly one bucket, in order, whether or not the data is split |
| Split.PartitionSizes | utils.py:57-61 | when the counts fit, train and val get exactly their counts and test gets the rest |
| Split.CountsFitTotal | utils.py:53-55 | ratios summing to at most 1 give truncated counts that fit in the total |
| Split.TestGetsRemainder | utils.py:53-61 | test holds total - int(total*train_ratio) - int(total*val_ratio) rows: all the rounding remainder |
| Split.ShufflePreservesMultiset | utils.py:35 | the shuffle neither loses nor duplicates a row |
| Export.Apply | utils.py:72-86 | a stopped export stays stopped; a step that raises changes neither the disk nor the accumulator |
| Export.Run | utils.py:49-86 | once a step raises, nothing after it happens; an export that ends without an exception never had one |
| Export.FileSystem.MakeDirs | utils.py:50 | the folder is added unless a file has its name, which raises; files are untouched |
| Export.FileSystem.Copy | utils.py:76 | the destination gets the source's contents, replacing any file there; a missing source or a copy onto itself raises and changes nothing |
| Export.FileSystem.WriteText | utils.py:85-86 | opening with "w" and writing leaves the file holding exactly the text |
| Export.ApplyFootprint | utils.py:72-86 | a successful step adds exactly its own files and folders |
| Export.AppendLine | utils.py:79-81 | starting a missing entry as [] and appending equals appending to the entry's lines (none when missing) |
| Export.ExportRecord | utils.py:72-86 | one pass of the record loop leaves the folder, the accumulator and the exception exactly as one step of `Run` does |
| Export.ExportItems | utils.py:72-86 | the record loop of a split leaves the folder, the accumulator and the exception exactly as the split's steps do, stopping at the first exception |
| Export.ExportSplits | utils.py:67-86 | the loop over the splits, with one accumulator shared by all of them, leaves the folder as the steps of all splits do |
| Export.MakeFolders | utils.py:49-50 | the makedirs loop leaves the folder as its steps do, stopping at the first exception |
| Export.FetchAndDownloadData | utils.py:35-86 | the whole export from the fetched rows and the shuffle leaves the folder and raises exactly as `ExportRun` says |
| ExportProperties.LinesAfterAppend | utils.py:79-81 | appending a line to one basename's entry adds it to that entry only |
| ExportProperties.ApplyAppendsLine | utils.py:79-81 | a successful record step appends exactly its row's line to its basename's entry and leaves every other entry alone |
| ExportProperties.RunFootprint | utils.py:49-86 | a successful run adds exactly the files and folders its steps write and create |
| ExportProperties.RunLines | utils.py:67-81 | after a successful run, each entry is what it was followed by the lines of its rows in order: nothing is ever removed |
| ExportProperties.RunUntouched | utils.py:72-86 | a file no step writes keeps its presence and its contents, whether or not the run succeeds |
| ExportProperties.StepWritesLabel | utils.py:84-86 | after a successful record step, its label file holds its basename's whole entry joined by "\n" |
| ExportProperties.LastLabelWrite | utils.py:84-86 | a label file that no later step writes holds the entry as it stood after its last writer ran: the last write wins |
| ExportProperties.StepCopiesImage | utils.py:76 | after a successful record step, its image file holds what its source held |
| ExportProperties.LastImageWrite | utils.py:76 | an image that no later step writes holds its source's original contents |
| ExportProperties.RecordStepsLines | utils.py:72-81 | the steps of a split's rows append, for each basename, the lines of its rows in list order |
| ExportProperties.EmitAllLines | utils.py:68-81 | the steps of all splits append the lines of every row, split after split |
| ExportTheorems.PartitionWellNamed | utils.py:57-64 | the split names are distinct single path components (train, val, test), or there is one bucket |
| ExportTheorems.LabelFileNameIsComponent | utils.py:84 | a label file name is a non-empty name without '/' |
| ExportTheorems.StepTargets | utils.py:73-85 | a row's step writes exactly two files: its basename in the split's images folder and its label file in the split's labels folder |
| ExportTheorems.TargetsApart | utils.py:69-85 | two files of split folders are the same path only for the same name, kind and (when split) split |
| ExportTheorems.StepWrites | utils.py:69-85 | a row's step writes a file of a split's folder only when it is that row's file of that kind, in its own split |
| ExportTheorems.StepFilesApart | utils.py:76-85 | a row's image and its label file are different paths |
| ExportTheorems.NestedFoldersApart | utils.py:38-43 | folders of different splits or kinds are different paths |
| ExportTheorems.SplitsApart | utils.py:38-46 | the images and labels folders of two different splits are four different paths |
| ExportTheorems.OutputFoldersDistinct | utils.py:38-50 | the export makes 6 distinct folders when splitting and 2 otherwise |
| ExportTheorems.EmitAllCreatesNothing | utils.py:68-86 | the split loop creates no folder |
| ExportTheorems.PlanCreates | utils.py:46-86 | the export creates exactly its output folders |
| ExportTheorems.FoldersCreated | utils.py:46-86 | a successful export adds exactly the output folders to the disk's folders |
| ExportTheorems.PlanWritesOnly | utils.py:68-85 | the export writes into a split's folder only the files of that split's rows |
| ExportTheorems.PlanWritesAll | utils.py:68-85 | the export writes every row's image and label file into its split's folders |
| ExportTheorems.SplitFolderFiles | utils.py:68-86 | after a successful export, a split's images (labels) folder holds a file exactly when it held one before or one of the split's rows has that basename (label file name) |
| ExportTheorems.LabelFileContents | utils.py:67-86 | the label file of the split's last row with a given label name holds the lines of every row with that basename from earlier splits and this split up to it, joined by "\n" |
| ExportTheorems.ImageContents | utils.py:73-76 | the image of the split's last row with a given basename holds that row's source contents |
| ExportTheorems.AccumulatorHoldsAllLines | utils.py:67-81 | at the end, each basename's entry holds the lines of all its rows, split after split: the accumulator is never cleared |
| ExportTheorems.LabelNameCollision | utils.py:73-84 | "a.jpg" and "a.png" both get the label file "a.txt" |
| ExportTheorems.LabelLineJoins | utils.py:81 | a label line is the class and the four box fields joined by single spaces |
| ExportTheorems.LabelLineFields | utils.py:81 | splitting a label line at spaces gives back the class and the box, when no field holds a space |
| ExportTheorems.ExportCreatesFolders | utils.py:35-50 | a successful export adds exactly its output folders: six distinct ones when splitting, two otherwise |
| ExportTheorems.ExportAccumulator | utils.py:35-81 | the final accumulator holds, per basename, the lines of the shuffled rows with that basename, in shuffled order; nothing from before the call |
| ExportTheorems.ExportSplitFiles | utils.py:35-86 | after a successful export, each split folder holds exactly what it held before plus the basenames (label file names) of its rows |
| ExportTheorems.ExportLabelFile | utils.py:35-86 | after a successful export, a label file holds only this run's lines for its basename, from earlier splits and this split up to its last writer, joined by "\n" |
| ExportErrors.MakeDirsRun | utils.py:49-50 | the makedirs loop changes no file and no accumulator entry, and raises only on a folder that is already a file |
| ExportErrors.EmitsRun | utils.py:72-86 | a run of row steps raises only because of one row whose image was missing at the start or is its own copy's destination: files are never removed |
| ExportErrors.EmitAllFailure | utils.py:68-86 | the split loop raises only because of a row of some split whose image is missing, or already sits in that split's image folder under its basename |
| ExportErrors.PlanFailure | utils.py:46-86 | an export of any splits raises only because of an output folder that is already a file, or because of one of its rows |
| ExportErrors.RowFetched | utils.py:35-64 | every row of every split is one of the fetched rows |
| ExportErrors.ExportFailure | utils.py:35-86 | an exception that stops the whole export names an output folder that was already a file, a fetched row whose image was missing, or a fetched row whose image already sat in an image folder under its own basename |
| ExportErrors.ExportSucceeds | utils.py:35-86 | when no output folder is a file, every fetched image exists, and none sits in an image folder under its own basename, the export raises nothing, so the theorems about a successful export apply |

## Left out

- The database query (utils.py:16-34): the connection, the class filter with its default `['0']`, and `LIMIT`. The fetched rows are an input sequence of any length, so neither the filter nor the limit appears.
- `random.shuffle` (utils.py:35): its outcome is an input permutation of indices. Any permutation is allowed.
- The floating-point product `total * ratio` (utils.py:54-55): it is a product of reals, truncated by `Floor`. Ratios must be non-negative, because negative slice bounds would count from the end in Python. `test_ratio` is never read by the code, so it is not a parameter.
- The float formatting in the f-string (utils.py:81): the coordinates and the class are kept as the text they print as.
- `print`, `cursor.close()` and `conn.close()` (utils.py:88-91): output and connection cleanup only. After an exception the code closes nothing, and the model only records the exception.
- Export.FileSystem.MakeDirs: it does not create missing parent folders, and it does not fail when a parent of the folder is a file. Only a file with the folder's own name raises.
- Export.FileSystem.Copy: `shutil.copy` onto an existing folder copies into that folder; the model replaces a file at the destination path instead. A source that is a folder raises like a missing source. Two paths are the same file only when they are equal strings: symbolic links and `..` are not resolved.
- Export.FileSystem.WriteText: writing a label file over a path that is a folder, or into a missing folder, does not raise in the model.
- Paths: `os.path.join`, `basename` and `splitext` are POSIX path operations on plain strings, with no normalisation.
- ExportTheorems.ImageContents: it requires that the export does not itself write the row's source image (a source inside the output folders). Otherwise an earlier copy could have replaced the source.
- Disk failures, permissions and concurrent writers: these are outside what the code itself decides.
- `generate_statistics` and `preview_random_image` (utils.py:94-168): database aggregates, image decoding and display. They are not part of the export.
