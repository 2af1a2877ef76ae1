/** `concatenate_brain_input` of check_brain_data.py: one format key for the whole manifest,
    then each present subject's file loaded by format and stacked in the order of `exist`. */
module CheckBrainData {
  import opened Common
  import opened PathStrings
  import opened NdArrays
  import opened Manifest

  /** The keys of all manifest paths, including those of subjects that are not loaded. */
  function FormatSet(rows: seq<Row>, key: Path -> string): set<string>
  {
    set i | 0 <= i < |rows| :: key(rows[i].path)
  }

  /** The key the script computes: `os.path.splitext(path)[1]`, the last suffix only. */
  function SplitExtKey(): Path -> string
  {
    p => Ext(p)
  }

  /** A key that keeps the compound suffixes the dispatch below tests for. */
  function CompoundKey(): Path -> string
  {
    p => CompoundFormat(p)
  }

  function CompoundFormat(p: Path): string
  {
    if EndsWith(p, ".nii.gz") then ".nii.gz"
    else if EndsWith(p, ".dscalar.nii") then ".dscalar.nii"
    else if EndsWith(p, ".dtseries.nii") then ".dtseries.nii"
    else if EndsWith(p, ".dlabel.nii") then ".dlabel.nii"
    else Ext(p)
  }

  predicate IsNiftiFormat(f: string)
  {
    f == ".nii" || f == ".nii.gz"
  }

  predicate IsCiftiFormat(f: string)
  {
    EndsWith(f, ".dscalar.nii") || EndsWith(f, ".dtseries.nii") || EndsWith(f, ".dlabel.nii")
  }

  /** Subject `s` has a manifest row, and the file of its first row exists. */
  predicate HasFirstRowFile(rows: seq<Row>, files: FileStore, s: SubjectId)
  {
    FirstPath(rows, s).Some? && FirstPath(rows, s).value in files
  }

  /** The file of subject `s`'s first manifest row. */
  function SubjectFile(rows: seq<Row>, files: FileStore, s: SubjectId): FileImage
    requires HasFirstRowFile(rows, files, s)
  {
    files[FirstPath(rows, s).value]
  }

  /** One pass of the loading loop for subject `s`: the array appended, and the files it loads. */
  function LoadSubject(s: SubjectId, rows: seq<Row>, files: FileStore, fmt: string): (Result<NdArray>, seq<Path>)
  {
    match FirstPath(rows, s)
    case None => (Err(ValueError(SubjectNotInManifest(s))), [])
    case Some(p) =>
      if p !in files then (Err(FileNotFoundError(p)), [])
      else if IsNiftiFormat(fmt) then (Ok(NewAxis(files[p].fdata)), [p])
      else if fmt == ".gii" then (HStack(files[p].darrays), [p])
      else if IsCiftiFormat(fmt) then (Ok(files[p].fdata), [p])
      else (Err(ValueError(UnsupportedFormat(fmt))), [])
  }

  /** The loading loop over `xs`: it stops at the first subject that fails. */
  function LoadAll(xs: seq<SubjectId>, rows: seq<Row>, files: FileStore, fmt: string): (Result<seq<NdArray>>, seq<Path>)
    decreases |xs|
  {
    if xs == [] then (Ok([]), [])
    else
      var (prev, trace) := LoadAll(xs[..|xs| - 1], rows, files, fmt);
      if prev.Err? then (prev, trace)
      else
        var (one, o) := LoadSubject(xs[|xs| - 1], rows, files, fmt);
        if one.Err? then (Err(one.error), trace + o) else (Ok(prev.value + [one.value]), trace + o)
  }

  /** The whole function: its result and the files it loads, in order. */
  function Assemble(exist: seq<SubjectId>, rows: seq<Row>, files: FileStore, key: Path -> string): (Result<NdArray>, seq<Path>)
  {
    if |FormatSet(rows, key)| > 1 then (Err(ValueError(MixedFormats)), [])
    else if rows == [] then (Err(IndexError), [])
    else
      var fmt := key(rows[0].path);
      var (loaded, trace) := LoadAll(exist, rows, files, fmt);
      if loaded.Err? then (Err(loaded.error), trace)
      else if IsNiftiFormat(fmt) then (Concatenate(loaded.value), trace)
      else (VStack(loaded.value), trace)
  }

  /** `concatenate_brain_input(exist_subject, all_subject_brain_file_path)`, for the manifest
      as read (a read error is raised as is, before any file is loaded), existing files
      `files`, and the format key `key` (`SplitExtKey()` is the script's). `trace` lists the
      files loaded, in order. */
  method ConcatenateBrainInput(exist: seq<SubjectId>, manifest: Result<seq<Row>>, files: FileStore, key: Path -> string)
    returns (r: Result<NdArray>, trace: seq<Path>)
    ensures manifest.Err? ==> r == Err(manifest.error) && trace == []
    ensures manifest.Ok? ==> (r, trace) == Assemble(exist, manifest.value, files, key)
  {
    if manifest.Err? {
      return Err(manifest.error), [];
    }
    var rows := manifest.value;
    var formats := set i | 0 <= i < |rows| :: key(rows[i].path);
    if |formats| > 1 {
      return Err(ValueError(MixedFormats)), [];
    }
    FirstKeyIsFormat(rows, key);
    if formats == {} {
      return Err(IndexError), [];
    }
    var fmt :| fmt in formats;
    OneFormat(rows, key, fmt);
    var concatenated: seq<NdArray> := [];
    trace := [];
    for i := 0 to |exist|
      invariant LoadAll(exist[..i], rows, files, fmt) == (Ok(concatenated), trace)
    {
      var subject := exist[i];
      assert exist[..i + 1][..i] == exist[..i];
      var row := FirstPath(rows, subject);
      if row.None? {
        r := Err(ValueError(SubjectNotInManifest(subject)));
        assert LoadSubject(subject, rows, files, fmt) == (r, []);
        assert trace + [] == trace;
        StopsAtSubject(exist, i, rows, files, key, fmt);
        return;
      }
      var path := row.value;
      if path !in files {
        r := Err(FileNotFoundError(path));
        StopsAtSubject(exist, i, rows, files, key, fmt);
        return;
      }
      var image := files[path];
      if fmt == ".nii" || fmt == ".nii.gz" {
        trace := trace + [path];
        concatenated := concatenated + [NewAxis(image.fdata)];
      } else if fmt == ".gii" {
        trace := trace + [path];
        var stacked := HStack(image.darrays);
        if stacked.Err? {
          r := Err(stacked.error);
          StopsAtSubject(exist, i, rows, files, key, fmt);
          return;
        }
        concatenated := concatenated + [stacked.value];
      } else if EndsWith(fmt, ".dscalar.nii") || EndsWith(fmt, ".dtseries.nii") || EndsWith(fmt, ".dlabel.nii") {
        trace := trace + [path];
        concatenated := concatenated + [image.fdata];
      } else {
        r := Err(ValueError(UnsupportedFormat(fmt)));
        StopsAtSubject(exist, i, rows, files, key, fmt);
        return;
      }
    }
    assert exist[..|exist|] == exist;
    if fmt == ".nii" || fmt == ".nii.gz" {
      r := Concatenate(concatenated);
    } else {
      r := VStack(concatenated);
    }
  }

  /** With at most one key over a non-empty manifest, that key is the first row's. */
  lemma OneFormat(rows: seq<Row>, key: Path -> string, f: string)
    requires f in FormatSet(rows, key) && |FormatSet(rows, key)| <= 1
    ensures rows != [] && f == key(rows[0].path)
  {
    var j :| 0 <= j < |rows| && key(rows[j].path) == f;
    var g := key(rows[0].path);
    if f != g {
      TwoKeys(rows, key, j, 0);
    }
  }

  /** The first row's key is one of the formats. */
  lemma FirstKeyIsFormat(rows: seq<Row>, key: Path -> string)
    ensures rows != [] ==> key(rows[0].path) in FormatSet(rows, key)
  {
  }

  /** Two rows with different keys make at least two formats. */
  lemma TwoKeys(rows: seq<Row>, key: Path -> string, i: nat, j: nat)
    requires i < |rows| && j < |rows| && key(rows[i].path) != key(rows[j].path)
    ensures |FormatSet(rows, key)| > 1
  {
    var a, b := key(rows[i].path), key(rows[j].path);
    var formats := FormatSet(rows, key);
    assert a in formats && b in formats;
    var rest := formats - {a};
    assert b in rest;
    assert |formats| == |rest| + 1;
  }

  /** When every row has key `f`, `f` is the single format. */
  lemma UniformKey(rows: seq<Row>, key: Path -> string, f: string)
    requires rows != []
    requires forall i :: 0 <= i < |rows| ==> key(rows[i].path) == f
    ensures FormatSet(rows, key) == {f}
  {
    assert key(rows[0].path) in FormatSet(rows, key);
  }

  /** A subject whose iteration fails decides the whole run: its error, and the files
      loaded up to it. */
  lemma StopsAtSubject(exist: seq<SubjectId>, i: nat, rows: seq<Row>, files: FileStore, key: Path -> string, fmt: string)
    requires rows != [] && |FormatSet(rows, key)| <= 1 && fmt == key(rows[0].path)
    requires i < |exist| && LoadAll(exist[..i + 1], rows, files, fmt).0.Err?
    ensures Assemble(exist, rows, files, key) ==
              (Err(LoadAll(exist[..i + 1], rows, files, fmt).0.error), LoadAll(exist[..i + 1], rows, files, fmt).1)
  {
    LoadAllStops(exist, i + 1, rows, files, fmt);
  }

  /** Once the loop fails it stops: the result is that of the failing prefix. */
  lemma {:induction false} LoadAllStops(xs: seq<SubjectId>, j: nat, rows: seq<Row>, files: FileStore, fmt: string)
    requires 0 < j <= |xs|
    requires LoadAll(xs[..j], rows, files, fmt).0.Err?
    ensures LoadAll(xs, rows, files, fmt) == LoadAll(xs[..j], rows, files, fmt)
    decreases |xs| - j
  {
    if j == |xs| {
      assert xs[..j] == xs;
    } else {
      var init := xs[..|xs| - 1];
      assert init[..j] == xs[..j];
      LoadAllStops(init, j, rows, files, fmt);
    }
  }

  /** What is appended for one file of format `fmt`. */
  function Loaded(image: FileImage, fmt: string): Result<NdArray>
  {
    if IsNiftiFormat(fmt) then Ok(NewAxis(image.fdata))
    else if fmt == ".gii" then HStack(image.darrays)
    else Ok(image.fdata)
  }

  /** A loop that succeeds loads one file per subject, the path of the subject's first
      manifest row, and appended that file's array in the same position. */
  lemma {:induction false} LoadAllSucceeds(xs: seq<SubjectId>, rows: seq<Row>, files: FileStore, fmt: string)
    requires LoadAll(xs, rows, files, fmt).0.Ok?
    ensures var (loaded, trace) := LoadAll(xs, rows, files, fmt);
            && |loaded.value| == |xs| == |trace|
            && forall i :: 0 <= i < |xs| ==>
                 && FirstPath(rows, xs[i]) == Some(trace[i])
                 && trace[i] in files
                 && Loaded(files[trace[i]], fmt) == Ok(loaded.value[i])
    decreases |xs|
  {
    if xs != [] {
      var init, s := xs[..|xs| - 1], xs[|xs| - 1];
      var (prev, before) := LoadAll(init, rows, files, fmt);
      var (one, o) := LoadSubject(s, rows, files, fmt);
      assert LoadAll(xs, rows, files, fmt) == (Ok(prev.value + [one.value]), before + o);
      LoadAllSucceeds(init, rows, files, fmt);
      LoadSubjectSucceeds(s, rows, files, fmt);
      var loaded, trace := prev.value + [one.value], before + o;
      forall i | 0 <= i < |xs|
        ensures FirstPath(rows, xs[i]) == Some(trace[i]) && trace[i] in files
        ensures Loaded(files[trace[i]], fmt) == Ok(loaded[i])
      {
        if i < |init| {
          assert init[i] == xs[i] && trace[i] == before[i] && loaded[i] == prev.value[i];
        } else {
          assert xs[i] == s && trace[i] == o[0] && loaded[i] == one.value;
        }
      }
    }
  }

  /** One pass that succeeds loads exactly the file of the subject's first manifest row. */
  lemma LoadSubjectSucceeds(s: SubjectId, rows: seq<Row>, files: FileStore, fmt: string)
    requires LoadSubject(s, rows, files, fmt).0.Ok?
    ensures var (one, o) := LoadSubject(s, rows, files, fmt);
            && |o| == 1 && FirstPath(rows, s) == Some(o[0]) && o[0] in files
            && Loaded(files[o[0]], fmt) == Ok(one.value)
  {
  }

  /** If two manifest rows have different keys, the function fails with a `ValueError`
      before loading any file, whichever subjects were requested. */
  lemma MixedFormatsLoadNothing(exist: seq<SubjectId>, rows: seq<Row>, files: FileStore, key: Path -> string, i: nat, j: nat)
    requires i < |rows| && j < |rows| && key(rows[i].path) != key(rows[j].path)
    ensures Assemble(exist, rows, files, key) == (Err(ValueError(MixedFormats)), [])
  {
    TwoKeys(rows, key, i, j);
  }

  /** A successful run loaded every subject of `exist` from its first manifest row, once each, in order. */
  lemma LoadsFirstRowOfEachSubject(exist: seq<SubjectId>, rows: seq<Row>, files: FileStore, key: Path -> string)
    requires Assemble(exist, rows, files, key).0.Ok?
    ensures var trace := Assemble(exist, rows, files, key).1;
            && |trace| == |exist|
            && forall i :: 0 <= i < |exist| ==> trace[i] in files && FirstPath(rows, exist[i]) == Some(trace[i])
  {
    LoadAllSucceeds(exist, rows, files, key(rows[0].path));
  }

  /** On the NIfTI branch a successful result has one leading slice per subject of `exist`,
      and slice `i` is the data of subject `exist[i]`'s file. */
  lemma NiftiSlicesFollowExist(exist: seq<SubjectId>, rows: seq<Row>, files: FileStore, key: Path -> string)
    requires Assemble(exist, rows, files, key).0.Ok?
    requires IsNiftiFormat(key(rows[0].path))
    requires forall i :: 0 <= i < |exist| && HasFirstRowFile(rows, files, exist[i]) ==>
               WellFormed(SubjectFile(rows, files, exist[i]).fdata)
    ensures var (r, trace) := Assemble(exist, rows, files, key);
            && |exist| > 0 && |trace| == |exist|
            && (forall i :: 0 <= i < |exist| ==> trace[i] in files)
            && r.value.shape == [|exist|] + files[trace[0]].fdata.shape
            && forall i :: 0 <= i < |exist| ==>
                 BlockIs(r.value.data, i, Product(files[trace[0]].fdata.shape), files[trace[i]].fdata.data)
  {
    var fmt := key(rows[0].path);
    var (loaded, trace) := LoadAll(exist, rows, files, fmt);
    LoadAllSucceeds(exist, rows, files, fmt);
    var arrs := loaded.value;
    var datas := seq(|arrs|, i requires 0 <= i < |arrs| => files[trace[i]].fdata);
    forall i | 0 <= i < |arrs| ensures arrs[i] == NewAxis(datas[i]) && WellFormed(datas[i]) {
      assert Loaded(files[trace[i]], fmt) == Ok(arrs[i]);
      assert SubjectFile(rows, files, exist[i]) == files[trace[i]];
    }
    assert Assemble(exist, rows, files, key) == (Concatenate(arrs), trace);
    NewAxisSlices(arrs, datas);
  }

  /** Arrays each given a new leading axis and concatenated, when the concatenation
      succeeds: one slice per array, of the first array's shape, in order. */
  lemma NewAxisSlices(arrs: seq<NdArray>, datas: seq<NdArray>)
    requires |arrs| == |datas| > 0
    requires forall i :: 0 <= i < |arrs| ==> arrs[i] == NewAxis(datas[i]) && WellFormed(datas[i])
    requires Concatenate(arrs).Ok?
    ensures Concatenate(arrs).value.shape == [|arrs|] + datas[0].shape
    ensures forall i :: 0 <= i < |arrs| ==>
              BlockIs(Concatenate(arrs).value.data, i, Product(datas[0].shape), datas[i].data)
  {
    ConcatenateKeepsData(arrs);
    var s := datas[0].shape;
    var k := Product(s);
    forall i | 0 <= i < |arrs| ensures datas[i].shape == s && arrs[i].data == datas[i].data && |datas[i].data| == k {
      assert arrs[i].shape[1..] == arrs[0].shape[1..];
      assert ([1] + datas[i].shape)[1..] == datas[i].shape;
      assert ([1] + s)[1..] == s;
    }
    NewAxisStack(datas, s);
    FlatSameData(datas, arrs);
    assert NewAxisAll(datas) == arrs;
    forall i | 0 <= i < |arrs| ensures BlockIs(Flat(arrs), i, k, datas[i].data) {
      FlatBlock(arrs, k, i);
    }
  }

  /** On the GIFTI branch a successful result is a subjects-by-vertices matrix: one row per
      subject of `exist`, in that order, row `i` holding the data arrays of `exist[i]`'s
      file one after the other. */
  lemma {:induction false} GiiRowsFollowExist(exist: seq<SubjectId>, rows: seq<Row>, files: FileStore, key: Path -> string)
    requires Assemble(exist, rows, files, key).0.Ok?
    requires key(rows[0].path) == ".gii"
    ensures var (r, trace) := Assemble(exist, rows, files, key);
            && |exist| > 0 && |trace| == |exist|
            && forall i :: 0 <= i < |exist| ==> trace[i] in files && FirstPath(rows, exist[i]) == Some(trace[i])
    ensures var (r, trace) := Assemble(exist, rows, files, key);
            r.value.shape == [|exist|, |Concat(files[trace[0]].darrays)|]
    ensures var (r, trace) := Assemble(exist, rows, files, key);
            forall i :: 0 <= i < |exist| ==>
              BlockIs(r.value.data, i, |Concat(files[trace[0]].darrays)|, Concat(files[trace[i]].darrays))
  {
    var fmt := key(rows[0].path);
    var (loaded, trace) := LoadAll(exist, rows, files, fmt);
    LoadAllSucceeds(exist, rows, files, fmt);
    var arrs := loaded.value;
    var vecs := seq(|arrs|, i requires 0 <= i < |arrs| => Concat(files[trace[i]].darrays));
    forall i | 0 <= i < |arrs| ensures arrs[i] == NdArray([|vecs[i]|], vecs[i]) {
      assert Loaded(files[trace[i]], fmt) == Ok(arrs[i]);
    }
    assert Assemble(exist, rows, files, key) == (VStack(arrs), trace);
    VStackVectors(arrs, vecs);
  }

  /** The CIFTI branch (suffixes `.dscalar.nii`, `.dtseries.nii`, `.dlabel.nii`) is never taken
      with the script's key: a `splitext` extension holds at most one dot. */
  lemma CiftiBranchUnreachable(p: Path)
    ensures !IsCiftiFormat(Ext(p))
  {
    var e := Ext(p);
    SplitExtShape(p);
    if e != [] {
      InnerDotBlocksSuffix(e, ".dscalar.nii");
      InnerDotBlocksSuffix(e, ".dtseries.nii");
      InnerDotBlocksSuffix(e, ".dlabel.nii");
    }
  }

  /** A word whose only dot is its first character does not end in a suffix that has a
      dot four characters from its end. */
  lemma InnerDotBlocksSuffix(e: string, suffix: string)
    requires |suffix| >= 5 && suffix[|suffix| - 4] == '.'
    requires |e| >= 1 && '.' !in e[1..]
    ensures !EndsWith(e, suffix)
  {
    if |suffix| <= |e| {
      assert e[1..][|e| - 5] == e[|e| - 4];
      assert e[|e| - |suffix|..][|suffix| - 4] == e[|e| - 4];
    }
  }

  /** With the script's key, a manifest of `.nii.gz` files has the single format `.gz`. */
  lemma GzManifestFormat(rows: seq<Row>)
    requires rows != []
    requires forall i :: 0 <= i < |rows| ==> EndsWith(rows[i].path, ".nii.gz")
    ensures FormatSet(rows, SplitExtKey()) == {".gz"}
  {
    forall i | 0 <= i < |rows| ensures SplitExtKey()(rows[i].path) == ".gz" {
      NiiGzExt(rows[i].path);
    }
    UniformKey(rows, SplitExtKey(), ".gz");
  }

  /** A format no branch accepts opens no file, and the loop fails on its first subject:
      with the unsupported-format `ValueError` when that subject's file exists. */
  lemma {:induction false} UnsupportedLoadsNothing(xs: seq<SubjectId>, rows: seq<Row>, files: FileStore, fmt: string)
    requires !IsNiftiFormat(fmt) && fmt != ".gii" && !IsCiftiFormat(fmt)
    ensures LoadAll(xs, rows, files, fmt).1 == []
    ensures LoadAll(xs, rows, files, fmt).0.Ok? <==> xs == []
    ensures xs != [] && FirstPath(rows, xs[0]).Some? && FirstPath(rows, xs[0]).value in files ==>
              LoadAll(xs, rows, files, fmt).0 == Err(ValueError(UnsupportedFormat(fmt)))
    decreases |xs|
  {
    if xs != [] {
      var init := xs[..|xs| - 1];
      UnsupportedLoadsNothing(init, rows, files, fmt);
      if init != [] {
        assert init[0] == xs[0];
      }
    }
  }

  /** As written: a manifest of `.nii.gz` files never yields data. The key is `.gz`, which
      no branch accepts, so the first subject with an existing file raises the
      unsupported-format `ValueError`, and no file is loaded. */
  lemma GzManifestIsRejected(exist: seq<SubjectId>, rows: seq<Row>, files: FileStore)
    requires rows != []
    requires forall i :: 0 <= i < |rows| ==> EndsWith(rows[i].path, ".nii.gz")
    ensures Assemble(exist, rows, files, SplitExtKey()).0.Err?
    ensures Assemble(exist, rows, files, SplitExtKey()).1 == []
    ensures exist != [] && FirstPath(rows, exist[0]).Some? && FirstPath(rows, exist[0]).value in files ==>
              Assemble(exist, rows, files, SplitExtKey()).0 == Err(ValueError(UnsupportedFormat(".gz")))
  {
    GzManifestKey(rows);
    GzUnsupported();
    UnsupportedAssemblesNothing(exist, rows, files, SplitExtKey(), ".gz");
  }

  /** The key of a `.nii.gz` manifest, as the dispatch sees it: one format, `.gz`. */
  lemma GzManifestKey(rows: seq<Row>)
    requires rows != []
    requires forall i :: 0 <= i < |rows| ==> EndsWith(rows[i].path, ".nii.gz")
    ensures |FormatSet(rows, SplitExtKey())| <= 1 && SplitExtKey()(rows[0].path) == ".gz"
  {
    GzManifestFormat(rows);
    NiiGzExt(rows[0].path);
  }

  /** No branch of the dispatch accepts the key `.gz`. */
  lemma GzUnsupported()
    ensures !IsNiftiFormat(".gz") && ".gz" != ".gii" && !IsCiftiFormat(".gz")
  {
    assert !EndsWith(".gz", ".dscalar.nii");
  }

  /** A manifest of one format that no branch accepts loads no file and yields no data:
      the unsupported-format `ValueError` when the first subject's file exists. */
  lemma UnsupportedAssemblesNothing(exist: seq<SubjectId>, rows: seq<Row>, files: FileStore, key: Path -> string,
                                    fmt: string)
    requires rows != [] && |FormatSet(rows, key)| <= 1 && key(rows[0].path) == fmt
    requires !IsNiftiFormat(fmt) && fmt != ".gii" && !IsCiftiFormat(fmt)
    ensures Assemble(exist, rows, files, key).0.Err?
    ensures Assemble(exist, rows, files, key).1 == []
    ensures exist != [] && FirstPath(rows, exist[0]).Some? && FirstPath(rows, exist[0]).value in files ==>
              Assemble(exist, rows, files, key).0 == Err(ValueError(UnsupportedFormat(fmt)))
  {
    UnsupportedLoadsNothing(exist, rows, files, fmt);
    assert VStack([]).Err?;
  }

  /** On the NIfTI branch the loop succeeds when every subject has a row whose file exists. */
  lemma {:induction false} LoadAllNifti(xs: seq<SubjectId>, rows: seq<Row>, files: FileStore, fmt: string)
    requires IsNiftiFormat(fmt)
    requires forall i :: 0 <= i < |xs| ==> FirstPath(rows, xs[i]).Some? && FirstPath(rows, xs[i]).value in files
    ensures LoadAll(xs, rows, files, fmt).0.Ok?
    decreases |xs|
  {
    if xs != [] {
      var init := xs[..|xs| - 1];
      forall i | 0 <= i < |init| ensures init[i] == xs[i] { }
      LoadAllNifti(init, rows, files, fmt);
    }
  }

  /** On the NIfTI branch, when every subject's file exists and all files share shape `s`,
      the subjects are stacked along a new leading axis: shape `[n] + s`. Only the files
      of `exist` are constrained. */
  lemma NiftiStack(exist: seq<SubjectId>, rows: seq<Row>, files: FileStore, key: Path -> string, s: seq<nat>)
    requires rows != [] && exist != []
    requires |FormatSet(rows, key)| <= 1 && IsNiftiFormat(key(rows[0].path))
    requires forall i :: 0 <= i < |exist| ==>
               HasFirstRowFile(rows, files, exist[i]) && SubjectFile(rows, files, exist[i]).fdata.shape == s
    ensures Assemble(exist, rows, files, key).0.Ok?
    ensures Assemble(exist, rows, files, key).0.value.shape == [|exist|] + s
  {
    var fmt := key(rows[0].path);
    LoadAllNifti(exist, rows, files, fmt);
    LoadAllSucceeds(exist, rows, files, fmt);
    var (loaded, trace) := LoadAll(exist, rows, files, fmt);
    var arrs := loaded.value;
    var datas := seq(|arrs|, i requires 0 <= i < |arrs| => files[trace[i]].fdata);
    forall i | 0 <= i < |arrs| ensures arrs[i] == NewAxis(datas[i]) && datas[i].shape == s {
      assert Loaded(files[trace[i]], fmt) == Ok(arrs[i]);
      assert SubjectFile(rows, files, exist[i]) == files[trace[i]];
    }
    assert NewAxisAll(datas) == arrs;
    NewAxisStack(datas, s);
  }

  /** Corrected: with the compound key the same `.nii.gz` manifest takes the NIfTI branch,
      and subjects whose files share shape `s` stack to shape `[n] + s`. */
  lemma GzManifestIntended(exist: seq<SubjectId>, rows: seq<Row>, files: FileStore, s: seq<nat>)
    requires rows != [] && exist != []
    requires forall i :: 0 <= i < |rows| ==> EndsWith(rows[i].path, ".nii.gz")
    requires forall i :: 0 <= i < |exist| ==>
               HasFirstRowFile(rows, files, exist[i]) && SubjectFile(rows, files, exist[i]).fdata.shape == s
    ensures Assemble(exist, rows, files, CompoundKey()).0.Ok?
    ensures Assemble(exist, rows, files, CompoundKey()).0.value.shape == [|exist|] + s
  {
    var key := CompoundKey();
    forall i | 0 <= i < |rows| ensures key(rows[i].path) == ".nii.gz" {
      assert EndsWith(rows[i].path, ".nii.gz");
    }
    UniformKey(rows, key, ".nii.gz");
    assert IsNiftiFormat(key(rows[0].path));
    NiftiStack(exist, rows, files, CompoundKey(), s);
  }

  /** As written: CIFTI `.dscalar.nii` files share the key `.nii` and take the NIfTI branch,
      so each subject gets a new leading axis instead of becoming one row of a matrix. */
  lemma DscalarTakesNiftiBranch(exist: seq<SubjectId>, rows: seq<Row>, files: FileStore)
    requires rows != []
    requires forall i :: 0 <= i < |rows| ==> EndsWith(rows[i].path, ".dscalar.nii")
    requires forall i :: 0 <= i < |exist| && HasFirstRowFile(rows, files, exist[i]) ==>
               WellFormed(SubjectFile(rows, files, exist[i]).fdata)
    ensures FormatSet(rows, SplitExtKey()) == {".nii"}
    ensures var (r, trace) := Assemble(exist, rows, files, SplitExtKey());
            r.Ok? ==> |trace| > 0 && trace[0] in files && r.value.shape == [|exist|] + files[trace[0]].fdata.shape
  {
    var key := SplitExtKey();
    forall i | 0 <= i < |rows| ensures key(rows[i].path) == ".nii" {
      assert ".dscalar" + ".nii" == ".dscalar.nii";
      CiftiNiiExt(rows[i].path, ".dscalar");
    }
    UniformKey(rows, key, ".nii");
    if Assemble(exist, rows, files, key).0.Ok? {
      NiftiSlicesFollowExist(exist, rows, files, key);
    }
  }
}
