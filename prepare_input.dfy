/** The input checks and the brain-data concatenation of prepare_input_data.py. Unlike
    check_brain_data.py, these read the manifest row by row and dispatch on each path's suffix. */
module PrepareInput {
  import opened Common
  import opened Seqs
  import opened PathStrings
  import opened NdArrays
  import opened Manifest
  import Behavior

  /** `check_behavior_input(behavior_file_path)`: reading errors propagate, a missing cell
      raises `ValueError`, and otherwise it returns after a message. */
  function CheckBehaviorInput(contents: Result<Behavior.Table>): (r: Result<()>)
    ensures r.Ok? <==> contents.Ok? && !Behavior.HasMissingCell(contents.value)
    ensures contents.Err? ==> r == Err(contents.error)
    ensures contents.Ok? && Behavior.HasMissingCell(contents.value) ==> r == Err(ValueError(MissingBehaviorValues))
  {
    match contents
    case Err(e) => Err(e)
    case Ok(t) =>
      Behavior.MissingCellIffAnyMissing(t);
      if Behavior.AnyMissing(t) then Err(ValueError(MissingBehaviorValues)) else Ok(())
  }

  /** On a `.csv` path this check passes exactly when the printing check of the behaviour
      scripts reports clean data; where that one prints the missing-value message, this one raises. */
  lemma BehaviorChecksAgree(path: Path, contents: Result<Behavior.Table>)
    requires HasCsvSuffix(path)
    ensures CheckBehaviorInput(contents).Ok? <==> Behavior.CheckBehaviorInput(path, contents) == Ok(Behavior.DataOk)
    ensures contents.Ok? ==>
              (Behavior.CheckBehaviorInput(path, contents) == Ok(Behavior.ContainsMissing) <==>
               CheckBehaviorInput(contents) == Err(ValueError(MissingBehaviorValues)))
  {
    if contents.Ok? {
      var t := contents.value;
      Behavior.MissingCellIffAnyMissing(t);
      if Behavior.AnyMissing(t) {
        assert Behavior.CheckBehaviorInput(path, contents) == Ok(Behavior.ContainsMissing);
        assert CheckBehaviorInput(contents) == Err(ValueError(MissingBehaviorValues));
      } else {
        assert Behavior.CheckBehaviorInput(path, contents) == Ok(Behavior.DataOk);
        assert CheckBehaviorInput(contents) == Ok(());
      }
    }
  }

  /** The lines `check_brain_input` prints. */
  datatype ReportLine = FileMissing(subject: SubjectId, path: Path) | CheckDone

  function RowMissing(fs: set<Path>): Row -> bool
  {
    (row: Row) => row.path !in fs
  }

  function MissingLine(): Row -> ReportLine
  {
    (row: Row) => FileMissing(row.subject, row.path)
  }

  /** `check_brain_input(brain_file_path)`: one line per manifest row whose path does not
      exist, in row order, then the closing line. Only reading the manifest can raise. */
  method CheckBrainInput(manifest: Result<seq<Row>>, fs: set<Path>) returns (r: Result<()>, lines: seq<ReportLine>)
    ensures manifest.Err? ==> r == Err(manifest.error) && lines == []
    ensures manifest.Ok? ==>
              r == Ok(()) && lines == Map(Filter(manifest.value, RowMissing(fs)), MissingLine()) + [CheckDone]
  {
    if manifest.Err? {
      return Err(manifest.error), [];
    }
    var rows := manifest.value;
    lines := [];
    for i := 0 to |rows|
      invariant lines == Map(Filter(rows[..i], RowMissing(fs)), MissingLine())
    {
      var row := rows[i];
      assert rows[..i + 1] == rows[..i] + [row];
      FilterSnoc(rows[..i], row, RowMissing(fs));
      if row.path !in fs {
        MapSnoc(Filter(rows[..i], RowMissing(fs)), row, MissingLine());
        lines := lines + [FileMissing(row.subject, row.path)];
      }
    }
    assert rows[..|rows|] == rows;
    lines := lines + [CheckDone];
    r := Ok(());
  }

  /** A row is reported exactly when its path does not exist, and the report lists the
      missing rows in manifest order before its closing line. */
  lemma ReportNamesMissingRows(rows: seq<Row>, fs: set<Path>, row: Row)
    ensures var lines := Map(Filter(rows, RowMissing(fs)), MissingLine()) + [CheckDone];
            && |lines| == |Filter(rows, RowMissing(fs))| + 1
            && lines[|lines| - 1] == CheckDone
            && (FileMissing(row.subject, row.path) in lines <==> row in rows && row.path !in fs)
  {
    FilterMembership(rows, RowMissing(fs), row);
    LineIffListed(Filter(rows, RowMissing(fs)), row);
  }

  /** The report names a row exactly when the row is among those it lists. */
  lemma LineIffListed(missing: seq<Row>, row: Row)
    ensures FileMissing(row.subject, row.path) in Map(missing, MissingLine()) + [CheckDone] <==> row in missing
  {
    var lines := Map(missing, MissingLine()) + [CheckDone];
    if FileMissing(row.subject, row.path) in lines {
      var k :| 0 <= k < |lines| && lines[k] == FileMissing(row.subject, row.path);
      assert k < |missing|;
      assert missing[k] == row;
    }
    if row in missing {
      var k :| 0 <= k < |missing| && missing[k] == row;
      assert lines[k] == FileMissing(row.subject, row.path);
    }
  }

  /** Which branch of the suffix dispatch a path takes; the tests run in this order. */
  datatype Kind = Volume | SurfaceArray | DenseScalar | Unmatched

  function KindOf(path: Path): Kind
  {
    if EndsWith(path, ".nii.gz") || EndsWith(path, ".nii") then Volume
    else if EndsWith(path, ".func.gii") || EndsWith(path, ".shape.gii") then SurfaceArray
    else if EndsWith(path, ".dscalar.nii") then DenseScalar
    else Unmatched
  }

  /** A `.dscalar.nii` path already ends in `.nii`, so the CIFTI branch is never taken. */
  lemma DenseScalarUnreachable(path: Path)
    ensures KindOf(path) != DenseScalar
    ensures EndsWith(path, ".dscalar.nii") ==> KindOf(path) == Volume
  {
    if EndsWith(path, ".dscalar.nii") {
      assert EndsWith(".dscalar.nii", ".nii");
      EndsWithTrans(path, ".dscalar.nii", ".nii");
    }
  }

  /** The data a matched path's branch loads: `get_fdata()`, or the values of the first GIFTI
      data array (its `.data`). */
  function LoadOwn(path: Path, files: FileStore): Result<NdArray>
    requires KindOf(path) != Unmatched
  {
    if path !in files then Err(FileNotFoundError(path))
    else if KindOf(path) == SurfaceArray then
      if files[path].darrays == [] then Err(IndexError)
      else Ok(NdArray([|files[path].darrays[0]|], files[path].darrays[0]))
    else Ok(files[path].fdata)
  }

  /** The two readings of the loop body. `AsWritten` is the script: line 59 keeps the GIFTI
      data array object itself, which has no `ndim`, so line 63 raises `AttributeError`; and a
      path matching no suffix assigns nothing, so the previous row's value is kept and on the
      first row the name is unbound. `Corrected` takes the array's `.data`, as
      check_brain_data.py does, and refuses an unmatched path, as the other loaders refuse
      unsupported formats. */
  datatype Version = AsWritten | Corrected

  /** The value `brain_data` holds when line 63 has read its `ndim`, or the error raised so far. */
  function Read(path: Path, files: FileStore, previous: Option<NdArray>, version: Version): Result<NdArray>
  {
    if KindOf(path) == SurfaceArray && version == AsWritten && LoadOwn(path, files).Ok? then
      Err(AttributeError("ndim"))
    else if KindOf(path) != Unmatched then LoadOwn(path, files)
    else if version == Corrected then Err(ValueError(UnsupportedFormat(path)))
    else if previous.None? then Err(UnboundLocalError("brain_data"))
    else Ok(previous.value)
  }

  /** `if brain_data.ndim >= 2: brain_data = brain_data.reshape(-1)`. */
  function Flatten(a: NdArray): (r: NdArray)
    ensures |r.shape| <= 1 && r.data == a.data
  {
    if |a.shape| >= 2 then Ravel(a) else a
  }

  function LastOf(s: seq<NdArray>): Option<NdArray>
  {
    if s == [] then None else Some(s[|s| - 1])
  }

  /** The loop over the manifest rows: what is appended, stopping at the first error. */
  function Collect(rows: seq<Row>, files: FileStore, version: Version): Result<seq<NdArray>>
    decreases |rows|
  {
    if rows == [] then Ok([])
    else
      var prev := Collect(rows[..|rows| - 1], files, version);
      if prev.Err? then prev
      else
        var one := Read(rows[|rows| - 1].path, files, LastOf(prev.value), version);
        if one.Err? then Err(one.error) else Ok(prev.value + [Flatten(one.value)])
  }

  /** The matrix the function saves. */
  function Concatenated(manifest: Result<seq<Row>>, files: FileStore, version: Version): Result<NdArray>
  {
    if manifest.Err? then Err(manifest.error)
    else
      var all := Collect(manifest.value, files, version);
      if all.Err? then Err(all.error) else VStack(all.value)
  }

  /** The suffix dispatch of one loop iteration and the `ndim` read of line 63: what
      `brain_data` holds then, or the error raised. */
  method LoadBranch(path: Path, files: FileStore, brainData: Option<NdArray>, version: Version)
    returns (loaded: Result<NdArray>)
    ensures KindOf(path) == Volume || KindOf(path) == DenseScalar ==> loaded == LoadOwn(path, files)
    ensures KindOf(path) == SurfaceArray && (version == Corrected || LoadOwn(path, files).Err?) ==>
              loaded == LoadOwn(path, files)
    ensures KindOf(path) == SurfaceArray && version == AsWritten && LoadOwn(path, files).Ok? ==>
              loaded == Err(AttributeError("ndim"))
    ensures KindOf(path) == Unmatched && version == Corrected ==> loaded == Err(ValueError(UnsupportedFormat(path)))
    ensures KindOf(path) == Unmatched && version == AsWritten && brainData.None? ==>
              loaded == Err(UnboundLocalError("brain_data"))
    ensures KindOf(path) == Unmatched && version == AsWritten && brainData.Some? ==> loaded == Ok(brainData.value)
  {
    if EndsWith(path, ".nii.gz") || EndsWith(path, ".nii") {
      loaded := if path in files then Ok(files[path].fdata) else Err(FileNotFoundError(path));
    } else if EndsWith(path, ".func.gii") || EndsWith(path, ".shape.gii") {
      if path !in files {
        loaded := Err(FileNotFoundError(path));
      } else if files[path].darrays == [] {
        loaded := Err(IndexError);
      } else if version == AsWritten {
        loaded := Err(AttributeError("ndim"));
      } else {
        var first := files[path].darrays[0];
        loaded := Ok(NdArray([|first|], first));
      }
    } else if EndsWith(path, ".dscalar.nii") {
      loaded := if path in files then Ok(files[path].fdata) else Err(FileNotFoundError(path));
    } else if version == Corrected {
      loaded := Err(ValueError(UnsupportedFormat(path)));
    } else if brainData.None? {
      loaded := Err(UnboundLocalError("brain_data"));
    } else {
      loaded := Ok(brainData.value);
    }
  }

  /** `concatenate_brain_input(brain_file_path, output_file_path)`; `r` is the matrix passed
      to `np.save` (or the error raised), and `AsWritten` is the script's behaviour. */
  method ConcatenateBrainInput(manifest: Result<seq<Row>>, files: FileStore, version: Version)
    returns (r: Result<NdArray>)
    ensures r == Concatenated(manifest, files, version)
  {
    if manifest.Err? {
      return Err(manifest.error);
    }
    var rows := manifest.value;
    var allSubjectData: seq<NdArray> := [];
    var brainData: Option<NdArray> := None;
    for i := 0 to |rows|
      invariant Collect(rows[..i], files, version) == Ok(allSubjectData)
      invariant brainData == LastOf(allSubjectData)
    {
      var path := rows[i].path;
      CollectStep(rows, i, files, version);
      var loaded := LoadBranch(path, files, brainData, version);
      assert loaded == Read(path, files, brainData, version);
      if loaded.Err? {
        StopsAtRow(rows, i, files, version);
        return Err(loaded.error);
      }
      var data := loaded.value;
      if |data.shape| >= 2 {
        data := Ravel(data);
      }
      assert data == Flatten(loaded.value);
      assert Collect(rows[..i + 1], files, version) == Ok(allSubjectData + [data]);
      brainData := Some(data);
      allSubjectData := allSubjectData + [data];
    }
    assert rows[..|rows|] == rows;
    r := VStack(allSubjectData);
  }

  /** One more row: the loop over `rows[..i + 1]` is the loop over `rows[..i]` and one iteration. */
  lemma CollectStep(rows: seq<Row>, i: nat, files: FileStore, version: Version)
    requires i < |rows|
    ensures Collect(rows[..i], files, version).Err? ==>
              Collect(rows[..i + 1], files, version) == Collect(rows[..i], files, version)
    ensures Collect(rows[..i], files, version).Ok? ==>
              var prev := Collect(rows[..i], files, version).value;
              var one := Read(rows[i].path, files, LastOf(prev), version);
              Collect(rows[..i + 1], files, version) ==
                if one.Err? then Err(one.error) else Ok(prev + [Flatten(one.value)])
  {
    assert rows[..i + 1][..i] == rows[..i];
  }

  /** A row whose iteration fails decides the whole run: its error is the result. */
  lemma StopsAtRow(rows: seq<Row>, i: nat, files: FileStore, version: Version)
    requires i < |rows| && Collect(rows[..i + 1], files, version).Err?
    ensures Concatenated(Ok(rows), files, version) == Err(Collect(rows[..i + 1], files, version).error)
  {
    CollectStops(rows, i + 1, files, version);
  }

  lemma {:induction false} CollectStops(rows: seq<Row>, j: nat, files: FileStore, version: Version)
    requires 0 < j <= |rows|
    requires Collect(rows[..j], files, version).Err?
    ensures Collect(rows, files, version) == Collect(rows[..j], files, version)
    decreases |rows| - j
  {
    if j == |rows| {
      assert rows[..j] == rows;
    } else {
      var init := rows[..|rows| - 1];
      assert init[..j] == rows[..j];
      CollectStops(init, j, files, version);
    }
  }

  /** As written: a path that matches no suffix is stacked with the previous subject's data. */
  lemma StaleDataScenario(a: FileImage)
    requires |a.fdata.shape| == 1
    ensures var rows := [Row(1, "a.nii"), Row(2, "b.txt")];
            var files := map["a.nii" := a];
            Collect(rows, files, AsWritten) == Ok([a.fdata, a.fdata])
  {
    var rows := [Row(1, "a.nii"), Row(2, "b.txt")];
    var files := map["a.nii" := a];
    assert KindOf("a.nii") == Volume;
    assert KindOf("b.txt") == Unmatched;
    assert rows[..1] == [Row(1, "a.nii")] && rows[..1][..0] == [];
    assert Flatten(a.fdata) == a.fdata;
    assert Read("a.nii", files, None, AsWritten) == Ok(a.fdata);
    var first: seq<Row> := [Row(1, "a.nii")];
    assert first[..0] == [] && first[0].path == "a.nii";
    assert Collect([], files, AsWritten) == Ok([]);
    assert LastOf([]) == None;
    assert Collect(first, files, AsWritten) == Ok([] + [Flatten(a.fdata)]);
    assert rows[..1] == first;
    assert [] + [Flatten(a.fdata)] == [a.fdata];
    assert Collect(rows[..|rows| - 1], files, AsWritten) == Ok([a.fdata]);
    assert rows[|rows| - 1].path == "b.txt";
    assert LastOf([a.fdata]) == Some(a.fdata);
    assert Collect(rows, files, AsWritten) == Ok([a.fdata] + [Flatten(a.fdata)]);
    assert [a.fdata] + [Flatten(a.fdata)] == [a.fdata, a.fdata];
    assert Read("b.txt", files, Some(a.fdata), AsWritten) == Ok(a.fdata);
  }

  /** As written: when the first path matches no suffix, `brain_data` is unbound. */
  lemma UnboundOnFirstRow(rows: seq<Row>, files: FileStore)
    requires rows != [] && KindOf(rows[0].path) == Unmatched
    ensures Concatenated(Ok(rows), files, AsWritten) == Err(UnboundLocalError("brain_data"))
  {
    assert rows[..1][..0] == [];
    assert Collect(rows[..1], files, AsWritten) == Err(UnboundLocalError("brain_data"));
    CollectStops(rows, 1, files, AsWritten);
  }

  /** When every path is a NIfTI or CIFTI file, the script and the corrected reading are the
      same function. */
  lemma {:induction false} VersionsAgreeOnVolumes(rows: seq<Row>, files: FileStore)
    requires forall i :: 0 <= i < |rows| ==> KindOf(rows[i].path) == Volume
    ensures Collect(rows, files, AsWritten) == Collect(rows, files, Corrected)
    decreases |rows|
  {
    if rows != [] {
      var init := rows[..|rows| - 1];
      forall i | 0 <= i < |init| ensures KindOf(init[i].path) == Volume {
        assert init[i] == rows[i];
      }
      VersionsAgreeOnVolumes(init, files);
    }
  }

  /** Rejecting unmatched paths, a read that succeeds is the row's own file. */
  lemma CorrectedReadsOwn(path: Path, files: FileStore, previous: Option<NdArray>)
    requires Read(path, files, previous, Corrected).Ok?
    ensures KindOf(path) != Unmatched && Read(path, files, previous, Corrected) == LoadOwn(path, files)
  {
  }

  /** `entry` is what the loop appends for `row` from its own file. */
  predicate OwnEntry(row: Row, files: FileStore, entry: NdArray)
  {
    KindOf(row.path) != Unmatched && LoadOwn(row.path, files).Ok? && entry == Flatten(LoadOwn(row.path, files).value)
  }

  /** Corrected: rejecting unmatched paths, a successful loop has one entry per manifest row,
      and entry `i` is row `i`'s own file, flattened. */
  lemma {:induction false} CorrectedKeepsOwnData(rows: seq<Row>, files: FileStore)
    requires Collect(rows, files, Corrected).Ok?
    ensures var all := Collect(rows, files, Corrected).value;
            && |all| == |rows|
            && forall i :: 0 <= i < |rows| ==> OwnEntry(rows[i], files, all[i])
    decreases |rows|
  {
    if rows != [] {
      var init, last := rows[..|rows| - 1], rows[|rows| - 1];
      var entry := CorrectedStep(rows, files);
      CorrectedKeepsOwnData(init, files);
      assert rows == init + [last];
      OwnEntriesSnoc(init, last, Collect(init, files, Corrected).value, entry, files);
    }
  }

  /** The last iteration of a successful loop that rejects unmatched paths appends the last
      row's own entry. */
  lemma CorrectedStep(rows: seq<Row>, files: FileStore) returns (entry: NdArray)
    requires rows != [] && Collect(rows, files, Corrected).Ok?
    ensures Collect(rows[..|rows| - 1], files, Corrected).Ok?
    ensures Collect(rows, files, Corrected).value == Collect(rows[..|rows| - 1], files, Corrected).value + [entry]
    ensures OwnEntry(rows[|rows| - 1], files, entry)
  {
    var prev := Collect(rows[..|rows| - 1], files, Corrected);
    var last := rows[|rows| - 1];
    CorrectedReadsOwn(last.path, files, LastOf(prev.value));
    entry := Flatten(Read(last.path, files, LastOf(prev.value), Corrected).value);
  }

  lemma OwnEntriesSnoc(init: seq<Row>, last: Row, entries: seq<NdArray>, entry: NdArray, files: FileStore)
    requires |entries| == |init| && forall i :: 0 <= i < |init| ==> OwnEntry(init[i], files, entries[i])
    requires OwnEntry(last, files, entry)
    ensures forall i :: 0 <= i < |init| + 1 ==> OwnEntry((init + [last])[i], files, (entries + [entry])[i])
  {
    forall i | 0 <= i < |init| + 1 ensures OwnEntry((init + [last])[i], files, (entries + [entry])[i]) {
      if i < |init| {
        assert (init + [last])[i] == init[i] && (entries + [entry])[i] == entries[i];
      }
    }
  }

  /** `a` holds `k` values in a well-formed array of at least one dimension. */
  predicate HoldsValues(a: NdArray, k: nat)
  {
    WellFormed(a) && |a.shape| >= 1 && |a.data| == k
  }

  /** Corrected: when every row's own data, `get_fdata()` or the first GIFTI data array's
      values, holds `k` values, the saved matrix is `n` by `k` and row `i` is the data of
      manifest row `i`. Only the files the manifest names are constrained. */
  lemma ManifestRowsStack(rows: seq<Row>, files: FileStore, k: nat)
    requires rows != []
    requires Collect(rows, files, Corrected).Ok?
    requires forall i :: 0 <= i < |rows| && KindOf(rows[i].path) != Unmatched && LoadOwn(rows[i].path, files).Ok? ==>
               HoldsValues(LoadOwn(rows[i].path, files).value, k)
    ensures Concatenated(Ok(rows), files, Corrected).Ok?
    ensures Concatenated(Ok(rows), files, Corrected).value.shape == [|rows|, k]
    ensures forall i :: 0 <= i < |rows| ==>
              && KindOf(rows[i].path) != Unmatched && LoadOwn(rows[i].path, files).Ok?
              && BlockIs(Concatenated(Ok(rows), files, Corrected).value.data, i, k,
                         LoadOwn(rows[i].path, files).value.data)
  {
    CorrectedKeepsOwnData(rows, files);
    var all := Collect(rows, files, Corrected).value;
    forall i | 0 <= i < |all| ensures all[i].shape == [k] && |all[i].data| == k {
      var a := LoadOwn(rows[i].path, files).value;
      OneDimensionalAfterFlatten(a, k);
    }
    VStackRows(all, k);
    forall i | 0 <= i < |rows| ensures BlockIs(Flat(all), i, k, all[i].data) {
      FlatBlock(all, k, i);
    }
  }

  /** As written: a GIFTI row whose first data array loads raises `AttributeError` at line 63
      once the rows before it have succeeded, and a manifest with any GIFTI row never yields
      a matrix. */
  lemma GiftiRowRaises(rows: seq<Row>, files: FileStore, i: nat)
    requires i < |rows| && KindOf(rows[i].path) == SurfaceArray
    ensures Concatenated(Ok(rows), files, AsWritten).Err?
    ensures Collect(rows[..i], files, AsWritten).Ok? && LoadOwn(rows[i].path, files).Ok? ==>
              Concatenated(Ok(rows), files, AsWritten) == Err(AttributeError("ndim"))
  {
    CollectStep(rows, i, files, AsWritten);
    StopsAtRow(rows, i, files, AsWritten);
  }

  /** A well-formed array of `k` values with at least one dimension flattens to shape `[k]`. */
  lemma OneDimensionalAfterFlatten(a: NdArray, k: nat)
    requires HoldsValues(a, k)
    ensures Flatten(a).shape == [k] && |Flatten(a).data| == k
  {
    if |a.shape| == 1 {
      assert Product(a.shape) == a.shape[0] * Product([]);
    }
  }
}
