/** `concatenate_brain_input` of check_read_brain_data_241114.py: every present subject's
    file, taken from its first manifest row, loaded as is and stacked vertically. */
module ReadBrainData {
  import opened Common
  import opened NdArrays
  import opened Manifest

  /** One iteration: `iloc[0]` on an empty selection raises `IndexError`, `nib.load` of a
      missing path raises `FileNotFoundError`. */
  function Fetch(s: SubjectId, rows: seq<Row>, files: FileStore): Result<NdArray>
  {
    match FirstPath(rows, s)
    case None => Err(IndexError)
    case Some(p) => if p in files then Ok(files[p].fdata) else Err(FileNotFoundError(p))
  }

  /** The loop over `xs`, stopping at the first failure. */
  function FetchAll(xs: seq<SubjectId>, rows: seq<Row>, files: FileStore): Result<seq<NdArray>>
    decreases |xs|
  {
    if xs == [] then Ok([])
    else
      var prev := FetchAll(xs[..|xs| - 1], rows, files);
      if prev.Err? then prev
      else
        var one := Fetch(xs[|xs| - 1], rows, files);
        if one.Err? then Err(one.error) else Ok(prev.value + [one.value])
  }

  /** The function's result. */
  function Stacked(exist: seq<SubjectId>, rows: seq<Row>, files: FileStore): Result<NdArray>
  {
    var loaded := FetchAll(exist, rows, files);
    if loaded.Err? then Err(loaded.error) else VStack(loaded.value)
  }

  /** `concatenate_brain_input(exist_subject, all_subject_brain_file_path)` for the manifest
      as read, whose read error is raised as is, and the files in `files`. */
  method ConcatenateBrainInput(exist: seq<SubjectId>, manifest: Result<seq<Row>>, files: FileStore) returns (r: Result<NdArray>)
    ensures manifest.Err? ==> r == Err(manifest.error)
    ensures manifest.Ok? ==> r == Stacked(exist, manifest.value, files)
  {
    if manifest.Err? {
      return Err(manifest.error);
    }
    var rows := manifest.value;
    var concatenated: seq<NdArray> := [];
    for i := 0 to |exist|
      invariant FetchAll(exist[..i], rows, files) == Ok(concatenated)
    {
      var subject := exist[i];
      assert exist[..i + 1][..i] == exist[..i];
      var path := FirstPath(rows, subject);
      if path.None? {
        FetchAllStops(exist, i + 1, rows, files);
        return Err(IndexError);
      }
      if path.value !in files {
        FetchAllStops(exist, i + 1, rows, files);
        return Err(FileNotFoundError(path.value));
      }
      concatenated := concatenated + [files[path.value].fdata];
    }
    assert exist[..|exist|] == exist;
    r := VStack(concatenated);
  }

  lemma {:induction false} FetchAllStops(xs: seq<SubjectId>, j: nat, rows: seq<Row>, files: FileStore)
    requires 0 < j <= |xs|
    requires FetchAll(xs[..j], rows, files).Err?
    ensures FetchAll(xs, rows, files) == FetchAll(xs[..j], rows, files)
    decreases |xs| - j
  {
    if j == |xs| {
      assert xs[..j] == xs;
    } else {
      var init := xs[..|xs| - 1];
      assert init[..j] == xs[..j];
      FetchAllStops(init, j, rows, files);
    }
  }

  /** The error raised is that of the first subject that cannot be loaded. */
  lemma {:induction false} FirstFailureWins(xs: seq<SubjectId>, rows: seq<Row>, files: FileStore, j: nat)
    requires j < |xs|
    requires forall i :: 0 <= i < j ==> Fetch(xs[i], rows, files).Ok?
    requires Fetch(xs[j], rows, files).Err?
    ensures FetchAll(xs, rows, files) == Err(Fetch(xs[j], rows, files).error)
    decreases |xs|
  {
    var init := xs[..|xs| - 1];
    if j < |xs| - 1 {
      forall i | 0 <= i <= j ensures init[i] == xs[i] { }
      FirstFailureWins(init, rows, files, j);
    } else {
      forall i | 0 <= i < |init| ensures Fetch(init[i], rows, files).Ok? {
        assert init[i] == xs[i];
      }
      FetchAllSucceeds(init, rows, files);
    }
  }

  /** When every subject can be loaded, the loop yields each subject's array in order. */
  lemma {:induction false} FetchAllSucceeds(xs: seq<SubjectId>, rows: seq<Row>, files: FileStore)
    requires forall i :: 0 <= i < |xs| ==> Fetch(xs[i], rows, files).Ok?
    ensures FetchAll(xs, rows, files).Ok?
    ensures |FetchAll(xs, rows, files).value| == |xs|
    ensures forall i :: 0 <= i < |xs| ==> FetchAll(xs, rows, files).value[i] == Fetch(xs[i], rows, files).value
    decreases |xs|
  {
    if xs != [] {
      var init := xs[..|xs| - 1];
      forall i | 0 <= i < |init| ensures init[i] == xs[i] { }
      FetchAllSucceeds(init, rows, files);
    }
  }

  /** When every subject's first-row file holds a vector of length `k` (one-dimensional, or
      one row as a CIFTI scalar map has), the result is an `n` by `k` matrix whose row `i`
      is the vector of subject `exist[i]`. Only the files the loop opens are constrained. */
  lemma RowsFollowExist(exist: seq<SubjectId>, rows: seq<Row>, files: FileStore, k: nat)
    requires exist != []
    requires forall i :: 0 <= i < |exist| ==> Fetch(exist[i], rows, files).Ok?
    requires forall i :: 0 <= i < |exist| ==> IsRowVector(Fetch(exist[i], rows, files).value, k)
    ensures Stacked(exist, rows, files).Ok?
    ensures Stacked(exist, rows, files).value.shape == [|exist|, k]
    ensures forall i :: 0 <= i < |exist| ==>
              BlockIs(Stacked(exist, rows, files).value.data, i, k, Fetch(exist[i], rows, files).value.data)
  {
    FetchAllSucceeds(exist, rows, files);
    var arrs := FetchAll(exist, rows, files).value;
    forall i | 0 <= i < |arrs| ensures (arrs[i].shape == [k] || arrs[i].shape == [1, k]) && |arrs[i].data| == k {
      RowVectorLength(arrs[i], k);
    }
    VStackRows(arrs, k);
    forall i | 0 <= i < |exist| ensures BlockIs(Flat(arrs), i, k, arrs[i].data) {
      FlatBlock(arrs, k, i);
    }
  }
}
