/** `transform_analysis_level` of prepare_input_data.py: a subjects-by-vertices matrix reduced
    to one mean per atlas region, the regions being the distinct positive atlas labels in
    ascending order. */
module RoiLevel {
  import opened Common
  import opened Seqs
  import opened PathStrings
  import opened NdArrays

  predicate Increasing(r: seq<real>)
  {
    forall i, j :: 0 <= i < j < |r| ==> r[i] < r[j]
  }

  /** `x` put in its place in an ascending sequence, unless it is there already. */
  function Insert(r: seq<real>, x: real): (t: seq<real>)
    requires Increasing(r)
    ensures Increasing(t)
    ensures forall y :: y in t <==> y in r || y == x
    decreases |r|
  {
    if r == [] then [x]
    else if x < r[0] then [x] + r
    else if x == r[0] then r
    else
      var rest := Insert(r[1..], x);
      TailAbove(r, x, rest);
      ConsIncreasing(r[0], rest);
      assert r == [r[0]] + r[1..];
      [r[0]] + rest
  }

  /** What `Insert` puts after the head of `r` lies above that head. */
  lemma TailAbove(r: seq<real>, x: real, rest: seq<real>)
    requires Increasing(r) && r != [] && r[0] < x
    requires forall y :: y in rest <==> y in r[1..] || y == x
    ensures forall y :: y in rest ==> r[0] < y
  {
    forall y | y in rest ensures r[0] < y {
      if y != x {
        var k :| 0 <= k < |r[1..]| && r[1..][k] == y;
        assert r[k + 1] == y;
      }
    }
  }

  /** A value below every element of an ascending sequence can head it. */
  lemma ConsIncreasing(a: real, rest: seq<real>)
    requires Increasing(rest)
    requires forall y :: y in rest ==> a < y
    ensures Increasing([a] + rest)
  {
    var t := [a] + rest;
    forall i, j | 0 <= i < j < |t| ensures t[i] < t[j] {
      assert t[j] == rest[j - 1] && rest[j - 1] in rest;
      if i > 0 {
        assert t[i] == rest[i - 1];
      }
    }
  }

  /** `np.unique(roi_labels)`: the distinct labels, each once, ascending. */
  function Unique(labels: seq<real>): (r: seq<real>)
    ensures Increasing(r)
    ensures forall x :: x in r <==> x in labels
    decreases |labels|
  {
    if labels == [] then []
    else
      var init := labels[..|labels| - 1];
      var r := Insert(Unique(init), labels[|labels| - 1]);
      assert labels == init + [labels[|labels| - 1]];
      r
  }

  function IsPositive(): real -> bool
  {
    x => x > 0.0
  }

  /** `unique_rois[unique_rois > 0]`: the regions, background and negative labels dropped. */
  function Rois(labels: seq<real>): seq<real>
  {
    Filter(Unique(labels), IsPositive())
  }

  /** The regions are exactly the positive labels of the atlas, each once, ascending. */
  lemma RoisArePositiveLabels(labels: seq<real>)
    ensures forall x :: x in Rois(labels) <==> x in labels && x > 0.0
    ensures forall i, j :: 0 <= i < j < |Rois(labels)| ==> Rois(labels)[i] < Rois(labels)[j]
  {
    var u := Unique(labels);
    var r := Rois(labels);
    forall x ensures x in r <==> x in labels && x > 0.0 {
      FilterMembership(u, IsPositive(), x);
    }
    FilterKeepsOrder(u, IsPositive());
    var idx := FilterIndices(u, IsPositive());
    forall i, j | 0 <= i < j < |r| ensures r[i] < r[j] {
      assert r[i] == u[idx[i]] && r[j] == u[idx[j]];
    }
  }

  function IsLabel(roi: real): real -> bool
  {
    x => x == roi
  }

  /** `np.where(roi_labels == roi)[0]`. */
  function Where(labels: seq<real>, roi: real): seq<nat>
  {
    FilterIndices(labels, IsLabel(roi))
  }

  /** The selected vertices are, in ascending order, exactly those carrying the label. */
  lemma WhereSelectsLabel(labels: seq<real>, roi: real)
    ensures forall k :: 0 <= k < |Where(labels, roi)| ==>
              Where(labels, roi)[k] < |labels| && labels[Where(labels, roi)[k]] == roi
    ensures forall v :: 0 <= v < |labels| && labels[v] == roi ==> v in Where(labels, roi)
    ensures forall k, l :: 0 <= k < l < |Where(labels, roi)| ==> Where(labels, roi)[k] < Where(labels, roi)[l]
  {
    var f := Filter(labels, IsLabel(roi));
    FilterKeepsOrder(labels, IsLabel(roi));
    forall k | 0 <= k < |f| ensures f[k] == roi {
      assert f[k] in f;
      FilterMembership(labels, IsLabel(roi), f[k]);
    }
  }

  /** Indexing the columns `Where(labels, roi)` of a matrix `width` columns wide succeeds. */
  predicate InRange(labels: seq<real>, roi: real, width: nat)
  {
    forall v :: 0 <= v < |labels| && labels[v] == roi ==> v < width
  }

  /** Some region indexes past the matrix' columns. */
  predicate OutOfRange(labels: seq<real>, width: nat)
  {
    exists j :: 0 <= j < |Rois(labels)| && !InRange(labels, Rois(labels)[j], width)
  }

  /** numpy raises `IndexError` exactly when some vertex beyond the matrix' width carries a positive label. */
  lemma OutOfRangeIffPositiveBeyondWidth(labels: seq<real>, width: nat)
    ensures OutOfRange(labels, width) <==> exists v :: width <= v < |labels| && labels[v] > 0.0
  {
    RoisArePositiveLabels(labels);
    var r := Rois(labels);
    if OutOfRange(labels, width) {
      var j :| 0 <= j < |r| && !InRange(labels, r[j], width);
      var v :| 0 <= v < |labels| && labels[v] == r[j] && v >= width;
      assert r[j] in r;
      assert labels[v] > 0.0;
    }
    if exists v :: width <= v < |labels| && labels[v] > 0.0 {
      var v :| width <= v < |labels| && labels[v] > 0.0;
      assert labels[v] in labels;
      var j :| 0 <= j < |r| && r[j] == labels[v];
      assert !InRange(labels, r[j], width);
    }
  }

  /** The sum of `row` over the positions `idx`. */
  function SumAt(row: seq<real>, idx: seq<nat>): real
    requires forall k :: 0 <= k < |idx| ==> idx[k] < |row|
    decreases |idx|
  {
    if idx == [] then 0.0 else SumAt(row, idx[..|idx| - 1]) + row[idx[|idx| - 1]]
  }

  /** `brain_data[s, roi_indices].mean()` for one subject's row: the average over the
      vertices carrying the label. */
  function RegionMean(row: seq<real>, labels: seq<real>, roi: real): real
    requires roi in labels && InRange(labels, roi, |row|)
  {
    WhereSelectsLabel(labels, roi);
    WhereNonEmpty(labels, roi);
    SumAt(row, Where(labels, roi)) / (|Where(labels, roi)| as real)
  }

  /** A label that occurs selects at least one vertex: no region's mean is over nothing. */
  lemma WhereNonEmpty(labels: seq<real>, roi: real)
    requires roi in labels
    ensures |Where(labels, roi)| > 0
  {
    WhereSelectsLabel(labels, roi);
    var v :| 0 <= v < |labels| && labels[v] == roi;
    assert v in Where(labels, roi);
  }

  lemma {:induction false} SumAtBounds(row: seq<real>, idx: seq<nat>, lo: real, hi: real)
    requires forall k :: 0 <= k < |idx| ==> idx[k] < |row| && lo <= row[idx[k]] <= hi
    ensures (|idx| as real) * lo <= SumAt(row, idx) <= (|idx| as real) * hi
    decreases |idx|
  {
    if idx != [] {
      var init := idx[..|idx| - 1];
      assert forall k :: 0 <= k < |init| ==> init[k] == idx[k];
      SumAtBounds(row, init, lo, hi);
    }
  }

  /** A region's mean lies between the least and the greatest value on its vertices. */
  lemma RegionMeanBounds(row: seq<real>, labels: seq<real>, roi: real, lo: real, hi: real)
    requires roi in labels && InRange(labels, roi, |row|)
    requires forall v :: 0 <= v < |labels| && labels[v] == roi ==> lo <= row[v] <= hi
    ensures lo <= RegionMean(row, labels, roi) <= hi
  {
    WhereSelectsLabel(labels, roi);
    WhereNonEmpty(labels, roi);
    var idx := Where(labels, roi);
    forall k | 0 <= k < |idx| ensures idx[k] < |row| && lo <= row[idx[k]] <= hi {
      assert labels[idx[k]] == roi;
    }
    MeanOverBounds(row, idx, lo, hi);
  }

  /** The average of values between `lo` and `hi` lies between them. */
  lemma MeanOverBounds(row: seq<real>, idx: seq<nat>, lo: real, hi: real)
    requires |idx| > 0
    requires forall k :: 0 <= k < |idx| ==> idx[k] < |row| && lo <= row[idx[k]] <= hi
    ensures lo <= SumAt(row, idx) / (|idx| as real) <= hi
  {
    SumAtBounds(row, idx, lo, hi);
    MeanOf(SumAt(row, idx), |idx|, lo, hi);
  }

  /** A sum of `n` values between `lo` and `hi`, divided by `n`, lies between them. */
  lemma MeanOf(sum: real, n: nat, lo: real, hi: real)
    requires n > 0 && (n as real) * lo <= sum <= (n as real) * hi
    ensures lo <= sum / (n as real) <= hi
  {
    DivBounds(sum, n as real, lo, hi);
  }

  lemma DivBounds(s: real, c: real, lo: real, hi: real)
    requires c > 0.0 && c * lo <= s <= c * hi
    ensures lo <= s / c <= hi
  {
    var q := s / c;
    assert q * c == s;
    assert (q - lo) * c == s - c * lo;
    assert (hi - q) * c == c * hi - s;
  }

  /** A region whose vertices all hold the same value has that value as its mean. */
  lemma UniformRegionMean(row: seq<real>, labels: seq<real>, roi: real, c: real)
    requires roi in labels && InRange(labels, roi, |row|)
    requires forall v :: 0 <= v < |labels| && labels[v] == roi ==> row[v] == c
    ensures RegionMean(row, labels, roi) == c
  {
    RegionMeanBounds(row, labels, roi, c, c);
  }

  /** `f"ROI_{int(roi)}"`: `int` truncates, which for a positive label is its floor. */
  function ColumnName(roi: real): string
    requires roi > 0.0
  {
    "ROI_" + NatToString(roi.Floor)
  }

  predicate AllPositive(rois: seq<real>)
  {
    forall j :: 0 <= j < |rois| ==> rois[j] > 0.0
  }

  function ColumnNames(rois: seq<real>): (r: seq<string>)
    requires AllPositive(rois)
    ensures |r| == |rois|
    ensures forall j :: 0 <= j < |rois| ==> r[j] == ColumnName(rois[j])
  {
    seq(|rois|, j requires 0 <= j < |rois| => ColumnName(rois[j]))
  }

  predicate Integral(x: real)
  {
    x.Floor as real == x
  }

  /** For an atlas of whole-number labels, the column names are pairwise different, one per region. */
  lemma ColumnNamesDistinct(labels: seq<real>)
    requires forall v :: 0 <= v < |labels| ==> Integral(labels[v])
    ensures AllPositive(Rois(labels))
    ensures forall i, j :: 0 <= i < j < |Rois(labels)| ==>
              ColumnNames(Rois(labels))[i] != ColumnNames(Rois(labels))[j]
  {
    RoisArePositiveLabels(labels);
    var r := Rois(labels);
    assert forall j :: 0 <= j < |r| ==> r[j] in r;
    forall i, j | 0 <= i < j < |r| ensures ColumnName(r[i]) != ColumnName(r[j]) {
      assert r[i] in r && r[j] in r;
      assert Integral(r[i]) && Integral(r[j]);
      assert r[i].Floor != r[j].Floor;
      if ColumnName(r[i]) == ColumnName(r[j]) {
        var a, b := NatToString(r[i].Floor), NatToString(r[j].Floor);
        assert ("ROI_" + a)[4..] == a;
        assert ("ROI_" + b)[4..] == b;
        NatToStringInjective(r[i].Floor, r[j].Floor);
      }
    }
  }

  /** Every region is a positive label of the atlas. */
  lemma RoisAreLabels(labels: seq<real>)
    ensures AllPositive(Rois(labels))
    ensures forall j :: 0 <= j < |Rois(labels)| ==> Rois(labels)[j] in labels
  {
    RoisArePositiveLabels(labels);
    var r := Rois(labels);
    forall j | 0 <= j < |r| ensures r[j] > 0.0 && r[j] in labels {
      assert r[j] in r;
    }
  }

  /** Some selected column lies past a matrix `width` columns wide. */
  predicate Overruns(idx: seq<nat>, width: nat)
  {
    exists k :: 0 <= k < |idx| && idx[k] >= width
  }

  lemma OverrunsIffNotInRange(labels: seq<real>, roi: real, width: nat)
    ensures Overruns(Where(labels, roi), width) <==> !InRange(labels, roi, width)
  {
    WhereSelectsLabel(labels, roi);
    var idx := Where(labels, roi);
    if Overruns(idx, width) {
      var k :| 0 <= k < |idx| && idx[k] >= width;
      assert labels[idx[k]] == roi;
    }
    if !InRange(labels, roi, width) {
      var v :| 0 <= v < |labels| && labels[v] == roi && v >= width;
      assert v in idx;
      var k :| 0 <= k < |idx| && idx[k] == v;
    }
  }

  /** `values` is the `len(brain)` by `len(rois)` matrix whose entry `(s, j)` is subject
      `s`'s mean over region `rois[j]`. */
  predicate IsMeanTable(values: array2<real>, brain: seq<seq<real>>, labels: seq<real>, rois: seq<real>)
    reads values
  {
    && values.Length0 == |brain| && values.Length1 == |rois|
    && forall s, j :: 0 <= s < |brain| && 0 <= j < |rois| ==>
         rois[j] in labels && InRange(labels, rois[j], |brain[s]|)
         && values[s, j] == RegionMean(brain[s], labels, rois[j])
  }

  /** The regions of `labels` and the `len(brain)` by `len(rois)` matrix of region means
      (lines 99-111), or the `IndexError` the column selection raises. `brain` is the loaded
      matrix, every row `width` long. */
  method RoiLevelData(brain: seq<seq<real>>, width: nat, labels: seq<real>)
    returns (rois: seq<real>, r: Result<array2<real>>)
    requires forall s :: 0 <= s < |brain| ==> |brain[s]| == width
    ensures rois == Rois(labels) && AllPositive(rois)
    ensures r.Err? <==> OutOfRange(labels, width)
    ensures r.Err? ==> r.error == IndexError
    ensures r.Ok? ==> fresh(r.value) && IsMeanTable(r.value, brain, labels, rois)
  {
    rois := Rois(labels);
    RoisAreLabels(labels);
    var data := new real[|brain|, |rois|]((_, _) => 0.0);
    for j := 0 to |rois|
      invariant forall j' :: 0 <= j' < j ==> InRange(labels, rois[j'], width)
      invariant forall s, j' :: 0 <= s < |brain| && 0 <= j' < j ==>
                  data[s, j'] == RegionMean(brain[s], labels, rois[j'])
    {
      var roi := rois[j];
      var roiIndices := Where(labels, roi);
      OverrunsIffNotInRange(labels, roi, width);
      if Overruns(roiIndices, width) {
        return rois, Err(IndexError);
      }
      WriteColumn(data, j, brain, width, labels, roi);
    }
    assert !OutOfRange(labels, width);
    r := Ok(data);
  }

  /** `roi_level_data[:, j] = brain_data[:, roi_indices].mean(axis=1)`: column `j` receives
      every subject's mean over region `roi`, and the other columns are kept. */
  method WriteColumn(data: array2<real>, j: nat, brain: seq<seq<real>>, width: nat, labels: seq<real>, roi: real)
    requires data.Length0 == |brain| && j < data.Length1
    requires forall s :: 0 <= s < |brain| ==> |brain[s]| == width
    requires roi in labels && InRange(labels, roi, width)
    modifies data
    ensures forall s :: 0 <= s < |brain| ==> data[s, j] == RegionMean(brain[s], labels, roi)
    ensures forall s, j' :: 0 <= s < |brain| && 0 <= j' < data.Length1 && j' != j ==> data[s, j'] == old(data[s, j'])
  {
    forall s | 0 <= s < |brain| {
      data[s, j] := RegionMean(brain[s], labels, roi);
    }
  }

  /** The table `transform_analysis_level` would write: column names and the matrix. */
  datatype RoiTable = RoiTable(columns: seq<string>, values: array2<real>)

  /** `transform_analysis_level` as written: the matrix and the names are computed, then the
      write names `output_csv_path`, which is only the docstring's name for the parameter
      `output_file_path`, so every call that gets that far ends in `NameError`. */
  method TransformAnalysisLevel(brain: seq<seq<real>>, width: nat, atlas: NdArray)
    returns (r: Result<RoiTable>)
    requires forall s :: 0 <= s < |brain| ==> |brain[s]| == width
    ensures r == if OutOfRange(Ravel(atlas).data, width) then Err(IndexError)
                 else Err(NameError("output_csv_path"))
  {
    var roiLabels := Ravel(atlas).data;
    var rois, roiLevelData := RoiLevelData(brain, width, roiLabels);
    if roiLevelData.Err? {
      return Err(roiLevelData.error);
    }
    var columns := ColumnNames(rois);
    var roiTable := RoiTable(columns, roiLevelData.value);
    r := Err(NameError("output_csv_path"));
  }

  /** `transform_analysis_level` with the write made to `output_file_path`: the table has one
      column per region, named after it, holding every subject's region mean. */
  method TransformAnalysisLevelFixed(brain: seq<seq<real>>, width: nat, atlas: NdArray)
    returns (r: Result<RoiTable>)
    requires forall s :: 0 <= s < |brain| ==> |brain[s]| == width
    ensures r.Err? <==> OutOfRange(Ravel(atlas).data, width)
    ensures r.Err? ==> r.error == IndexError
    ensures r.Ok? ==> AllPositive(Rois(atlas.data)) && r.value.columns == ColumnNames(Rois(atlas.data))
    ensures r.Ok? ==> fresh(r.value.values)
    ensures r.Ok? ==> IsMeanTable(r.value.values, brain, atlas.data, Rois(atlas.data))
  {
    var roiLabels := Ravel(atlas).data;
    assert roiLabels == atlas.data;
    var rois, roiLevelData := RoiLevelData(brain, width, roiLabels);
    if roiLevelData.Err? {
      return Err(roiLevelData.error);
    }
    r := Ok(RoiTable(ColumnNames(rois), roiLevelData.value));
  }
}
