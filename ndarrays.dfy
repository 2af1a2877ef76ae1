/** N-dimensional arrays as a shape and a flat buffer in C (row-major) order, with the
    numpy operations the scripts use to flatten, reshape and stack subject data. */
module NdArrays {
  import opened Common

  datatype NdArray = NdArray(shape: seq<nat>, data: seq<real>)

  /** What `nib.load(path)` gives access to: `get_fdata()` and, for GIFTI files, the
      per-vertex vectors of `darrays`. */
  datatype FileImage = FileImage(fdata: NdArray, darrays: seq<seq<real>>)

  /** The files on disk: a path exists exactly when it is a key. */
  type FileStore = map<Path, FileImage>

  function Product(dims: seq<nat>): nat
  {
    if dims == [] then 1 else dims[0] * Product(dims[1..])
  }

  /** The buffer holds exactly one value per position of the shape. */
  predicate WellFormed(a: NdArray)
  {
    |a.data| == Product(a.shape)
  }

  /** `a.reshape(-1)`. */
  function Ravel(a: NdArray): NdArray
  {
    NdArray([|a.data|], a.data)
  }

  /** `data.reshape(shape)`: numpy refuses a size that does not match. */
  function Reshape(data: seq<real>, shape: seq<nat>): (r: Result<NdArray>)
    ensures r.Ok? <==> |data| == Product(shape)
    ensures r.Ok? ==> r.value.shape == shape && WellFormed(r.value)
  {
    if |data| == Product(shape) then Ok(NdArray(shape, data)) else Err(ValueError(ReshapeSize))
  }

  /** Reshaping to a shape and flattening again gives back the values in order, and
      reshaping a flattened array to its own shape gives back the array. */
  lemma ReshapeRavelRoundTrip(data: seq<real>, shape: seq<nat>, a: NdArray)
    requires |data| == Product(shape)
    requires WellFormed(a)
    ensures Ravel(Reshape(data, shape).value).data == data
    ensures Reshape(Ravel(a).data, a.shape) == Ok(a)
  {
  }

  /** `a[np.newaxis, ...]`. */
  function NewAxis(a: NdArray): NdArray
  {
    NdArray([1] + a.shape, a.data)
  }

  function NewAxisAll(arrs: seq<NdArray>): (r: seq<NdArray>)
    ensures |r| == |arrs|
    ensures forall i :: 0 <= i < |arrs| ==> r[i] == NewAxis(arrs[i])
  {
    seq(|arrs|, i requires 0 <= i < |arrs| => NewAxis(arrs[i]))
  }

  /** `np.atleast_2d(a)`. */
  function AtLeast2D(a: NdArray): NdArray
  {
    if |a.shape| == 0 then NdArray([1, 1], a.data)
    else if |a.shape| == 1 then NdArray([1] + a.shape, a.data)
    else a
  }

  /** The buffers of `arrs`, one after the other. */
  function Flat(arrs: seq<NdArray>): seq<real>
    decreases |arrs|
  {
    if arrs == [] then [] else Flat(arrs[..|arrs| - 1]) + arrs[|arrs| - 1].data
  }

  /** The sum of the leading dimensions. */
  function LeadingSum(arrs: seq<NdArray>): nat
    requires forall i :: 0 <= i < |arrs| ==> |arrs[i].shape| >= 1
    decreases |arrs|
  {
    if arrs == [] then 0 else LeadingSum(arrs[..|arrs| - 1]) + arrs[|arrs| - 1].shape[0]
  }

  /** `np.concatenate(arrs, axis=0)`: at least one array, none zero-dimensional, and all
      shapes equal past the first axis. In C order the result's buffer is the buffers in sequence. */
  function Concatenate(arrs: seq<NdArray>): (r: Result<NdArray>)
  {
    if |arrs| == 0 then Err(ValueError(NothingToConcatenate))
    else if exists i :: 0 <= i < |arrs| && |arrs[i].shape| == 0 then Err(ValueError(ZeroDimensional))
    else if exists i :: 0 <= i < |arrs| && arrs[i].shape[1..] != arrs[0].shape[1..] then Err(ValueError(ShapeMismatch))
    else Ok(NdArray([LeadingSum(arrs)] + arrs[0].shape[1..], Flat(arrs)))
  }

  function AtLeast2DAll(arrs: seq<NdArray>): (r: seq<NdArray>)
    ensures |r| == |arrs|
    ensures forall i :: 0 <= i < |arrs| ==> r[i] == AtLeast2D(arrs[i])
  {
    seq(|arrs|, i requires 0 <= i < |arrs| => AtLeast2D(arrs[i]))
  }

  /** `np.vstack(arrs)`. */
  function VStack(arrs: seq<NdArray>): Result<NdArray>
  {
    Concatenate(AtLeast2DAll(arrs))
  }

  /** The values of `vs`, one after the other. */
  function Concat(vs: seq<seq<real>>): seq<real>
    decreases |vs|
  {
    if vs == [] then [] else Concat(vs[..|vs| - 1]) + vs[|vs| - 1]
  }

  /** `np.hstack` of one-dimensional vectors. */
  function HStack(vs: seq<seq<real>>): (r: Result<NdArray>)
    ensures r.Ok? <==> vs != []
    ensures r.Ok? ==> r.value.data == Concat(vs) && |r.value.shape| == 1
  {
    if vs == [] then Err(ValueError(NothingToConcatenate)) else Ok(NdArray([|Concat(vs)|], Concat(vs)))
  }

  lemma FlatSnoc(arrs: seq<NdArray>, a: NdArray)
    ensures Flat(arrs + [a]) == Flat(arrs) + a.data
  {
    assert (arrs + [a])[..|arrs|] == arrs;
  }

  /** Arrays with the same buffers have the same flat concatenation. */
  lemma {:induction false} FlatSameData(xs: seq<NdArray>, ys: seq<NdArray>)
    requires |xs| == |ys|
    requires forall i :: 0 <= i < |xs| ==> xs[i].data == ys[i].data
    ensures Flat(xs) == Flat(ys)
    decreases |xs|
  {
    if xs != [] {
      FlatSameData(xs[..|xs| - 1], ys[..|ys| - 1]);
    }
  }

  lemma {:induction false} LeadingSumOnes(arrs: seq<NdArray>)
    requires forall i :: 0 <= i < |arrs| ==> |arrs[i].shape| >= 1 && arrs[i].shape[0] == 1
    ensures LeadingSum(arrs) == |arrs|
    decreases |arrs|
  {
    if arrs != [] {
      LeadingSumOnes(arrs[..|arrs| - 1]);
    }
  }

  /** `a` holds `k` values as one vector: one-dimensional, or one row of a two-dimensional array. */
  predicate IsRowVector(a: NdArray, k: nat)
  {
    (a.shape == [k] || a.shape == [1, k]) && WellFormed(a)
  }

  /** A row vector of `k` values has a buffer of length `k`. */
  lemma RowVectorLength(a: NdArray, k: nat)
    requires IsRowVector(a, k)
    ensures |a.data| == k
  {
    assert Product([k]) == k;
    assert Product([1, k]) == k by { assert [1, k][1..] == [k]; }
  }

  /** Block `i` of a buffer, positions `i * k` up to `(i + 1) * k`, is `v`. */
  predicate BlockIs(data: seq<real>, i: nat, k: nat, v: seq<real>)
  {
    (i + 1) * k <= |data| && data[i * k..(i + 1) * k] == v
  }

  /** When every buffer has length `k`, block `i` of the flat concatenation, positions
      `i * k` up to `(i + 1) * k`, is exactly the buffer of `arrs[i]`. */
  lemma {:induction false} FlatBlock(arrs: seq<NdArray>, k: nat, i: nat)
    requires forall j :: 0 <= j < |arrs| ==> |arrs[j].data| == k
    requires i < |arrs|
    ensures |Flat(arrs)| == |arrs| * k
    ensures (i + 1) * k <= |Flat(arrs)|
    ensures Flat(arrs)[i * k..(i + 1) * k] == arrs[i].data
    decreases |arrs|
  {
    var n := |arrs|;
    FlatLength(arrs, k);
    if i == n - 1 {
      FlatBlockLast(arrs, k);
    } else {
      var init := arrs[..n - 1];
      FlatBlock(init, k, i);
      assert init[i] == arrs[i];
      FlatBlockInit(arrs, k, i);
    }
  }

  /** The last block of the flat concatenation is the last buffer. */
  lemma FlatBlockLast(arrs: seq<NdArray>, k: nat)
    requires |arrs| > 0
    requires forall j :: 0 <= j < |arrs| ==> |arrs[j].data| == k
    ensures |Flat(arrs)| == |arrs| * k
    ensures Flat(arrs)[(|arrs| - 1) * k..|arrs| * k] == arrs[|arrs| - 1].data
  {
    var n := |arrs|;
    var init, last := arrs[..n - 1], arrs[n - 1];
    FlatLength(init, k);
    assert Flat(arrs) == Flat(init) + last.data;
    MulSucc(n - 1, k);
    SliceRight(Flat(init), last.data);
  }

  /** A block before the last buffer is the same in the concatenation without it. */
  lemma FlatBlockInit(arrs: seq<NdArray>, k: nat, i: nat)
    requires i + 1 < |arrs|
    requires (i + 1) * k <= |Flat(arrs[..|arrs| - 1])|
    requires Flat(arrs[..|arrs| - 1])[i * k..(i + 1) * k] == arrs[i].data
    ensures (i + 1) * k <= |Flat(arrs)|
    ensures Flat(arrs)[i * k..(i + 1) * k] == arrs[i].data
  {
    var n := |arrs|;
    var init, last := arrs[..n - 1], arrs[n - 1];
    assert Flat(arrs) == Flat(init) + last.data;
    MulSucc(i, k);
    SliceLeft(Flat(init), last.data, i * k, (i + 1) * k);
  }

  lemma MulSucc(a: nat, k: nat)
    ensures (a + 1) * k == a * k + k
  {
  }

  lemma SliceLeft(a: seq<real>, b: seq<real>, lo: nat, hi: nat)
    requires lo <= hi <= |a|
    ensures (a + b)[lo..hi] == a[lo..hi]
  {
  }

  lemma SliceRight(a: seq<real>, b: seq<real>)
    ensures (a + b)[|a|..|a| + |b|] == b
  {
  }

  lemma {:induction false} FlatLength(arrs: seq<NdArray>, k: nat)
    requires forall j :: 0 <= j < |arrs| ==> |arrs[j].data| == k
    ensures |Flat(arrs)| == |arrs| * k
    decreases |arrs|
  {
    if arrs != [] {
      FlatLength(arrs[..|arrs| - 1], k);
      assert (|arrs| - 1) * k + k == |arrs| * k;
    }
  }

  /** Concatenating arrays that all have shape `[1] + rest` yields shape `[n] + rest`. */
  lemma ConcatenateSingletons(arrs: seq<NdArray>, rest: seq<nat>)
    requires |arrs| > 0
    requires forall i :: 0 <= i < |arrs| ==> arrs[i].shape == [1] + rest
    ensures Concatenate(arrs) == Ok(NdArray([|arrs|] + rest, Flat(arrs)))
  {
    assert ([1] + rest)[1..] == rest;
    assert forall i :: 0 <= i < |arrs| ==> |arrs[i].shape| != 0 && arrs[i].shape[1..] == rest;
    LeadingSumOnes(arrs);
  }

  /** Stacking arrays that all have shape `s`, each given a new leading axis, yields one
      slice per array: shape `[n] + s`, and the buffers in order. */
  lemma NewAxisStack(arrs: seq<NdArray>, s: seq<nat>)
    requires |arrs| > 0
    requires forall i :: 0 <= i < |arrs| ==> arrs[i].shape == s
    ensures Concatenate(NewAxisAll(arrs)) == Ok(NdArray([|arrs|] + s, Flat(arrs)))
  {
    var lifted := NewAxisAll(arrs);
    ConcatenateSingletons(lifted, s);
    FlatSameData(lifted, arrs);
  }

  lemma AtLeast2DRow(a: NdArray, k: nat)
    requires a.shape == [k] || a.shape == [1, k]
    ensures AtLeast2D(a).shape == [1] + [k] && AtLeast2D(a).data == a.data
  {
    assert [1] + [k] == [1, k];
  }

  /** Stacking vectors of length `k` (one-dimensional, or one row of a two-dimensional
      array) vertically yields an `n` by `k` matrix holding the vectors in order. */
  lemma VStackRows(arrs: seq<NdArray>, k: nat)
    requires |arrs| > 0
    requires forall i :: 0 <= i < |arrs| ==> arrs[i].shape == [k] || arrs[i].shape == [1, k]
    ensures VStack(arrs) == Ok(NdArray([|arrs|, k], Flat(arrs)))
  {
    var lifted := AtLeast2DAll(arrs);
    forall i | 0 <= i < |lifted| ensures lifted[i].shape == [1] + [k] && lifted[i].data == arrs[i].data {
      AtLeast2DRow(arrs[i], k);
    }
    StackRows(lifted, arrs, k);
  }

  /** One-dimensional vectors stacked vertically, when the stack succeeds: all of the first
      vector's length, one row each, in order. */
  lemma VStackVectors(arrs: seq<NdArray>, vecs: seq<seq<real>>)
    requires |arrs| == |vecs|
    requires forall i :: 0 <= i < |arrs| ==> arrs[i] == NdArray([|vecs[i]|], vecs[i])
    requires VStack(arrs).Ok?
    ensures |arrs| > 0
    ensures VStack(arrs).value.shape == [|arrs|, |vecs[0]|]
    ensures forall i :: 0 <= i < |arrs| ==> BlockIs(VStack(arrs).value.data, i, |vecs[0]|, vecs[i])
  {
    var lifted := AtLeast2DAll(arrs);
    ConcatenateKeepsData(lifted);
    var k := |vecs[0]|;
    forall i | 0 <= i < |arrs| ensures arrs[i].shape == [k] && |arrs[i].data| == k {
      assert lifted[i] == NdArray([1] + [|vecs[i]|], vecs[i]);
      assert lifted[0] == NdArray([1] + [k], vecs[0]);
      assert ([1] + [|vecs[i]|])[1..] == [|vecs[i]|];
      assert ([1] + [k])[1..] == [k];
    }
    VStackRows(arrs, k);
    forall i | 0 <= i < |arrs| ensures BlockIs(Flat(arrs), i, k, vecs[i]) {
      FlatBlock(arrs, k, i);
    }
  }

  /** Rows of shape `[1, k]` holding the buffers of `arrs` concatenate to the `n` by `k`
      matrix of those buffers. */
  lemma StackRows(rows: seq<NdArray>, arrs: seq<NdArray>, k: nat)
    requires |rows| == |arrs| > 0
    requires forall i :: 0 <= i < |rows| ==> rows[i].shape == [1] + [k] && rows[i].data == arrs[i].data
    ensures Concatenate(rows) == Ok(NdArray([|arrs|, k], Flat(arrs)))
  {
    ConcatenateSingletons(rows, [k]);
    FlatSameData(rows, arrs);
    assert [|arrs|] + [k] == [|arrs|, k];
  }

  /** A successful concatenation keeps every buffer, in order. */
  lemma ConcatenateKeepsData(arrs: seq<NdArray>)
    requires Concatenate(arrs).Ok?
    ensures Concatenate(arrs).value.data == Flat(arrs)
    ensures |arrs| > 0
    ensures forall i :: 0 <= i < |arrs| ==> |arrs[i].shape| >= 1 && arrs[i].shape[1..] == arrs[0].shape[1..]
  {
  }
}
