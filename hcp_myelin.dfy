/** check_read_brain_data.py: subjects of an HCP-YA tree, each with a myelin map at a path
    built from the subject number, checked for existence and stacked. */
module HcpMyelin {
  import opened Common
  import opened Seqs
  import opened PathStrings
  import opened NdArrays

  const MyelinSuffix: string := ".MyelinMap_MSMAll.32k_fs_LR.dscalar.nii"

  /** `os.path.join(HCPYA_dir, str(sub), 'MNINonLinear', 'fsaverage_LR32k', str(sub) + suffix)`. */
  function MyelinPath(dir: Path, sub: SubjectId): Path
  {
    JoinAll([dir, NatToString(sub), "MNINonLinear", "fsaverage_LR32k", NatToString(sub) + MyelinSuffix])
  }

  function HasMyelin(dir: Path, fs: set<Path>): SubjectId -> bool
  {
    (s: SubjectId) => MyelinPath(dir, s) in fs
  }

  function LacksMyelin(dir: Path, fs: set<Path>): SubjectId -> bool
  {
    (s: SubjectId) => MyelinPath(dir, s) !in fs
  }

  /** `check_brain_input(sublist, HCPYA_dir)`; `fs` holds the existing paths and `messages`
      the subjects named by the printed "does not have myelination data" lines. */
  method CheckBrainInput(sublist: seq<SubjectId>, dir: Path, fs: set<Path>)
    returns (exist: seq<SubjectId>, notExist: seq<SubjectId>, messages: seq<SubjectId>)
    ensures exist == Filter(sublist, HasMyelin(dir, fs))
    ensures notExist == Filter(sublist, LacksMyelin(dir, fs))
    ensures messages == notExist
  {
    exist, notExist, messages := [], [], [];
    for i := 0 to |sublist|
      invariant exist == Filter(sublist[..i], HasMyelin(dir, fs))
      invariant notExist == Filter(sublist[..i], LacksMyelin(dir, fs))
      invariant messages == notExist
    {
      var sub := sublist[i];
      assert sublist[..i + 1] == sublist[..i] + [sub];
      FilterSnoc(sublist[..i], sub, HasMyelin(dir, fs));
      FilterSnoc(sublist[..i], sub, LacksMyelin(dir, fs));
      var path := MyelinPath(dir, sub);
      if path in fs {
        exist := exist + [sub];
      } else {
        notExist := notExist + [sub];
        messages := messages + [sub];
      }
    }
    assert sublist[..|sublist|] == sublist;
  }

  /** A subject is kept exactly when it was requested and its myelin file exists; every
      requested subject lands in exactly one list. */
  lemma MyelinPartition(sublist: seq<SubjectId>, dir: Path, fs: set<Path>, s: SubjectId)
    ensures s in Filter(sublist, HasMyelin(dir, fs)) <==> s in sublist && MyelinPath(dir, s) in fs
    ensures s in Filter(sublist, LacksMyelin(dir, fs)) <==> s in sublist && MyelinPath(dir, s) !in fs
    ensures multiset(Filter(sublist, HasMyelin(dir, fs))) + multiset(Filter(sublist, LacksMyelin(dir, fs)))
            == multiset(sublist)
  {
    FilterMembership(sublist, HasMyelin(dir, fs), s);
    FilterMembership(sublist, LacksMyelin(dir, fs), s);
    FilterComplement(sublist, HasMyelin(dir, fs), LacksMyelin(dir, fs));
  }

  /** One iteration of the loading loop: `nib.load` of a missing path raises `FileNotFoundError`. */
  function Fetch(dir: Path, files: FileStore, s: SubjectId): Result<NdArray>
  {
    var p := MyelinPath(dir, s);
    if p in files then Ok(files[p].fdata) else Err(FileNotFoundError(p))
  }

  function FetchAll(dir: Path, files: FileStore, xs: seq<SubjectId>): Result<seq<NdArray>>
    decreases |xs|
  {
    if xs == [] then Ok([])
    else
      var prev := FetchAll(dir, files, xs[..|xs| - 1]);
      if prev.Err? then prev
      else
        var one := Fetch(dir, files, xs[|xs| - 1]);
        if one.Err? then Err(one.error) else Ok(prev.value + [one.value])
  }

  function Stacked(dir: Path, files: FileStore, exist: seq<SubjectId>): Result<NdArray>
  {
    var loaded := FetchAll(dir, files, exist);
    if loaded.Err? then Err(loaded.error) else VStack(loaded.value)
  }

  /** `concatenate_brain_input(exist_sub, HCPYA_dir)`. */
  method ConcatenateBrainInput(exist: seq<SubjectId>, dir: Path, files: FileStore) returns (r: Result<NdArray>)
    ensures r == Stacked(dir, files, exist)
  {
    var concatenated: seq<NdArray> := [];
    for i := 0 to |exist|
      invariant FetchAll(dir, files, exist[..i]) == Ok(concatenated)
    {
      var sub := exist[i];
      assert exist[..i + 1][..i] == exist[..i];
      var path := MyelinPath(dir, sub);
      if path !in files {
        FetchAllStops(dir, files, exist, i + 1);
        return Err(FileNotFoundError(path));
      }
      concatenated := concatenated + [files[path].fdata];
    }
    assert exist[..|exist|] == exist;
    r := VStack(concatenated);
  }

  lemma {:induction false} FetchAllStops(dir: Path, files: FileStore, xs: seq<SubjectId>, j: nat)
    requires 0 < j <= |xs|
    requires FetchAll(dir, files, xs[..j]).Err?
    ensures FetchAll(dir, files, xs) == FetchAll(dir, files, xs[..j])
    decreases |xs| - j
  {
    if j == |xs| {
      assert xs[..j] == xs;
    } else {
      var init := xs[..|xs| - 1];
      assert init[..j] == xs[..j];
      FetchAllStops(dir, files, init, j);
    }
  }

  lemma {:induction false} FetchAllSucceeds(dir: Path, files: FileStore, xs: seq<SubjectId>)
    requires forall i :: 0 <= i < |xs| ==> MyelinPath(dir, xs[i]) in files
    ensures FetchAll(dir, files, xs).Ok?
    ensures |FetchAll(dir, files, xs).value| == |xs|
    ensures forall i :: 0 <= i < |xs| ==> FetchAll(dir, files, xs).value[i] == files[MyelinPath(dir, xs[i])].fdata
    decreases |xs|
  {
    if xs != [] {
      var init := xs[..|xs| - 1];
      forall i | 0 <= i < |init| ensures init[i] == xs[i] { }
      FetchAllSucceeds(dir, files, init);
    }
  }

  /** Every subject that `CheckBrainInput` keeps has its myelin file. */
  lemma CheckedSubjectsHaveFiles(sublist: seq<SubjectId>, dir: Path, fs: set<Path>)
    ensures forall i :: 0 <= i < |Filter(sublist, HasMyelin(dir, fs))| ==>
              MyelinPath(dir, Filter(sublist, HasMyelin(dir, fs))[i]) in fs
  {
    var exist := Filter(sublist, HasMyelin(dir, fs));
    forall i | 0 <= i < |exist| ensures MyelinPath(dir, exist[i]) in fs {
      assert exist[i] in exist;
      FilterMembership(sublist, HasMyelin(dir, fs), exist[i]);
    }
  }

  /** Subjects whose maps all exist, each holding `k` values as one row, stack to an `n` by
      `k` matrix whose row `i` is the map of `exist[i]`. Only the maps of `exist` are constrained. */
  lemma MapsStackInOrder(exist: seq<SubjectId>, dir: Path, files: FileStore, k: nat)
    requires exist != []
    requires forall i :: 0 <= i < |exist| ==> MyelinPath(dir, exist[i]) in files
    requires forall i :: 0 <= i < |exist| ==> IsRowVector(files[MyelinPath(dir, exist[i])].fdata, k)
    ensures Stacked(dir, files, exist).Ok?
    ensures Stacked(dir, files, exist).value.shape == [|exist|, k]
    ensures forall i :: 0 <= i < |exist| ==>
              BlockIs(Stacked(dir, files, exist).value.data, i, k, files[MyelinPath(dir, exist[i])].fdata.data)
  {
    FetchAllSucceeds(dir, files, exist);
    var arrs := FetchAll(dir, files, exist).value;
    forall i | 0 <= i < |arrs| ensures (arrs[i].shape == [k] || arrs[i].shape == [1, k]) && |arrs[i].data| == k {
      RowVectorLength(arrs[i], k);
    }
    VStackRows(arrs, k);
    forall i | 0 <= i < |exist| ensures BlockIs(Flat(arrs), i, k, arrs[i].data) {
      FlatBlock(arrs, k, i);
    }
  }

  /** The directory joined with a first component that does not start with a separator. */
  function JoinBase(dir: Path): Path
  {
    if dir == [] || dir[|dir| - 1] == '/' then dir else dir + "/"
  }

  lemma JoinRelative(a: Path, b: Path)
    requires |b| > 0 && b[0] != '/'
    ensures Join(a, b) == JoinBase(a) + b
  {
  }

  /** Joining a relative word onto a path that does not end in a separator inserts one. */
  lemma JoinWordOnto(parts: seq<string>, b: string)
    requires parts != [] && |JoinAll(parts)| > 0 && JoinAll(parts)[|JoinAll(parts)| - 1] != '/'
    requires |b| > 0 && b[0] != '/'
    ensures JoinAll(parts + [b]) == JoinAll(parts) + "/" + b
  {
    JoinAllSnoc(parts, b);
  }

  /** The myelin path written out: the base, the subject number, and each further part
      after a separator. */
  lemma MyelinPathForm(dir: Path, sub: SubjectId)
    ensures MyelinPath(dir, sub) ==
      JoinBase(dir) + NatToString(sub) + "/" + "MNINonLinear" + "/" + "fsaverage_LR32k" + "/" + (NatToString(sub) + MyelinSuffix)
  {
    var n := NatToString(sub);
    var file := n + MyelinSuffix;
    var p2: seq<string> := [dir, n];
    JoinAllSnoc([dir], n);
    assert [dir] + [n] == p2;
    JoinRelative(dir, n);
    var a := JoinBase(dir) + n;
    assert JoinAll(p2) == a;
    JoinWordOnto(p2, "MNINonLinear");
    var p3 := p2 + ["MNINonLinear"];
    JoinWordOnto(p3, "fsaverage_LR32k");
    var p4 := p3 + ["fsaverage_LR32k"];
    assert file[0] == n[0];
    JoinWordOnto(p4, file);
    assert p4 + [file] == [dir, n, "MNINonLinear", "fsaverage_LR32k", file];
  }

  /** `n` sits in `p` from `start` on and is followed there by a separator. */
  predicate FollowedBySeparator(p: string, start: nat, n: string)
  {
    start + |n| < |p| && p[start..start + |n|] == n && p[start + |n|] == '/'
  }

  /** In the myelin path the subject number directly follows the base and is followed by a separator. */
  lemma SubjectDirectory(dir: Path, sub: SubjectId)
    ensures FollowedBySeparator(MyelinPath(dir, sub), |JoinBase(dir)|, NatToString(sub))
  {
    MyelinPathForm(dir, sub);
    var n := NatToString(sub);
    var base := JoinBase(dir);
    var w := base + n + "/";
    assert w[|base|..|base| + |n|] == n;
    assert w[|base| + |n|] == '/';
    var p := MyelinPath(dir, sub);
    assert p[..|w|] == w;
  }

  /** Two digit strings that both start at `start` in `p` and are both followed there by a
      separator are equal. */
  lemma DigitsBeforeSeparator(p: string, start: nat, x: string, y: string)
    requires forall i :: 0 <= i < |x| ==> '0' <= x[i] <= '9'
    requires forall i :: 0 <= i < |y| ==> '0' <= y[i] <= '9'
    requires FollowedBySeparator(p, start, x) && FollowedBySeparator(p, start, y)
    ensures x == y
  {
    assert |x| == |y|;
  }

  /** Different subjects have different myelin paths, so no file is loaded for two subjects. */
  lemma MyelinPathInjective(dir: Path, a: SubjectId, b: SubjectId)
    requires MyelinPath(dir, a) == MyelinPath(dir, b)
    ensures a == b
  {
    SubjectDirectory(dir, a);
    SubjectDirectory(dir, b);
    DigitsBeforeSeparator(MyelinPath(dir, a), |JoinBase(dir)|, NatToString(a), NatToString(b));
    NatToStringInjective(a, b);
  }
}
