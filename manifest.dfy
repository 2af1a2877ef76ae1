/** The subject manifest (a CSV table with columns `subject` and `path`) and the partition of
    a requested subject list into subjects whose data file exists and subjects without one.
    `check_brain_input` is written identically in check_brain_data.py and
    check_read_brain_data_241114.py; both are modelled by `CheckBrainInput` below. */
module Manifest {
  import opened Common
  import opened Seqs
  import opened PathStrings

  /** One manifest row: a subject and the path of its brain data file. */
  datatype Row = Row(subject: SubjectId, path: Path)

  /** Row `i` is the first row of subject `s`. */
  predicate IsFirstRowOf(rows: seq<Row>, s: SubjectId, i: int)
  {
    0 <= i < |rows| && rows[i].subject == s && forall j :: 0 <= j < i ==> rows[j].subject != s
  }

  /** The path of the first manifest row for `s` (`rows[rows['subject'] == s]['path'].iloc[0]`). */
  function FirstPath(rows: seq<Row>, s: SubjectId): (r: Option<Path>)
    ensures r.None? <==> forall i :: 0 <= i < |rows| ==> rows[i].subject != s
    ensures r.Some? ==> exists i :: IsFirstRowOf(rows, s, i) && rows[i].path == r.value
    decreases |rows|
  {
    if rows == [] then None
    else if rows[0].subject == s then
      assert IsFirstRowOf(rows, s, 0);
      Some(rows[0].path)
    else
      var r := FirstPath(rows[1..], s);
      assert r.Some? ==> exists i :: IsFirstRowOf(rows, s, i) && rows[i].path == r.value by {
        if r.Some? {
          var i :| IsFirstRowOf(rows[1..], s, i) && rows[1..][i].path == r.value;
          forall j | 0 <= j < i + 1 ensures rows[j].subject != s {
            if j > 0 { assert rows[j] == rows[1..][j - 1]; }
          }
          assert IsFirstRowOf(rows, s, i + 1);
        }
      }
      assert r.None? <==> forall i :: 0 <= i < |rows| ==> rows[i].subject != s by {
        if r.None? {
          forall i | 0 <= i < |rows| ensures rows[i].subject != s {
            if i > 0 { assert rows[i] == rows[1..][i - 1]; }
          }
        }
      }
      r
  }

  /** Why a requested subject is, or is not, usable. */
  datatype Status = Present | NoRow | MissingFile

  /** A subject is present when the manifest has a row for it and the path of its first row exists. */
  function StatusOf(rows: seq<Row>, fs: set<Path>, s: SubjectId): Status
  {
    match FirstPath(rows, s)
    case None => NoRow
    case Some(p) => if p in fs then Present else MissingFile
  }

  function IsPresent(rows: seq<Row>, fs: set<Path>): SubjectId -> bool
  {
    (s: SubjectId) => StatusOf(rows, fs, s) == Present
  }

  function IsAbsent(rows: seq<Row>, fs: set<Path>): SubjectId -> bool
  {
    (s: SubjectId) => StatusOf(rows, fs, s) != Present
  }

  /** The printed diagnostics. */
  datatype Diagnostic =
    | ManifestFormatError          // the manifest path does not end in .csv
    | ManifestReadError            // pd.read_csv raised
    | PathAbnormal(subject: SubjectId)     // a row exists but its path does not
    | NotFoundInFile(subject: SubjectId)   // no row for the subject

  /** The diagnostic printed for an absent subject. */
  function DiagnosticFor(rows: seq<Row>, fs: set<Path>): SubjectId -> Diagnostic
  {
    (s: SubjectId) => if StatusOf(rows, fs, s) == NoRow then NotFoundInFile(s) else PathAbnormal(s)
  }

  /** `check_brain_input(subject_id_list, all_subject_brain_file_path)`. `manifest` is what
      `pd.read_csv` returns for the path, `None` when it raises; `fs` is the set of existing paths. */
  method CheckBrainInput(requested: seq<SubjectId>, manifestPath: Path, manifest: Option<seq<Row>>, fs: set<Path>)
    returns (exist: seq<SubjectId>, notExist: seq<SubjectId>, diagnostics: seq<Diagnostic>)
    ensures !HasCsvSuffix(manifestPath) ==>
              exist == [] && notExist == [] && diagnostics == [ManifestFormatError]
    ensures HasCsvSuffix(manifestPath) && manifest.None? ==>
              exist == [] && notExist == [] && diagnostics == [ManifestReadError]
    ensures HasCsvSuffix(manifestPath) && manifest.Some? ==>
              && exist == Filter(requested, IsPresent(manifest.value, fs))
              && notExist == Filter(requested, IsAbsent(manifest.value, fs))
              && diagnostics == Map(notExist, DiagnosticFor(manifest.value, fs))
  {
    if !HasCsvSuffix(manifestPath) {
      return [], [], [ManifestFormatError];
    }
    if manifest.None? {
      return [], [], [ManifestReadError];
    }
    var rows := manifest.value;
    exist, notExist, diagnostics := [], [], [];
    for i := 0 to |requested|
      invariant exist == Filter(requested[..i], IsPresent(rows, fs))
      invariant notExist == Filter(requested[..i], IsAbsent(rows, fs))
      invariant diagnostics == Map(notExist, DiagnosticFor(rows, fs))
    {
      var subject := requested[i];
      assert requested[..i + 1] == requested[..i] + [subject];
      PartitionStep(requested[..i], subject, rows, fs);
      var path := FirstPath(rows, subject);
      if path.Some? {
        if path.value in fs {
          assert StatusOf(rows, fs, subject) == Present;
          exist := exist + [subject];
        } else {
          assert StatusOf(rows, fs, subject) == MissingFile;
          MapSnoc(notExist, subject, DiagnosticFor(rows, fs));
          notExist := notExist + [subject];
          diagnostics := diagnostics + [PathAbnormal(subject)];
        }
      } else {
        assert StatusOf(rows, fs, subject) == NoRow;
        MapSnoc(notExist, subject, DiagnosticFor(rows, fs));
        notExist := notExist + [subject];
        diagnostics := diagnostics + [NotFoundInFile(subject)];
      }
    }
    assert requested[..|requested|] == requested;
  }

  /** One more requested subject joins exactly one of the two lists, by its status. */
  lemma PartitionStep(prefix: seq<SubjectId>, subject: SubjectId, rows: seq<Row>, fs: set<Path>)
    ensures Filter(prefix + [subject], IsPresent(rows, fs)) ==
            Filter(prefix, IsPresent(rows, fs)) + (if StatusOf(rows, fs, subject) == Present then [subject] else [])
    ensures Filter(prefix + [subject], IsAbsent(rows, fs)) ==
            Filter(prefix, IsAbsent(rows, fs)) + (if StatusOf(rows, fs, subject) != Present then [subject] else [])
  {
    FilterSnoc(prefix, subject, IsPresent(rows, fs));
    FilterSnoc(prefix, subject, IsAbsent(rows, fs));
  }

  /** Every requested subject lands in exactly one of the two lists (counting repeats), so
      the lengths add up to the request length. */
  lemma PartitionIsExact(requested: seq<SubjectId>, rows: seq<Row>, fs: set<Path>)
    ensures multiset(Filter(requested, IsPresent(rows, fs))) + multiset(Filter(requested, IsAbsent(rows, fs)))
            == multiset(requested)
    ensures |Filter(requested, IsPresent(rows, fs))| + |Filter(requested, IsAbsent(rows, fs))| == |requested|
  {
    FilterComplement(requested, IsPresent(rows, fs), IsAbsent(rows, fs));
  }

  /** A requested subject is listed as present exactly when it has a manifest row and the
      path of its first row exists; otherwise exactly when it is requested it is listed absent. */
  lemma PresentIffFirstRowExists(requested: seq<SubjectId>, rows: seq<Row>, fs: set<Path>, s: SubjectId)
    ensures s in Filter(requested, IsPresent(rows, fs)) <==>
              s in requested && FirstPath(rows, s).Some? && FirstPath(rows, s).value in fs
    ensures s in Filter(requested, IsAbsent(rows, fs)) <==>
              s in requested && (FirstPath(rows, s).None? || FirstPath(rows, s).value !in fs)
  {
    FilterMembership(requested, IsPresent(rows, fs), s);
    FilterMembership(requested, IsAbsent(rows, fs), s);
  }

  /** Each list is the requested list restricted to its subjects, taken at increasing
      positions: request order is kept. */
  lemma PartitionKeepsRequestOrder(requested: seq<SubjectId>, rows: seq<Row>, fs: set<Path>)
    ensures forall k, l :: 0 <= k < l < |Filter(requested, IsPresent(rows, fs))| ==>
              FilterIndices(requested, IsPresent(rows, fs))[k] < FilterIndices(requested, IsPresent(rows, fs))[l]
    ensures forall k :: 0 <= k < |Filter(requested, IsPresent(rows, fs))| ==>
              FilterIndices(requested, IsPresent(rows, fs))[k] < |requested|
              && Filter(requested, IsPresent(rows, fs))[k] == requested[FilterIndices(requested, IsPresent(rows, fs))[k]]
    ensures forall k, l :: 0 <= k < l < |Filter(requested, IsAbsent(rows, fs))| ==>
              FilterIndices(requested, IsAbsent(rows, fs))[k] < FilterIndices(requested, IsAbsent(rows, fs))[l]
    ensures forall k :: 0 <= k < |Filter(requested, IsAbsent(rows, fs))| ==>
              FilterIndices(requested, IsAbsent(rows, fs))[k] < |requested|
              && Filter(requested, IsAbsent(rows, fs))[k] == requested[FilterIndices(requested, IsAbsent(rows, fs))[k]]
  {
    FilterKeepsOrder(requested, IsPresent(rows, fs));
    FilterKeepsOrder(requested, IsAbsent(rows, fs));
  }

  /** There is one diagnostic per absent subject, naming it, and a missing row and a missing
      file produce different diagnostics. */
  lemma OneDiagnosticPerAbsentSubject(requested: seq<SubjectId>, rows: seq<Row>, fs: set<Path>)
    ensures var absent := Filter(requested, IsAbsent(rows, fs));
            var diags := Map(absent, DiagnosticFor(rows, fs));
            && |diags| == |absent|
            && forall k :: 0 <= k < |absent| ==>
                 (diags[k] == NotFoundInFile(absent[k]) <==> FirstPath(rows, absent[k]).None?)
                 && (diags[k] == PathAbnormal(absent[k]) <==>
                       FirstPath(rows, absent[k]).Some? && FirstPath(rows, absent[k]).value !in fs)
  {
    var absent := Filter(requested, IsAbsent(rows, fs));
    forall k | 0 <= k < |absent| ensures StatusOf(rows, fs, absent[k]) != Present {
      assert absent[k] in absent;
      FilterMembership(requested, IsAbsent(rows, fs), absent[k]);
    }
  }

  /** An example: one subject without a row, one whose file is missing, one usable. */
  lemma ThreeSubjectScenario()
    ensures var rows := [Row(2, "b.nii"), Row(3, "c.nii")];
            var fs := {"c.nii"};
            var requested: seq<SubjectId> := [1, 2, 3];
            var absent: seq<SubjectId> := [1, 2];
            && Filter(requested, IsPresent(rows, fs)) == [3]
            && Filter(requested, IsAbsent(rows, fs)) == absent
            && Map(absent, DiagnosticFor(rows, fs)) == [NotFoundInFile(1), PathAbnormal(2)]
  {
    var rows := [Row(2, "b.nii"), Row(3, "c.nii")];
    var fs := {"c.nii"};
    assert FirstPath(rows, 1) == None;
    assert FirstPath(rows, 2) == Some("b.nii");
    assert FirstPath(rows, 3) == Some("c.nii");
    var requested: seq<SubjectId> := [1, 2, 3];
    assert requested[..2] == [1, 2] && requested[..2][..1] == [1] && requested[..1][..0] == [];
  }
}
