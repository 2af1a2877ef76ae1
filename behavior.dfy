/** The behaviour-table checks of check_read_behavior_data.py and
    check_read_behavior_data_241114.py, which differ only in the language of their messages. */
module Behavior {
  import opened Common
  import opened PathStrings

  /** A table as `pd.read_csv` returns it: rows of cells, `None` for a missing cell. */
  type Table = seq<seq<Option<Value>>>

  /** `data.values`: the cells, row after row. */
  function Cells(t: Table): (r: seq<Option<Value>>)
    decreases |t|
  {
    if t == [] then [] else Cells(t[..|t| - 1]) + t[|t| - 1]
  }

  /** `data.isnull().values.any()`. */
  predicate AnyMissing(t: Table)
  {
    exists k :: 0 <= k < |Cells(t)| && Cells(t)[k].None?
  }

  /** The table has a missing cell in some row and column. */
  predicate HasMissingCell(t: Table)
  {
    exists i, j :: 0 <= i < |t| && 0 <= j < |t[i]| && t[i][j].None?
  }

  /** Flattening keeps every cell: a missing value is found in `values` exactly when some
      row has a missing cell. */
  lemma {:induction false} MissingCellIffAnyMissing(t: Table)
    ensures AnyMissing(t) <==> HasMissingCell(t)
    decreases |t|
  {
    if t != [] {
      var init, last := t[..|t| - 1], t[|t| - 1];
      MissingCellIffAnyMissing(init);
      var c := Cells(init);
      assert Cells(t) == c + last;
      if HasMissingCell(t) {
        var i, j :| 0 <= i < |t| && 0 <= j < |t[i]| && t[i][j].None?;
        if i < |t| - 1 {
          assert init[i][j] == t[i][j];
          assert HasMissingCell(init);
          var k :| 0 <= k < |c| && c[k].None?;
          assert Cells(t)[k] == c[k];
        } else {
          assert Cells(t)[|c| + j] == last[j];
        }
        assert AnyMissing(t);
      }
      if AnyMissing(t) {
        var k :| 0 <= k < |Cells(t)| && Cells(t)[k].None?;
        if k < |c| {
          assert c[k] == Cells(t)[k];
          assert HasMissingCell(init);
          var i, j :| 0 <= i < |init| && 0 <= j < |init[i]| && init[i][j].None?;
          assert t[i][j] == init[i][j];
          assert HasMissingCell(t);
        } else {
          assert last[k - |c|] == Cells(t)[k];
          assert t[|t| - 1][k - |c|].None?;
          assert HasMissingCell(t);
        }
      }
    }
  }

  /** The three printed outcomes. */
  datatype Report = FormatError | ContainsMissing | DataOk

  /** `check_behavior_input(behav_file_path)`, both variants. `contents` is what
      `pd.read_csv` gives for the path: the table, or the error it raises. It returns
      nothing; the report stands for the message printed. */
  function CheckBehaviorInput(path: Path, contents: Result<Table>): (r: Result<Report>)
    ensures !HasCsvSuffix(path) ==> r == Ok(FormatError)
    ensures HasCsvSuffix(path) ==> (r.Err? <==> contents.Err?)
    ensures HasCsvSuffix(path) && contents.Ok? ==>
              (r == Ok(ContainsMissing) <==> HasMissingCell(contents.value))
    ensures HasCsvSuffix(path) && contents.Ok? && !HasMissingCell(contents.value) ==> r == Ok(DataOk)
    ensures HasCsvSuffix(path) && contents.Err? ==> r == Err(contents.error)
  {
    if HasCsvSuffix(path) then
      match contents
      case Err(e) => Err(e)
      case Ok(t) =>
        MissingCellIffAnyMissing(t);
        if AnyMissing(t) then Ok(ContainsMissing) else Ok(DataOk)
    else Ok(FormatError)
  }

  /** A path without the `.csv` suffix is never read: its report is the same whatever the file holds. */
  lemma NonCsvIsNotRead(path: Path, a: Result<Table>, b: Result<Table>)
    requires !HasCsvSuffix(path)
    ensures CheckBehaviorInput(path, a) == CheckBehaviorInput(path, b)
  {
  }

  /** A missing value only produces a message: the check fails only when reading fails. */
  lemma MissingValuesDoNotRaise(path: Path, t: Table)
    requires HasCsvSuffix(path) && HasMissingCell(t)
    ensures CheckBehaviorInput(path, Ok(t)) == Ok(ContainsMissing)
  {
  }

  /** `read_behavior_input(behav_file_path_checked)`: the table as read, or the error reading raises. */
  function ReadBehaviorInput(contents: Result<Table>): (r: Result<Table>)
    ensures r.Ok? <==> contents.Ok?
    ensures r.Ok? ==> r.value == contents.value
  {
    contents
  }

  /** A file the check reported as clean is then read with no missing cell. */
  lemma CheckedThenRead(path: Path, contents: Result<Table>)
    requires CheckBehaviorInput(path, contents) == Ok(DataOk)
    ensures HasCsvSuffix(path)
    ensures ReadBehaviorInput(contents).Ok? && !HasMissingCell(ReadBehaviorInput(contents).value)
  {
  }

  /** Example: the upper-case suffix counts, and a single empty cell is reported. */
  lemma UpperCaseSuffixScenario()
    ensures CheckBehaviorInput("b.CSV", Ok([[Some(Num(1.0)), None]])) == Ok(ContainsMissing)
    ensures CheckBehaviorInput("b.tsv", Ok([[Some(Num(1.0)), None]])) == Ok(FormatError)
  {
    CsvSuffixIsLastFourChars("b.CSV");
    CsvSuffixIsLastFourChars("b.tsv");
    var t: Table := [[Some(Num(1.0)), None]];
    assert t[0][1].None?;
  }
}
