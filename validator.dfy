/**
 * The candle-table validator `check_data_errors` (main.py:45-55): an ordered chain
 * of guards over a pandas DataFrame of candles (empty table, then any null cell,
 * then any row repeated in full) that answers with one of four messages.
 */
module Validator {
  import opened Wrappers

  /** One cell of the table; `None` stands for a null (NaN / NaT) cell. */
  type Cell = Option<real>

  type Row = seq<Cell>

  /** A DataFrame: its number of columns and its rows, in table order. */
  datatype Frame = Frame(width: nat, rows: seq<Row>)

  /** The four answers of the validator. */
  datatype DataCheck = DataframeIsEmpty | NullValues | Duplicates | NoErrorsFound

  /** The exact string the validator returns for each answer. */
  function Message(c: DataCheck): string
  {
    match c
    case DataframeIsEmpty => "Dataframe is empty"
    case NullValues => "Data contains null values"
    case Duplicates => "Data contains duplicates"
    case NoErrorsFound => "No errors found"
  }

  /** The four messages are pairwise different, so comparing strings tells the answers apart. */
  lemma MessageInjective(c1: DataCheck, c2: DataCheck)
    ensures Message(c1) == Message(c2) <==> c1 == c2
  {
  }

  /** pandas `DataFrame.empty`: true when either axis has length zero, that is, when the table holds no cell. */
  predicate IsEmpty(f: Frame)
    ensures IsEmpty(f) <==> f.width * |f.rows| == 0
  {
    f.width == 0 || |f.rows| == 0
  }

  /** Some cell of some row is null. */
  ghost predicate HasNullCell(rows: seq<Row>)
  {
    exists i, j :: 0 <= i < |rows| && 0 <= j < |rows[i]| && rows[i][j].None?
  }

  /** Some row equals an earlier row in every column (its timestamp included). */
  ghost predicate HasDuplicateRow(rows: seq<Row>)
  {
    exists i, j :: 0 <= i < j < |rows| && rows[i] == rows[j]
  }

  /** `df.isnull().values.any()`, computed row by row. */
  function AnyNull(rows: seq<Row>): (r: bool)
    ensures r <==> HasNullCell(rows)
  {
    if |rows| == 0 then false
    else
      var last := rows[|rows| - 1];
      var earlier := AnyNull(rows[..|rows| - 1]);
      assert None in last <==> exists j :: 0 <= j < |last| && last[j].None?;
      earlier || None in last
  }

  /**
   * `df.duplicated()` with its default keep='first': one flag per row, set when an
   * earlier row is equal to it in every column.
   */
  function Duplicated(rows: seq<Row>): (flags: seq<bool>)
    ensures |flags| == |rows|
    ensures forall i :: 0 <= i < |rows| ==> (flags[i] <==> exists j :: 0 <= j < i && rows[j] == rows[i])
  {
    if |rows| == 0 then []
    else
      var n := |rows| - 1;
      Duplicated(rows[..n]) + [rows[n] in rows[..n]]
  }

  /** `df.duplicated().any()`. */
  function AnyDuplicated(rows: seq<Row>): (r: bool)
    ensures r <==> HasDuplicateRow(rows)
  {
    var flags := Duplicated(rows);
    assert HasDuplicateRow(rows) ==> true in flags by {
      if HasDuplicateRow(rows) {
        var i, j :| 0 <= i < j < |rows| && rows[i] == rows[j];
        assert flags[j];
      }
    }
    true in flags
  }

  /**
   * `check_data_errors`: the guards run in a fixed order, so emptiness hides nulls
   * and nulls hide duplicates; a single non-empty, null-free row passes (there is
   * no minimum length), and duplicates are whole rows, not shared timestamps.
   */
  function CheckDataErrors(f: Frame): (r: DataCheck)
    ensures r == DataframeIsEmpty <==> IsEmpty(f)
    ensures r == NullValues <==> !IsEmpty(f) && HasNullCell(f.rows)
    ensures r == Duplicates <==> !IsEmpty(f) && !HasNullCell(f.rows) && HasDuplicateRow(f.rows)
    ensures r == NoErrorsFound <==> !IsEmpty(f) && !HasNullCell(f.rows) && !HasDuplicateRow(f.rows)
  {
    if IsEmpty(f) then DataframeIsEmpty
    else if AnyNull(f.rows) then NullValues
    else if AnyDuplicated(f.rows) then Duplicates
    else NoErrorsFound
  }

  /** A table with one non-empty row and no null cell passes: there is no minimum row count. */
  lemma SingleRowPasses(row: Row)
    requires |row| > 0 && None !in row
    ensures CheckDataErrors(Frame(|row|, [row])) == NoErrorsFound
  {
    assert !HasNullCell([row]) by {
      forall i, j | 0 <= i < 1 && 0 <= j < |[row][i]| ensures [row][i][j].Some? {
        assert [row][i][j] in row;
      }
    }
  }

  /** Two candles with the same timestamp but a different close are not duplicates. */
  lemma SharedTimestampIsNotDuplicate(t: real, o: real, h: real, l: real, c1: real, c2: real, v: real)
    requires c1 != c2
    ensures var r1 := [Some(t), Some(o), Some(h), Some(l), Some(c1), Some(v)];
            var r2 := [Some(t), Some(o), Some(h), Some(l), Some(c2), Some(v)];
            CheckDataErrors(Frame(6, [r1, r2])) == NoErrorsFound
  {
    var r1 := [Some(t), Some(o), Some(h), Some(l), Some(c1), Some(v)];
    var r2 := [Some(t), Some(o), Some(h), Some(l), Some(c2), Some(v)];
    assert r1[4] != r2[4];
    assert !HasNullCell([r1, r2]) by {
      forall i, j | 0 <= i < 2 && 0 <= j < |[r1, r2][i]| ensures [r1, r2][i][j].Some? {
        if i == 0 { assert [r1, r2][i] == r1; } else { assert [r1, r2][i] == r2; }
      }
    }
  }

  /** A row repeated in full is reported as a duplicate, whichever rows lie between the two copies. */
  lemma RepeatedRowIsDuplicate(f: Frame, i: nat, j: nat)
    requires !IsEmpty(f) && !HasNullCell(f.rows)
    requires i < j < |f.rows| && f.rows[i] == f.rows[j]
    ensures CheckDataErrors(f) == Duplicates
  {
  }
}
