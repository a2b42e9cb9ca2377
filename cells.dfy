/**
 * Spreadsheet cells and rows as the scoring code reads them from pandas.
 */
module Cells {
  import opened Wrappers
  import PyInt

  /**
   * One cell: text, an integer, a (finite) float, or an empty cell, which
   * pandas delivers as the float NaN.
   */
  datatype Cell = Str(s: string) | Int(i: int) | Float(x: real) | NaN

  /** A row maps column names to cells; a name absent from the map is a column the sheet lacks. */
  type Row = map<string, Cell>

  /** `row.get(field, '')`: a missing column reads as the empty string. */
  function Get(row: Row, field: string): Cell {
    if field in row then row[field] else Str("")
  }

  /** Python's `int(x)` on a float: truncation toward zero. */
  function Truncate(x: real): (n: int)
    ensures 0.0 <= x ==> 0 <= n && n as real <= x < n as real + 1.0
    ensures x < 0.0 ==> n <= 0 && n as real - 1.0 < x <= n as real
  {
    if x >= 0.0 then x.Floor else -((-x).Floor)
  }

  /**
   * `int(v or 0)`: the empty string is falsy and becomes 0; NaN is truthy and
   * `int(NaN)` raises `ValueError`, as does a string `int()` rejects.
   */
  function AsInt(v: Cell): Option<int> {
    match v
    case Str(s) => if s == "" then Some(0) else PyInt.ParseInt(s)
    case Int(i) => Some(i)
    case Float(x) => Some(Truncate(x))
    case NaN => None
  }

  /** Falsy cells become 0 before `int()` sees them; NaN is truthy and fails. */
  lemma AsIntFalsy()
    ensures AsInt(Str("")) == Some(0) && AsInt(Int(0)) == Some(0) && AsInt(Float(0.0)) == Some(0)
    ensures AsInt(NaN) == None
  {
  }

  /** A non-empty text with no digit in it fails, such as "N/A" or a blank of spaces. */
  lemma AsIntNeedsDigit(s: string)
    requires s != "" && forall k :: 0 <= k < |s| ==> !PyInt.IsDigit(s[k])
    ensures AsInt(Str(s)) == None
  {
    PyInt.ParsedHasDigit(s);
  }

  lemma AsIntRejects()
    ensures AsInt(Str("N/A")) == None && AsInt(Str("  ")) == None
  {
    AsIntNeedsDigit("N/A");
    AsIntNeedsDigit("  ");
  }

  /** Surrounding whitespace is stripped before the digits are read. */
  lemma AsIntStrips()
    ensures AsInt(Str(" 12\n")) == Some(12)
  {
    assert PyInt.Show(12) == "12";
    assert " 12\n" == " " + PyInt.Show(12) + "\n";
    PyInt.ParsePadded(" ", 12, "\n");
  }

  /** Single underscores between digits are accepted and skipped. */
  lemma AsIntUnderscores()
    ensures AsInt(Str("1_000")) == Some(1000)
  {
    assert PyInt.Strip("1_000") == "1_000";
    assert "1_000"[..4] == "1_00" && "1_00"[..3] == "1_0" && "1_0"[..2] == "1_" && "1_"[..1] == "1";
    assert PyInt.DigitsValue("1_") == 1;
    assert PyInt.DigitsValue("1_0") == 10;
    assert PyInt.DigitsValue("1_00") == 100;
  }

  /** Floats are truncated toward zero. */
  lemma AsIntTruncates()
    ensures AsInt(Float(7.9)) == Some(7) && AsInt(Float(-7.9)) == Some(-7)
  {
  }

  /** A string that prints an integer parses back to it. */
  lemma AsIntShow(i: int)
    ensures AsInt(Str(PyInt.Show(i))) == Some(i)
  {
    PyInt.ParseShow(i);
  }
}
