/**
 * Cell values of the report sheet, the read-only grid they come from, and the two
 * Python conversions the validators apply to a cell: truthiness and str().
 */
module Cells {

  /** A cell as the workbook decoder hands it over: a number, a text or nothing (None). */
  datatype Cell = Empty | Number(value: real) | Text(text: string)

  /** The active sheet: 1-based (row, column) to cell; a position not in the map is empty. */
  type Grid = map<(int, int), Cell>

  /** The value of the cell at a 1-based row and column; empty when nothing is stored there. */
  function At(g: Grid, row: int, col: int): Cell {
    if (row, col) in g then g[(row, col)] else Empty
  }

  /** Python's bool() on a cell value: None, 0 and "" are false. */
  predicate Truthy(c: Cell) {
    match c
    case Empty => false
    case Number(v) => v != 0.0
    case Text(s) => s != ""
  }

  /** Python's str() on a cell value. */
  function CellText(c: Cell): string {
    match c
    case Empty => "None"
    case Number(v) => ShowReal(v)
    case Text(s) => s
  }

  function DigitChar(d: nat): char
    requires d < 10
  {
    ('0' as int + d) as char
  }

  /** Decimal notation of a natural number, as str() writes an int. */
  function NatText(n: nat): (s: string)
    ensures |s| >= 1
    ensures forall i :: 0 <= i < |s| ==> '0' <= s[i] <= '9'
    ensures |s| > 1 ==> s[0] != '0'
  {
    if n < 10 then [DigitChar(n)] else NatText(n / 10) + [DigitChar(n % 10)]
  }

  /** Decimal notation of an integer, with a leading '-' when negative. */
  function IntText(n: int): string {
    if n < 0 then "-" + NatText(-n) else NatText(n)
  }

  /**
   * The text a number is shown with: an integral value in decimal notation,
   * any other value with its first two decimals (truncated).
   */
  function ShowReal(x: real): string {
    if x == x.Floor as real then IntText(x.Floor)
    else
      var a := if x < 0.0 then -x else x;
      var h: nat := ((a - a.Floor as real) * 100.0).Floor;
      (if x < 0.0 then "-" else "") + IntText(a.Floor) + "." + [DigitChar(h / 10 % 10), DigitChar(h % 10)]
  }
}
