/**
 * The cell-reference parser of the sheet dump (analyze_excel.py): a reference such as "AB12"
 * is split into its letters and its other characters, the letters are read as a bijective
 * base-26 column number and the rest as the row number; the dump sorts cells by the pair
 * (row, column).
 */
module CellRefs {
  import opened Wrappers
  import opened Cells
  import opened Text

  /** str.isalpha, on the ASCII letters. */
  predicate IsAlpha(c: char) {
    IsAsciiLetter(c)
  }

  /** The letters of a reference, in order. */
  function Letters(s: string): seq<char> {
    if s == [] then [] else Letters(s[..|s| - 1]) + (if IsAlpha(s[|s| - 1]) then [s[|s| - 1]] else [])
  }

  /** The characters of a reference that are not letters, in order. */
  function NonLetters(s: string): seq<char> {
    if s == [] then [] else NonLetters(s[..|s| - 1]) + (if IsAlpha(s[|s| - 1]) then [] else [s[|s| - 1]])
  }

  /** The column number: each letter shifts the number by one base-26 digit and adds its rank, A counting 1. */
  function ColumnValue(col: string): int {
    if col == [] then 0 else ColumnValue(col[..|col| - 1]) * 26 + (col[|col| - 1] as int - 'A' as int + 1)
  }

  predicate IsDecimalDigit(c: char) {
    '0' <= c <= '9'
  }

  predicate AllDecimal(s: string) {
    forall i :: 0 <= i < |s| ==> IsDecimalDigit(s[i])
  }

  /** The value of a string of decimal digits. */
  function DecimalValue(s: string): nat
    requires AllDecimal(s)
  {
    if s == [] then 0 else DecimalValue(s[..|s| - 1]) * 10 + (s[|s| - 1] as int - '0' as int)
  }

  /** The row number: 0 for an empty row part, its decimal value for plain digits, and nothing where the conversion to an integer fails. */
  function RowValue(row: string): Option<int> {
    if row == [] then Some(0)
    else if AllDecimal(row) then Some(DecimalValue(row))
    else None
  }

  /** parse_cell_ref: (row, column), or None when int() rejects the row part. */
  function CellRef(ref: string): Option<(int, int)> {
    match RowValue(NonLetters(ref))
    case None => None
    case Some(row) => Some((row, ColumnValue(Letters(ref))))
  }

  /** The order sorted() puts the (row, column) keys in: by row, then by column. */
  predicate KeyBefore(a: (int, int), b: (int, int)) {
    a.0 < b.0 || (a.0 == b.0 && a.1 < b.1)
  }

  /** The A1 column name of a column number: the bijective base-26 numeral, A for 1, empty for 0. */
  function ColumnName(n: nat): string {
    if n == 0 then "" else ColumnName((n - 1) / 26) + [('A' as int + (n - 1) % 26) as char]
  }

  // ================================================================ the parser

  /** The two loops of parse_cell_ref, then int() on the row part. */
  method ParseCellRef(ref: string) returns (r: Option<(int, int)>)
    ensures r == CellRef(ref)
  {
    var col, row := "", "";
    for i := 0 to |ref|
      invariant col == Letters(ref[..i]) && row == NonLetters(ref[..i])
    {
      assert ref[..i + 1][..i] == ref[..i];
      if IsAlpha(ref[i]) {
        col := col + [ref[i]];
      } else {
        row := row + [ref[i]];
      }
    }
    assert ref[..|ref|] == ref;
    var colNum := 0;
    for i := 0 to |col|
      invariant colNum == ColumnValue(col[..i])
    {
      assert col[..i + 1][..i] == col[..i];
      colNum := colNum * 26 + (col[i] as int - 'A' as int + 1);
    }
    assert col[..|col|] == col;
    match RowValue(row)
    case None => r := None;
    case Some(n) => r := Some((n, colNum));
  }

  // ================================================================ lemmas

  /**
   * Splitting distributes over concatenation, so how letters and other characters are
   * interleaved does not matter: each side keeps its characters in their relative order.
   */
  lemma {:induction false} SplitAppend(a: string, b: string)
    ensures Letters(a + b) == Letters(a) + Letters(b)
    ensures NonLetters(a + b) == NonLetters(a) + NonLetters(b)
    decreases |b|
  {
    if b == [] {
      assert a + b == a;
    } else {
      var init := b[..|b| - 1];
      assert (a + b)[..|a + b| - 1] == a + init;
      SplitAppend(a, init);
    }
  }

  /** Every character goes to exactly one side: as many characters as the reference has, the same ones. */
  lemma {:induction false} SplitPartition(s: string)
    ensures |Letters(s)| + |NonLetters(s)| == |s|
    ensures multiset(Letters(s)) + multiset(NonLetters(s)) == multiset(s)
  {
    if s != [] {
      SplitPartition(s[..|s| - 1]);
      MultisetSnoc(s);
    }
  }

  lemma MultisetSnoc(s: string)
    requires s != []
    ensures multiset(s) == multiset(s[..|s| - 1]) + multiset{s[|s| - 1]}
  {
    assert s == s[..|s| - 1] + [s[|s| - 1]];
  }

  /** The column side holds only letters and the row side none. */
  lemma {:induction false} SplitClasses(s: string)
    ensures forall c :: c in Letters(s) ==> IsAlpha(c) && c in s
    ensures forall c :: c in NonLetters(s) ==> !IsAlpha(c) && c in s
    ensures forall c :: c in s && IsAlpha(c) ==> c in Letters(s)
  {
    if s != [] {
      var init := s[..|s| - 1];
      SplitClasses(init);
      assert forall c :: c in s <==> c in init || c == s[|s| - 1] by {
        assert s == init + [s[|s| - 1]];
      }
    }
  }

  /** A string with no letter is all row; a string of letters is all column. */
  lemma {:induction false} SplitPure(s: string)
    ensures (forall i :: 0 <= i < |s| ==> !IsAlpha(s[i])) ==> Letters(s) == [] && NonLetters(s) == s
    ensures (forall i :: 0 <= i < |s| ==> IsAlpha(s[i])) ==> Letters(s) == s && NonLetters(s) == []
  {
    if s != [] {
      var init, c := s[..|s| - 1], s[|s| - 1];
      SplitPure(init);
      SnocParts(s);
    }
  }

  lemma SnocParts(s: string)
    requires s != []
    ensures s == s[..|s| - 1] + [s[|s| - 1]]
  {
  }

  /** A reference without letters has column 0; one without other characters has row 0. */
  lemma NoLettersNoRow(ref: string)
    ensures (forall i :: 0 <= i < |ref| ==> !IsAlpha(ref[i])) ==> CellRef(ref) == match RowValue(ref) case None => None case Some(row) => Some((row, 0))
    ensures (forall i :: 0 <= i < |ref| ==> IsAlpha(ref[i])) ==> CellRef(ref) == Some((0, ColumnValue(ref)))
  {
    SplitPure(ref);
  }

  /** A, Z and AA name columns 1, 26 and 27. */
  lemma ColumnExamples()
    ensures ColumnValue("A") == 1 && ColumnValue("Z") == 26 && ColumnValue("AA") == 27
  {
    assert "AA"[..1] == "A";
  }

  /** A non-empty run of capital letters names a column of at least 1. */
  lemma {:induction false} CapitalsPositive(col: string)
    requires forall i :: 0 <= i < |col| ==> IsAsciiUpper(col[i])
    ensures col != [] <==> ColumnValue(col) >= 1
    ensures ColumnValue(col) >= 0
  {
    if col != [] {
      CapitalsPositive(col[..|col| - 1]);
    }
  }

  /** For a reference of capital letters and digits, the column is at least 1 exactly when it holds a letter. */
  lemma ColumnPresentIff(ref: string)
    requires forall i :: 0 <= i < |ref| ==> IsAsciiUpper(ref[i]) || IsDecimalDigit(ref[i])
    ensures CellRef(ref).Some? ==>
      (CellRef(ref).value.1 >= 1 <==> exists i :: 0 <= i < |ref| && IsAsciiUpper(ref[i]))
  {
    SplitClasses(ref);
    var letters := Letters(ref);
    assert forall i :: 0 <= i < |letters| ==> IsAsciiUpper(letters[i]) by {
      forall i | 0 <= i < |letters| ensures IsAsciiUpper(letters[i]) {
        assert letters[i] in letters;
      }
    }
    CapitalsPositive(letters);
    if exists i :: 0 <= i < |ref| && IsAsciiUpper(ref[i]) {
      var i :| 0 <= i < |ref| && IsAsciiUpper(ref[i]);
      assert ref[i] in ref && IsAlpha(ref[i]);
    }
    if letters != [] {
      assert letters[0] in letters;
      var i :| 0 <= i < |ref| && ref[i] == letters[0];
      assert IsAsciiUpper(ref[i]);
    }
  }

  /** The column name of a number reads back as that number. */
  lemma {:induction false} ColumnNameRoundTrip(n: nat)
    ensures ColumnValue(ColumnName(n)) == n
    ensures forall i :: 0 <= i < |ColumnName(n)| ==> IsAsciiUpper(ColumnName(n)[i])
  {
    if n > 0 {
      var q, d := (n - 1) / 26, (n - 1) % 26;
      ColumnNameRoundTrip(q);
      var name := ColumnName(n);
      assert name[..|name| - 1] == ColumnName(q);
      assert n == q * 26 + d + 1;
    }
  }

  /** A run of capital letters is the column name of the number it reads as: the numbering is bijective. */
  lemma {:induction false} ColumnValueRoundTrip(col: string)
    requires forall i :: 0 <= i < |col| ==> IsAsciiUpper(col[i])
    ensures ColumnValue(col) >= 0
    ensures ColumnName(ColumnValue(col)) == col
  {
    CapitalsPositive(col);
    if col != [] {
      var init := col[..|col| - 1];
      var d := col[|col| - 1] as int - 'A' as int;
      ColumnValueRoundTrip(init);
      var v := ColumnValue(col);
      assert v - 1 == ColumnValue(init) * 26 + d;
      assert (v - 1) / 26 == ColumnValue(init) && (v - 1) % 26 == d by {
        DivModUnique(v - 1, ColumnValue(init), d);
      }
      assert ColumnName(v) == ColumnName(ColumnValue(init)) + [col[|col| - 1]];
      assert col == init + [col[|col| - 1]];
    }
  }

  /** Euclidean division is determined by its quotient and remainder. */
  lemma DivModUnique(x: int, q: int, r: int)
    requires 0 <= r < 26 && x == q * 26 + r
    ensures x / 26 == q && x % 26 == r
  {
  }

  /** The digits str() writes for a natural number read back as that number. */
  lemma {:induction false} NatTextRoundTrip(n: nat)
    ensures AllDecimal(NatText(n)) && DecimalValue(NatText(n)) == n
  {
    var s := NatText(n);
    if n >= 10 {
      NatTextRoundTrip(n / 10);
      assert s[..|s| - 1] == NatText(n / 10);
      assert DecimalValue(s) == DecimalValue(NatText(n / 10)) * 10 + n % 10;
    } else {
      assert s[..0] == [];
      assert DecimalValue(s) == s[0] as int - '0' as int;
    }
  }

  /** parse_cell_ref inverts the A1 notation: the column name followed by the row's digits. */
  lemma RefRoundTrip(row: nat, col: nat)
    ensures CellRef(ColumnName(col) + NatText(row)) == Some((row, col))
  {
    var name, digits := ColumnName(col), NatText(row);
    ColumnNameRoundTrip(col);
    NatTextRoundTrip(row);
    assert forall i :: 0 <= i < |name| ==> IsAlpha(name[i]);
    assert forall i :: 0 <= i < |digits| ==> !IsAlpha(digits[i]);
    SplitAppend(name, digits);
    SplitPure(name);
    SplitPure(digits);
    assert Letters(name + digits) == name && NonLetters(name + digits) == digits;
  }

  /** Cells sorted by key come row by row, each row from left to right: B1 comes before A2. */
  lemma RowMajor(keys: seq<(int, int)>)
    requires forall i, j :: 0 <= i < j < |keys| ==> !KeyBefore(keys[j], keys[i])
    ensures forall i, j :: 0 <= i < j < |keys| ==> keys[i].0 <= keys[j].0
    ensures forall i, j :: 0 <= i < j < |keys| && keys[i].0 == keys[j].0 ==> keys[i].1 <= keys[j].1
  {
  }

  /** Sort keys put references in row-major order: an earlier row first, then an earlier column. */
  lemma RefOrder(r1: nat, c1: nat, r2: nat, c2: nat)
    ensures CellRef(ColumnName(c1) + NatText(r1)).Some? && CellRef(ColumnName(c2) + NatText(r2)).Some?
    ensures KeyBefore(CellRef(ColumnName(c1) + NatText(r1)).value, CellRef(ColumnName(c2) + NatText(r2)).value)
      <==> r1 < r2 || (r1 == r2 && c1 < c2)
  {
    RefRoundTrip(r1, c1);
    RefRoundTrip(r2, c2);
  }

  lemma B1BeforeA2()
    ensures CellRef("B1") == Some((1, 2)) && CellRef("A2") == Some((2, 1))
    ensures KeyBefore(CellRef("B1").value, CellRef("A2").value)
  {
    RefRoundTrip(1, 2);
    RefRoundTrip(2, 1);
    assert ColumnName(2) == "B" && ColumnName(1) == "A";
    assert NatText(1) == "1" && NatText(2) == "2";
    assert ColumnName(2) + NatText(1) == "B1" && ColumnName(1) + NatText(2) == "A2";
  }

  /** AB12 is row 12, column 28. */
  lemma AB12()
    ensures CellRef("AB12") == Some((12, 28))
  {
    SplitAB12();
    ReadAB12();
  }

  lemma SplitAB12()
    ensures Letters("AB12") == "AB" && NonLetters("AB12") == "12"
  {
    assert "AB12"[..3] == "AB1" && "AB1"[..2] == "AB" && "AB"[..1] == "A" && "A"[..0] == "";
    assert Letters("A") == "A" && NonLetters("A") == "";
    assert Letters("AB") == "AB" && NonLetters("AB") == "";
    assert Letters("AB1") == "AB" && NonLetters("AB1") == "1";
  }

  lemma ReadAB12()
    ensures ColumnValue("AB") == 28 && RowValue("12") == Some(12)
  {
    assert "AB"[..1] == "A" && "12"[..1] == "1" && "1"[..0] == "";
    assert ColumnValue("A") == 1;
    assert AllDecimal("12");
    assert DecimalValue("1") == 1;
  }
}
