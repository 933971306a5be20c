/**
 * What the command-line validator promises: which score cells are reported and why, when the
 * sum comparison reports, how a text cell is judged, that no run yields a success record, and
 * that the display shows every finding once, in its severity's group.
 */
module CliProperties {
  import opened Wrappers
  import opened Cells
  import opened Text
  import opened Findings
  import opened Rules
  import opened GuiValidator
  import opened CliValidator

  // ================================================================ scores

  /**
   * One score cell yields at most one finding: a missing-value warning exactly when it holds
   * nothing, a range error exactly when it holds an out-of-bound number, and nothing for a text.
   */
  lemma CellFindingSpec(name: string, c: Cell)
    ensures |CellFinding(name, c)| <= 1
    ensures (CellFinding(name, c) != [] && CellFinding(name, c)[0].kind == MissingKind) <==> c.Empty?
    ensures (CellFinding(name, c) != [] && CellFinding(name, c)[0].kind == RangeKind) <==>
      c.Number? && OutOfBounds(BoundOf(name), c.value)
    ensures c.Text? ==> CellFinding(name, c) == []
    ensures forall f :: f in CellFinding(name, c) ==> f.severity != Success && f.item == ScoreItem(name)
  {
    RangeFindingSpec(name, c);
  }

  /** Every empty catalog cell is reported on its own, in catalog order, totals and rank included. */
  lemma {:induction false} EmptyCellsReported(g: Grid, cells: seq<ScoreCell>)
    requires forall k :: 0 <= k < |cells| ==> At(g, cells[k].row, cells[k].col).Empty?
    ensures CellFindings(g, cells) == seq(|cells|, k requires 0 <= k < |cells| => MissingScore(cells[k].name))
  {
    if cells != [] {
      var init := cells[..|cells| - 1];
      EmptyCellsReported(g, init);
    }
  }

  /** An empty sheet gets one missing-value warning per catalog entry, nineteen in all, and no sum error. */
  lemma EmptySheetScores()
    ensures CliScoreFindings(map[]) == seq(|ScoreCells|, k requires 0 <= k < |ScoreCells| => MissingScore(ScoreCells[k].name))
    ensures |CliScoreFindings(map[])| == 19
  {
    EmptyCellsReported(map[], ScoreCells);
    assert ResultSubjects(map[], 8) == [];
  }

  /**
   * At most one sum error, raised exactly when all five result subjects hold truthy numbers,
   * the declared total is a non-zero number and the two differ by more than 0.01.
   */
  lemma CliSumCheckSpec(g: Grid)
    ensures |CliSumCheck(g)| <= 1
    ensures CliSumCheck(g) != [] <==>
      |ResultSubjects(g, 8)| == 5 && Truthy(Total(g)) && Total(g).Number?
      && Abs(Sum(ResultSubjects(g, 8)) - Total(g).value) > Tolerance
    ensures forall f :: f in CliSumCheck(g) ==> f.kind == SumKind && f.severity == Error
  {
    SumFindingSpec(ResultSubjects(g, 8), Total(g));
  }

  /**
   * The two entry points disagree on a sheet with a result subject missing: the desktop
   * validator compares the four present subjects with the total, the command line does not.
   */
  lemma SumNeedsAllFive(g: Grid)
    requires |ResultSubjects(g, 8)| == 4
    requires Total(g).Number? && Total(g).value != 0.0 && Abs(Sum(ResultSubjects(g, 8)) - Total(g).value) > Tolerance
    ensures |SumCheck(g)| == 1 && CliSumCheck(g) == []
  {
    SumFindingSpec(ResultSubjects(g, 8), Total(g));
  }

  // ================================================================ texts

  /** str() of a truthy cell is never empty. */
  lemma TruthyText(c: Cell)
    requires Truthy(c)
    ensures CellText(c) != ""
  {
    if c.Number? {
      var x := c.value;
      if x == x.Floor as real {
        assert |NatText(if x.Floor < 0 then -x.Floor else x.Floor)| >= 1;
      }
    }
  }

  /**
   * Each section yields at most one finding: a missing-text error exactly when its cell is
   * falsy, else a shortage warning when the stripped text is under the minimum, else an
   * excess information when it is over the maximum.
   */
  lemma CliSectionLength(g: Grid, s: TextSection)
    ensures |CliLengthAt(g, s)| <= 1
    ensures (CliLengthAt(g, s) != [] && CliLengthAt(g, s)[0].kind == MissingKind && CliLengthAt(g, s)[0].severity == Error) <==>
      !Truthy(At(g, s.row, s.col))
    ensures (CliLengthAt(g, s) != [] && CliLengthAt(g, s)[0].kind == ShortKind && CliLengthAt(g, s)[0].severity == Warning) <==>
      Truthy(At(g, s.row, s.col)) && |Strip(CellText(At(g, s.row, s.col)))| < s.minLength
    ensures (CliLengthAt(g, s) != [] && CliLengthAt(g, s)[0].kind == LongKind && CliLengthAt(g, s)[0].severity == Info) <==>
      Truthy(At(g, s.row, s.col)) && s.minLength <= |Strip(CellText(At(g, s.row, s.col)))| && |Strip(CellText(At(g, s.row, s.col)))| > s.maxLength
  {
    var c := At(g, s.row, s.col);
    if Truthy(c) {
      TruthyText(c);
    }
    LengthFindingSpec(s.name, CellContent(c), s.minLength, s.maxLength);
  }

  /** A cell holding only spaces is present but short: the strip happens after the truthiness test. */
  lemma BlankTextIsShort(g: Grid, s: TextSection)
    requires At(g, s.row, s.col) == Text(" ") && s.minLength > 0
    ensures CliLengthAt(g, s) != [] && CliLengthAt(g, s)[0].kind == ShortKind
  {
    assert Strip(" ") == "" by {
      StripSpec(" ");
      assert AllSpace(" ") by { assert IsSpace(' '); }
    }
    CliSectionLength(g, s);
  }

  // ================================================================ no success record

  lemma {:induction false} CellFindingsNoSuccess(g: Grid, cells: seq<ScoreCell>)
    ensures CountOf(CellFindings(g, cells), Success) == 0
  {
    if cells != [] {
      var cell := cells[|cells| - 1];
      CellFindingsNoSuccess(g, cells[..|cells| - 1]);
      CellFindingSpec(cell.name, At(g, cell.row, cell.col));
      NoneOf(CellFinding(cell.name, At(g, cell.row, cell.col)), Success);
      CountOfAppend(CellFindings(g, cells[..|cells| - 1]), CellFinding(cell.name, At(g, cell.row, cell.col)), Success);
    }
  }

  lemma {:induction false} CliLengthNoSuccess(g: Grid, sections: seq<TextSection>)
    ensures CountOf(CliLengthFindings(g, sections), Success) == 0
  {
    if sections != [] {
      var s := sections[|sections| - 1];
      CliLengthNoSuccess(g, sections[..|sections| - 1]);
      LengthFindingSpec(s.name, CellContent(At(g, s.row, s.col)), s.minLength, s.maxLength);
      CountOfAppend(CliLengthFindings(g, sections[..|sections| - 1]), CliLengthAt(g, s), Success);
    }
  }

  lemma {:induction false} CliSpellNoSuccess(g: Grid, cells: seq<(int, int)>)
    ensures CountOf(CliSpellFindings(g, cells), Success) == 0
  {
    if cells != [] {
      var (row, col) := cells[|cells| - 1];
      CliSpellNoSuccess(g, cells[..|cells| - 1]);
      SpellingCounts(SpellingItem(row, col), CellText(At(g, row, col)));
      CountOfAppend(CliSpellFindings(g, cells[..|cells| - 1]), CliSpellAt(g, row, col), Success);
    }
  }

  lemma {:induction false} CliContentNoSuccess(g: Grid, rules: seq<ContentRule>)
    ensures CountOf(CliContentFindings(g, rules), Success) == 0
  {
    if rules != [] {
      var rule := rules[|rules| - 1];
      CliContentNoSuccess(g, rules[..|rules| - 1]);
      if rule.name in CliRowColMap {
        var (row, col) := CliRowColMap[rule.name];
        ContentCounts(rule, Strip(CellText(At(g, row, col))));
      }
      CountOfAppend(CliContentFindings(g, rules[..|rules| - 1]), CliContentAt(g, rule), Success);
    }
  }

  /** The score check's findings hold no success record, whether or not the sum comparison runs. */
  lemma CliScoresNoSuccess(g: Grid)
    ensures CountOf(CliScoreFindings(g), Success) == 0
  {
    CellFindingsNoSuccess(g, ScoreCells);
    CliSumCheckSpec(g);
    NoneOf(CliSumCheck(g), Success);
    CountOfAppend(CellFindings(g, ScoreCells), CliSumCheck(g), Success);
  }

  /** The selected text checks' findings hold no success record. */
  lemma CliTextNoSuccess(g: Grid, checks: Checks)
    ensures CountOf(CliTextChecked(g, checks), Success) == 0
  {
    var b := if checks.textLength then CliLengthFindings(g, CliTextSections) else [];
    var c := if checks.spelling then CliSpellFindings(g, CliTextCells) else [];
    var d := if checks.content then CliContentFindings(g, ContentRules) else [];
    CliLengthNoSuccess(g, CliTextSections);
    CliSpellNoSuccess(g, CliTextCells);
    CliContentNoSuccess(g, ContentRules);
    Counts3(b, c, d);
  }

  /** No run of the command-line validator holds a success record, whatever checks are selected. */
  lemma CliNoSuccess(g: Grid, checks: Checks)
    ensures CountOf(CliRunFindings(g, checks), Success) == 0
  {
    CellFindingsNoSuccess(g, ScoreCells);
    if !CliAborts(g, checks) {
      var a := if checks.scores then CliScoreFindings(g) else [];
      CliScoresNoSuccess(g);
      CliTextNoSuccess(g, checks);
      CountOfAppend(a, CliTextChecked(g, checks), Success);
    }
  }

  // ================================================================ the display

  /**
   * Without success records, the three groups of the display partition the list: each finding
   * appears in the group of its severity, and the group sizes add up to the list's length.
   */
  lemma DisplayPartition(rs: seq<Finding>)
    requires CountOf(rs, Success) == 0
    ensures |OfSeverity(rs, Error)| + |OfSeverity(rs, Warning)| + |OfSeverity(rs, Info)| == |rs|
    ensures forall f :: f in rs ==>
      (f.severity == Error <==> f in OfSeverity(rs, Error))
      && (f.severity == Warning <==> f in OfSeverity(rs, Warning))
      && (f.severity == Info <==> f in OfSeverity(rs, Info))
    ensures forall f :: f in rs ==> f in OfSeverity(rs, Error) || f in OfSeverity(rs, Warning) || f in OfSeverity(rs, Info)
  {
    OfSeverityCounts(rs, Error);
    OfSeverityCounts(rs, Warning);
    OfSeverityCounts(rs, Info);
    SeveritiesPartition(rs);
    forall f | f in rs
      ensures f in OfSeverity(rs, Error) || f in OfSeverity(rs, Warning) || f in OfSeverity(rs, Info)
    {
      NoneOfSuccess(rs, f);
    }
  }

  /** A list that counts no success record holds none. */
  lemma {:induction false} NoneOfSuccess(rs: seq<Finding>, f: Finding)
    requires CountOf(rs, Success) == 0 && f in rs
    ensures f.severity != Success
  {
    var init := rs[..|rs| - 1];
    if f != rs[|rs| - 1] {
      assert f in init by { assert rs == init + [rs[|rs| - 1]]; }
      NoneOfSuccess(init, f);
    }
  }

  /** The display of a completed run shows every finding of the run, once, in its severity's group. */
  lemma RunFullyDisplayed(g: Grid, checks: Checks)
    ensures var rs := CliRunFindings(g, checks);
      CountOf(rs, Error) + CountOf(rs, Warning) + CountOf(rs, Info) == |rs|
  {
    CliNoSuccess(g, checks);
    SeveritiesPartition(CliRunFindings(g, checks));
  }
}
