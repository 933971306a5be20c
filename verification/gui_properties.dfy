/**
 * What the desktop validator promises about a sheet: which labels raise which category flag,
 * when a category warning appears, when the sum comparison reports, how a span is read,
 * and when the run ends with the success record.
 */
module GuiProperties {
  import opened Wrappers
  import opened Cells
  import opened Text
  import opened Findings
  import opened Rules
  import opened GuiValidator

  // ================================================================ category flags

  /** A subject's labels: its target raises the target flag, its result and its average theirs. */
  lemma SubjectLabels(subject: string)
    requires PlainSubject(subject)
    ensures CategoryOf(subject + "_目標") == Some(Target)
    ensures CategoryOf(subject + "_結果") == Some(Result)
    ensures CategoryOf(subject + "_平均") == Some(Average)
  {
    var t, r, a := subject + "_目標", subject + "_結果", subject + "_平均";
    assert t[2..] == "_目標" && r[2..] == "_結果" && a[2..] == "_平均";
    assert forall k :: 0 <= k < 2 ==> t[k] == r[k] == a[k] == subject[k];
    Present(t, "_目標", 2);
    Absent(t, "合計", 0);
    Absent(r, "_目標", 1);
    Present(r, "_結果", 2);
    Absent(r, "合計", 0);
    Absent(r, "順位", 0);
    Absent(a, "_目標", 1);
    Absent(a, "_結果", 1);
    Present(a, "_平均", 2);
    Absent(a, "合計", 0);
  }

  /**
   * The category each catalog label raises: the five subjects of each row raise their
   * row's flag; the three totals and the rank raise none.
   */
  lemma CatalogCategory(k: nat)
    requires k < |ScoreCells|
    ensures CategoryOf(ScoreCells[k].name) ==
      if k < 5 then Some(Target) else if 6 <= k < 11 then Some(Result) else if 13 <= k < 18 then Some(Average) else None
  {
    if k < 5 {
      TargetCategories(k);
    } else if 6 <= k < 11 {
      ResultCategories(k);
    } else if 13 <= k < 18 {
      AverageCategories(k);
    } else {
      UnflaggedLabel(k);
    }
  }

  lemma TargetCategories(k: nat)
    requires k < 5
    ensures CategoryOf(ScoreCells[k].name) == Some(Target)
  {
    var subject := if k == 0 then "国語" else if k == 1 then "社会" else if k == 2 then "数学" else if k == 3 then "理科" else "英語";
    assert ScoreCells[k].name == subject + "_目標";
    SubjectLabels(subject);
  }

  lemma ResultCategories(k: nat)
    requires 6 <= k < 11
    ensures CategoryOf(ScoreCells[k].name) == Some(Result)
  {
    var subject := if k == 6 then "国語" else if k == 7 then "社会" else if k == 8 then "数学" else if k == 9 then "理科" else "英語";
    assert ScoreCells[k].name == subject + "_結果";
    SubjectLabels(subject);
  }

  lemma AverageCategories(k: nat)
    requires 13 <= k < 18
    ensures CategoryOf(ScoreCells[k].name) == Some(Average)
  {
    var subject := if k == 13 then "国語" else if k == 14 then "社会" else if k == 15 then "数学" else if k == 16 then "理科" else "英語";
    assert ScoreCells[k].name == subject + "_平均";
    SubjectLabels(subject);
  }

  /** 合計_目標, 合計_結果, 順位 and 合計_平均 raise no flag. */
  lemma UnflaggedLabel(k: nat)
    requires k == 5 || k == 11 || k == 12 || k == 18
    ensures CategoryOf(ScoreCells[k].name) == None
  {
    UnflaggedLabels();
  }

  lemma UnflaggedLabels()
    ensures CategoryOf("合計_目標") == None && CategoryOf("合計_結果") == None
    ensures CategoryOf("順位") == None && CategoryOf("合計_平均") == None
  {
    Present("合計_目標", "合計", 0); Absent("合計_目標", "_結果", 1); Absent("合計_目標", "_平均", 1);
    Absent("合計_結果", "_目標", 1); Present("合計_結果", "合計", 0); Absent("合計_結果", "_平均", 1);
    Absent("順位", "_目標", 0); Absent("順位", "_結果", 0); Absent("順位", "_平均", 0);
    Absent("合計_平均", "_目標", 1); Absent("合計_平均", "_結果", 1); Present("合計_平均", "合計", 0);
  }

  /**
   * A category's flag is raised exactly when one of its five subject cells (columns 3 to 7
   * of its row) holds a number, zero included; the total cells never raise it.
   */
  lemma FlaggedRow(g: Grid, cat: Category)
    ensures Flagged(g, cat, ScoreCells) <==> HasNumberIn(g, RowOf(cat))
  {
    if Flagged(g, cat, ScoreCells) {
      FlaggedOnlyFromRow(g, cat);
    }
    if HasNumberIn(g, RowOf(cat)) {
      RowRaisesFlag(g, cat);
    }
  }

  lemma FlaggedOnlyFromRow(g: Grid, cat: Category)
    requires Flagged(g, cat, ScoreCells)
    ensures HasNumberIn(g, RowOf(cat))
  {
    var k :| 0 <= k < |ScoreCells| && Sets(g, ScoreCells[k], cat);
    CatalogCategory(k);
    CatalogCells(k);
    assert 3 <= ScoreCells[k].col < 8 && At(g, RowOf(cat), ScoreCells[k].col).Number?;
  }

  lemma RowRaisesFlag(g: Grid, cat: Category)
    requires HasNumberIn(g, RowOf(cat))
    ensures Flagged(g, cat, ScoreCells)
  {
    var col :| 3 <= col < 8 && At(g, RowOf(cat), col).Number?;
    var k := match cat case Target => col - 3 case Result => col + 3 case Average => col + 10;
    CatalogCategory(k);
    CatalogCells(k);
    assert Sets(g, ScoreCells[k], cat);
  }

  /**
   * The category warnings, in the order target, result, average: one for each row whose
   * five subject cells hold no number.
   */
  lemma CategoryWarningsByRow(g: Grid)
    ensures CategoryWarnings(g, ScoreCells) ==
      (if HasNumberIn(g, 10) then [] else [CategoryWarning(Target)])
      + (if HasNumberIn(g, 12) then [] else [CategoryWarning(Result)])
      + (if HasNumberIn(g, 14) then [] else [CategoryWarning(Average)])
  {
    FlaggedRow(g, Target);
    FlaggedRow(g, Result);
    FlaggedRow(g, Average);
  }

  /** The category warnings are missing-score warnings. */
  lemma CategoryWarningsKind(g: Grid, cells: seq<ScoreCell>)
    ensures forall f :: f in CategoryWarnings(g, cells) ==> f.kind == MissingKind && f.severity == Warning
  {
    var a: seq<Finding> := if Flagged(g, Target, cells) then [] else [CategoryWarning(Target)];
    var b: seq<Finding> := if Flagged(g, Result, cells) then [] else [CategoryWarning(Result)];
    var c: seq<Finding> := if Flagged(g, Average, cells) then [] else [CategoryWarning(Average)];
    assert CategoryWarnings(g, cells) == a + b + c;
    forall f | f in a + b + c
      ensures f.kind == MissingKind && f.severity == Warning
    {
      assert f in a || f in b || f in c;
    }
  }

  /** A zero result keeps the result warning away: zero is a number, even though it is falsy. */
  lemma ZeroCountsAsPresent(g: Grid)
    requires At(g, 12, 5) == Number(0.0)
    ensures CategoryWarning(Result) !in CategoryWarnings(g, ScoreCells)
  {
    assert At(g, RowOf(Result), 5).Number?;
    CategoryWarningsByRow(g);
  }

  // ================================================================ range findings

  /** How many catalog entries hold a number outside their label's bound. */
  function OutOfRangeCount(g: Grid, cells: seq<ScoreCell>): nat {
    if cells == [] then 0
    else
      var cell := cells[|cells| - 1];
      var c := At(g, cell.row, cell.col);
      OutOfRangeCount(g, cells[..|cells| - 1]) + (if c.Number? && OutOfBounds(BoundOf(cell.name), c.value) then 1 else 0)
  }

  /**
   * The range findings are one error per out-of-bound number and nothing else: an empty or
   * textual cell never yields a range finding.
   */
  lemma {:induction false} RangeFindingsCount(g: Grid, cells: seq<ScoreCell>)
    ensures |RangeFindings(g, cells)| == OutOfRangeCount(g, cells)
    ensures forall f :: f in RangeFindings(g, cells) ==> f.kind == RangeKind && f.severity == Error
  {
    if cells != [] {
      var cell := cells[|cells| - 1];
      RangeFindingsCount(g, cells[..|cells| - 1]);
      RangeFindingSpec(cell.name, At(g, cell.row, cell.col));
    }
  }

  /** A sheet without numbers among the catalog cells yields no range finding. */
  lemma {:induction false} NoNumbersNoRangeFindings(g: Grid, cells: seq<ScoreCell>)
    requires forall k :: 0 <= k < |cells| ==> !At(g, cells[k].row, cells[k].col).Number?
    ensures RangeFindings(g, cells) == []
  {
    if cells != [] {
      NoNumbersNoRangeFindings(g, cells[..|cells| - 1]);
    }
  }

  /** An empty sheet gets exactly the three category warnings from the score check. */
  lemma EmptySheetScores()
    ensures ScoreFindings(map[]) == [CategoryWarning(Target), CategoryWarning(Result), CategoryWarning(Average)]
  {
    var g: Grid := map[];
    NoNumbersNoRangeFindings(g, ScoreCells);
    CategoryWarningsByRow(g);
    assert ResultSubjects(g, 8) == [];
  }

  // ================================================================ sum comparison

  /**
   * At most one sum error, raised exactly when some result subject holds a truthy number,
   * the declared total is a non-zero number and the two differ by more than 0.01.
   */
  lemma SumCheckSpec(g: Grid)
    ensures |SumCheck(g)| <= 1
    ensures SumCheck(g) != [] <==>
      |ResultSubjects(g, 8)| >= 1 && Truthy(Total(g)) && Total(g).Number?
      && Abs(Sum(ResultSubjects(g, 8)) - Total(g).value) > Tolerance
    ensures forall f :: f in SumCheck(g) ==> f.kind == SumKind && f.severity == Error
  {
    SumFindingSpec(ResultSubjects(g, 8), Total(g));
  }

  /** The five results of a sheet whose subject scores are 80, 75, 90, 60 and 70. */
  lemma SampleSubjects(g: Grid)
    requires At(g, 12, 3) == Number(80.0) && At(g, 12, 4) == Number(75.0) && At(g, 12, 5) == Number(90.0)
    requires At(g, 12, 6) == Number(60.0) && At(g, 12, 7) == Number(70.0)
    ensures ResultSubjects(g, 8) == [80.0, 75.0, 90.0, 60.0, 70.0]
  {
    assert ResultSubjects(g, 4) == [80.0];
    assert ResultSubjects(g, 5) == [80.0, 75.0];
    assert ResultSubjects(g, 6) == [80.0, 75.0, 90.0];
    assert ResultSubjects(g, 7) == [80.0, 75.0, 90.0, 60.0];
  }

  /** With those scores, a declared total of 375 passes and a declared total of 380 is one error. */
  lemma SampleSum(g: Grid)
    requires At(g, 12, 3) == Number(80.0) && At(g, 12, 4) == Number(75.0) && At(g, 12, 5) == Number(90.0)
    requires At(g, 12, 6) == Number(60.0) && At(g, 12, 7) == Number(70.0)
    requires Total(g) == Number(375.0) || Total(g) == Number(380.0)
    ensures Total(g) == Number(375.0) ==> SumCheck(g) == []
    ensures Total(g) == Number(380.0) ==> |SumCheck(g)| == 1
  {
    SampleSubjects(g);
    assert Sum([80.0, 75.0, 90.0, 60.0, 70.0]) == 375.0 by {
      assert Sum([80.0]) == 80.0;
      assert Sum([80.0, 75.0]) == 155.0 by { assert [80.0, 75.0][..1] == [80.0]; }
      assert Sum([80.0, 75.0, 90.0]) == 245.0 by { assert [80.0, 75.0, 90.0][..2] == [80.0, 75.0]; }
      assert Sum([80.0, 75.0, 90.0, 60.0]) == 305.0 by { assert [80.0, 75.0, 90.0, 60.0][..3] == [80.0, 75.0, 90.0]; }
      assert [80.0, 75.0, 90.0, 60.0, 70.0][..4] == [80.0, 75.0, 90.0, 60.0];
    }
    SumCheckSpec(g);
  }

  // ================================================================ spans

  /** A span reads nothing exactly when none of its cells is truthy. */
  lemma {:induction false} SpanPartsEmptyIff(g: Grid, row: int, col: int, n: nat)
    ensures SpanParts(g, row, col, n) == [] <==> forall r :: row <= r < row + n ==> !Truthy(At(g, r, col))
  {
    if n > 0 {
      SpanPartsEmptyIff(g, row, col, n - 1);
    }
  }

  /** A part with no whitespace at either end. */
  predicate Trimmed(p: string) {
    p == [] || (!IsSpace(p[0]) && !IsSpace(p[|p| - 1]))
  }

  /** Every part of a span is stripped, and there is at most one part per row. */
  lemma {:induction false} SpanPartsStripped(g: Grid, row: int, col: int, n: nat)
    ensures |SpanParts(g, row, col, n)| <= n
    ensures forall i :: 0 <= i < |SpanParts(g, row, col, n)| ==> Trimmed(SpanParts(g, row, col, n)[i])
  {
    if n > 0 {
      var init := SpanParts(g, row, col, n - 1);
      var c := At(g, row + n - 1, col);
      SpanPartsStripped(g, row, col, n - 1);
      if Truthy(c) {
        StripSpec(CellText(c));
        assert SpanParts(g, row, col, n) == init + [Strip(CellText(c))];
      } else {
        assert SpanParts(g, row, col, n) == init;
      }
    }
  }

  /** A span whose only truthy cell is its first reads that cell, stripped. */
  lemma SingleCellSpan(g: Grid, row: int, col: int)
    requires Truthy(At(g, row, col))
    requires forall r :: row < r < row + SpanRows ==> !Truthy(At(g, r, col))
    ensures SpanText(g, row, col) == Some(Strip(CellText(At(g, row, col))))
  {
    assert !Truthy(At(g, row + 1, col)) && !Truthy(At(g, row + 2, col)) && !Truthy(At(g, row + 3, col));
    assert SpanParts(g, row, col, 1) == [Strip(CellText(At(g, row, col)))];
    assert SpanParts(g, row, col, 2) == SpanParts(g, row, col, 1);
    assert SpanParts(g, row, col, 3) == SpanParts(g, row, col, 1);
    assert SpanParts(g, row, col, 4) == SpanParts(g, row, col, 1);
  }

  /**
   * A section is reported missing exactly when its span has no truthy cell, or a single one
   * that is blank once stripped; otherwise the stripped text is judged against the bounds.
   */
  lemma SectionLength(g: Grid, s: TextSection)
    ensures |LengthAt(g, s)| <= 1
    ensures (LengthAt(g, s) != [] && LengthAt(g, s)[0].kind == MissingKind && LengthAt(g, s)[0].severity == Error) <==>
      SpanParts(g, s.row, s.col, SpanRows) == [] || SpanParts(g, s.row, s.col, SpanRows) == [""]
    ensures LengthAt(g, s) == [] <==>
      !Blank(SpanText(g, s.row, s.col)) && s.minLength <= |Strip(SpanText(g, s.row, s.col).value)| <= s.maxLength
  {
    var parts := SpanParts(g, s.row, s.col, SpanRows);
    LengthFindingSpec(s.name, SpanText(g, s.row, s.col), s.minLength, s.maxLength);
    JoinEmptyIff(parts);
  }

  // ================================================================ the summary

  /**
   * update_summary keeps the list and appends exactly one success record when, and only when,
   * the list holds no error and no warning.
   */
  lemma SummarizeSpec(rs: seq<Finding>)
    ensures Summarize(rs)[..|rs|] == rs
    ensures |Summarize(rs)| == |rs| + (if CountOf(rs, Error) == 0 && CountOf(rs, Warning) == 0 then 1 else 0)
    ensures CountOf(Summarize(rs), Success) ==
      CountOf(rs, Success) + (if CountOf(rs, Error) == 0 && CountOf(rs, Warning) == 0 then 1 else 0)
  {
    var added := if CountOf(rs, Error) == 0 && CountOf(rs, Warning) == 0 then [SuccessFinding] else [];
    CountOfAppend(rs, added, Success);
  }

  /** The length findings never include a success record. */
  lemma {:induction false} LengthFindingsNoSuccess(g: Grid, sections: seq<TextSection>)
    ensures CountOf(LengthFindings(g, sections), Success) == 0
  {
    if sections != [] {
      var s := sections[|sections| - 1];
      LengthFindingsNoSuccess(g, sections[..|sections| - 1]);
      LengthFindingSpec(s.name, SpanText(g, s.row, s.col), s.minLength, s.maxLength);
      CountOfAppend(LengthFindings(g, sections[..|sections| - 1]), LengthAt(g, s), Success);
    }
  }

  /** The spelling findings never include a success record. */
  lemma {:induction false} SpellFindingsNoSuccess(g: Grid, cells: seq<(int, int)>)
    ensures CountOf(SpellFindings(g, cells), Success) == 0
  {
    if cells != [] {
      var (row, col) := cells[|cells| - 1];
      SpellFindingsNoSuccess(g, cells[..|cells| - 1]);
      if SpanText(g, row, col).Some? {
        SpellingCounts(SpellingItem(row, col), SpanText(g, row, col).value);
      }
      CountOfAppend(SpellFindings(g, cells[..|cells| - 1]), SpellAt(g, row, col), Success);
    }
  }

  /** The content findings never include a success record. */
  lemma {:induction false} ContentFindingsNoSuccess(g: Grid, rules: seq<ContentRule>)
    ensures CountOf(ContentFindingsIn(g, rules), Success) == 0
  {
    if rules != [] {
      var rule := rules[|rules| - 1];
      ContentFindingsNoSuccess(g, rules[..|rules| - 1]);
      if rule.name in RowColMap {
        var (row, col) := RowColMap[rule.name];
        if SpanText(g, row, col).Some? {
          ContentCounts(rule, SpanText(g, row, col).value);
        }
      }
      CountOfAppend(ContentFindingsIn(g, rules[..|rules| - 1]), ContentAt(g, rule), Success);
    }
  }

  /** The score check never yields a success record, whether it returns or raises. */
  lemma ScoreFindingsNoSuccess(g: Grid)
    ensures CountOf(RangeAndCategory(g), Success) == 0
    ensures CountOf(ScoreFindings(g), Success) == 0
  {
    var ranges, warnings, sum := RangeFindings(g, ScoreCells), CategoryWarnings(g, ScoreCells), SumCheck(g);
    RangeFindingsCount(g, ScoreCells);
    NoneOf(ranges, Success);
    CategoryWarningsKind(g, ScoreCells);
    NoneOf(warnings, Success);
    CountOfAppend(ranges, warnings, Success);
    SumCheckSpec(g);
    NoneOf(sum, Success);
    CountOfAppend(ranges + warnings, sum, Success);
  }

  /** The text checks never yield a success record. */
  lemma TextCheckedNoSuccess(g: Grid, checks: Checks)
    ensures CountOf(TextChecked(g, checks), Success) == 0
  {
    var b := if checks.textLength then LengthFindings(g, TextSections) else [];
    var c := if checks.spelling then SpellFindings(g, TextCells) else [];
    var d := if checks.content then ContentFindingsIn(g, ContentRules) else [];
    LengthFindingsNoSuccess(g, TextSections);
    SpellFindingsNoSuccess(g, TextCells);
    ContentFindingsNoSuccess(g, ContentRules);
    Counts3(b, c, d);
  }

  /** Only the summary adds a success record: the selected checks' findings hold none. */
  lemma CheckedNoSuccess(g: Grid, checks: Checks)
    ensures CountOf(Checked(g, checks), Success) == 0
  {
    var a := if checks.scores then ScoreFindings(g) else [];
    ScoreFindingsNoSuccess(g);
    TextCheckedNoSuccess(g, checks);
    CountOfAppend(a, TextChecked(g, checks), Success);
  }

  /**
   * A run holds a success record exactly when it completes with no error and no warning
   * among the selected checks' findings, and then it holds exactly one, as its last record.
   */
  lemma RunSuccessIff(g: Grid, checks: Checks)
    ensures CountOf(RunFindings(g, checks), Success) ==
      if !Aborts(g, checks) && CountOf(Checked(g, checks), Error) == 0 && CountOf(Checked(g, checks), Warning) == 0 then 1 else 0
    ensures CountOf(RunFindings(g, checks), Success) == 1 ==> RunFindings(g, checks)[|RunFindings(g, checks)| - 1] == SuccessFinding
  {
    if Aborts(g, checks) {
      ScoreFindingsNoSuccess(g);
    } else {
      var rs := Checked(g, checks);
      CheckedNoSuccess(g, checks);
      SummarizeSpec(rs);
    }
  }
}
