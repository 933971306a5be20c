/**
 * The desktop validator (excel_validator.py): one object holding the list of findings of
 * the current run. Each check reads the sheet and appends to that list; validate_file
 * resets it, runs the selected checks and ends with the summary, which appends a success
 * record when there is neither an error nor a warning. Text sections are read as a span
 * of four rows per column.
 */
module GuiValidator {
  import opened Wrappers
  import opened Cells
  import opened Text
  import opened Findings
  import opened Rules

  // ================================================================ tables

  const TextSections: seq<TextSection> := [
    TextSection("現在の学習課題", 18, 2, 100, 500),
    TextSection("課題に対する進捗状況", 18, 10, 100, 500),
    TextSection("今後の目標", 28, 2, 50, 300),
    TextSection("目標に向けた指導計画", 28, 10, 100, 500),
    TextSection("授業態度・意欲・遅刻等", 38, 2, 50, 400),
    TextSection("宿題について", 38, 10, 50, 400),
    TextSection("家庭学習アドバイス", 48, 2, 100, 500),
    TextSection("夏期講習提案理由", 50, 2, 50, 300)
  ]

  /** The cells the spelling check starts each span at: the first cell of each span. */
  const TextCells: seq<(int, int)> := [(18, 2), (18, 10), (28, 2), (28, 10), (38, 2), (38, 10), (48, 2), (50, 2)]

  /** Where the content check finds each section's text. */
  const RowColMap: map<string, (int, int)> := map[
    "現在の学習課題" := (18, 2),
    "課題に対する進捗状況" := (18, 10),
    "今後の目標" := (28, 2),
    "目標に向けた指導計画" := (28, 10),
    "授業態度・意欲・遅刻等" := (38, 2),
    "宿題について" := (38, 10),
    "家庭学習アドバイス" := (48, 2)
  ]

  /** Every text is read from this many rows, starting at its first cell. */
  const SpanRows := 4

  // ================================================================ scores

  /** The three kinds of subject score whose complete absence is reported. */
  datatype Category = Target | Result | Average

  /** The chain of label tests that decides which category flag, if any, a label raises. */
  function CategoryOf(name: string): Option<Category> {
    if Contains(name, "_目標") && !Contains(name, "合計") then Some(Target)
    else if Contains(name, "_結果") && !Contains(name, "合計") && !Contains(name, "順位") then Some(Result)
    else if Contains(name, "_平均") && !Contains(name, "合計") then Some(Average)
    else None
  }

  /** A catalog entry holds a number and its label sets the flag of the category. */
  predicate Sets(g: Grid, cell: ScoreCell, cat: Category) {
    At(g, cell.row, cell.col).Number? && CategoryOf(cell.name) == Some(cat)
  }

  /** Some of the catalog entries sets the flag of the category. */
  predicate Flagged(g: Grid, cat: Category, cells: seq<ScoreCell>) {
    exists k | 0 <= k < |cells| :: Sets(g, cells[k], cat)
  }

  /** A flag is raised after one more entry exactly when it was already raised or the entry raises it. */
  lemma FlaggedStep(g: Grid, cat: Category, cells: seq<ScoreCell>, i: nat)
    requires i < |cells|
    ensures Flagged(g, cat, cells[..i + 1]) <==> Flagged(g, cat, cells[..i]) || Sets(g, cells[i], cat)
  {
    if Flagged(g, cat, cells[..i + 1]) && !Sets(g, cells[i], cat) {
      var k :| 0 <= k < i + 1 && Sets(g, cells[..i + 1][k], cat);
      assert k < i && cells[..i][k] == cells[k];
    }
    if Sets(g, cells[i], cat) {
      assert cells[..i + 1][i] == cells[i];
    }
    if Flagged(g, cat, cells[..i]) {
      var k :| 0 <= k < i && Sets(g, cells[..i][k], cat);
      assert cells[..i + 1][k] == cells[k];
    }
  }

  /** The row of the sheet that holds the subject scores of a category. */
  function RowOf(cat: Category): int {
    match cat
    case Target => 10
    case Result => 12
    case Average => 14
  }

  /** Some subject column (3 to 7) of a row holds a number. */
  predicate HasNumberIn(g: Grid, row: int) {
    exists col | 3 <= col < 8 :: At(g, row, col).Number?
  }

  function CategoryWarning(cat: Category): Finding {
    match cat
    case Target => Finding("テストスコア - 目標点", MissingKind, Warning, "目標点が1教科も入力されていません")
    case Result => Finding("テストスコア - 結果", MissingKind, Warning, "テスト結果が1教科も入力されていません")
    case Average => Finding("テストスコア - 平均点", MissingKind, Warning, "平均点が1教科も入力されていません")
  }

  /** The warnings for the categories whose flag stayed down, in the order target, result, average. */
  function CategoryWarnings(g: Grid, cells: seq<ScoreCell>): seq<Finding> {
    (if Flagged(g, Target, cells) then [] else [CategoryWarning(Target)])
    + (if Flagged(g, Result, cells) then [] else [CategoryWarning(Result)])
    + (if Flagged(g, Average, cells) then [] else [CategoryWarning(Average)])
  }

  /** The sum comparison runs once at least one result subject holds a truthy number. */
  function SumCheck(g: Grid): seq<Finding> {
    var vals := ResultSubjects(g, 8);
    if |vals| >= 1 then SumFinding(vals, Total(g)) else []
  }

  /** The sum comparison is reached and the total is a non-empty text: the subtraction raises. */
  predicate SumRaises(g: Grid) {
    |ResultSubjects(g, 8)| >= 1 && TotalFaults(Total(g))
  }

  /** What validate_test_scores appends before the sum comparison. */
  function RangeAndCategory(g: Grid): seq<Finding> {
    RangeFindings(g, ScoreCells) + CategoryWarnings(g, ScoreCells)
  }

  /** What validate_test_scores appends when it returns normally. */
  function ScoreFindings(g: Grid): seq<Finding> {
    RangeAndCategory(g) + SumCheck(g)
  }

  // ================================================================ text spans

  /** The stripped text of each truthy cell among the first n rows of the span, top to bottom. */
  function SpanParts(g: Grid, row: int, col: int, n: nat): seq<string> {
    if n == 0 then []
    else
      var c := At(g, row + n - 1, col);
      SpanParts(g, row, col, n - 1) + (if Truthy(c) then [Strip(CellText(c))] else [])
  }

  /** The span's texts joined with single spaces, or nothing when no cell of it is truthy. */
  function SpanText(g: Grid, row: int, col: int): Option<string> {
    var parts := SpanParts(g, row, col, SpanRows);
    if parts == [] then None else Some(JoinWith(parts, " "))
  }

  /** The length finding of one section, judged on its span. */
  function LengthAt(g: Grid, s: TextSection): seq<Finding> {
    LengthFinding(s.name, SpanText(g, s.row, s.col), s.minLength, s.maxLength)
  }

  function LengthFindings(g: Grid, sections: seq<TextSection>): seq<Finding> {
    if sections == [] then []
    else LengthFindings(g, sections[..|sections| - 1]) + LengthAt(g, sections[|sections| - 1])
  }

  /** The spelling findings of the span starting at a cell; an empty span is skipped. */
  function SpellAt(g: Grid, row: int, col: int): seq<Finding> {
    match SpanText(g, row, col)
    case None => []
    case Some(text) => SpellingFindings(SpellingItem(row, col), text)
  }

  function SpellFindings(g: Grid, cells: seq<(int, int)>): seq<Finding> {
    if cells == [] then []
    else SpellFindings(g, cells[..|cells| - 1]) + SpellAt(g, cells[|cells| - 1].0, cells[|cells| - 1].1)
  }

  /** The content findings of one rule: skipped without a location or when the span is empty. */
  function ContentAt(g: Grid, rule: ContentRule): seq<Finding> {
    if rule.name !in RowColMap then []
    else
      match SpanText(g, RowColMap[rule.name].0, RowColMap[rule.name].1)
      case None => []
      case Some(text) => ContentFindings(rule, text)
  }

  function ContentFindingsIn(g: Grid, rules: seq<ContentRule>): seq<Finding> {
    if rules == [] then []
    else ContentFindingsIn(g, rules[..|rules| - 1]) + ContentAt(g, rules[|rules| - 1])
  }

  // ================================================================ a run

  const SuccessFinding := Finding("総合評価", "チェック完了", Success, "ファイルは概ね適切に作成されています")

  /** update_summary's effect on the list: the success record when there is no error and no warning. */
  function Summarize(rs: seq<Finding>): seq<Finding> {
    rs + (if CountOf(rs, Error) == 0 && CountOf(rs, Warning) == 0 then [SuccessFinding] else [])
  }

  /** The findings of the selected checks, in the order validate_file runs them. */
  function Checked(g: Grid, checks: Checks): seq<Finding> {
    (if checks.scores then ScoreFindings(g) else []) + TextChecked(g, checks)
  }

  /** The findings of the selected text checks: lengths, then spelling, then content. */
  function TextChecked(g: Grid, checks: Checks): seq<Finding> {
    (if checks.textLength then LengthFindings(g, TextSections) else [])
    + (if checks.spelling then SpellFindings(g, TextCells) else [])
    + (if checks.content then ContentFindingsIn(g, ContentRules) else [])
  }

  /** The score check raises, so validate_file reports the exception and skips the rest. */
  predicate Aborts(g: Grid, checks: Checks) {
    checks.scores && SumRaises(g)
  }

  /** The list after validate_file. */
  function RunFindings(g: Grid, checks: Checks): seq<Finding> {
    if Aborts(g, checks) then RangeAndCategory(g) else Summarize(Checked(g, checks))
  }

  // ================================================================ the validator

  /** The four cells of a span, read top to bottom; truthy ones are converted and stripped. */
  method ReadSpan(g: Grid, row: int, col: int) returns (parts: seq<string>)
    ensures parts == SpanParts(g, row, col, SpanRows)
  {
    parts := [];
    for offset := 0 to SpanRows
      invariant parts == SpanParts(g, row, col, offset)
    {
      var v := At(g, row + offset, col);
      assert SpanParts(g, row, col, offset + 1) == parts + (if Truthy(v) then [Strip(CellText(v))] else []);
      if Truthy(v) {
        parts := parts + [Strip(CellText(v))];
      }
    }
  }

  /** One pass of the text-length loop: the span's text, judged against the section's bounds. */
  method CheckSectionLength(g: Grid, s: TextSection) returns (found: seq<Finding>)
    ensures found == LengthAt(g, s)
  {
    var parts := ReadSpan(g, s.row, s.col);
    var content := if parts == [] then None else Some(JoinWith(parts, " "));
    found := LengthFinding(s.name, content, s.minLength, s.maxLength);
  }

  /** One pass of the spelling loop: the span's text, when there is one, through the spelling checks. */
  method CheckSpanSpelling(g: Grid, row: int, col: int) returns (found: seq<Finding>)
    ensures found == SpellAt(g, row, col)
  {
    var parts := ReadSpan(g, row, col);
    found := [];
    if parts != [] {
      found := CheckSpelling(SpellingItem(row, col), JoinWith(parts, " "));
    }
  }

  /** One pass of the content loop: a located section's text, when there is one, through the content checks. */
  method CheckSectionContent(g: Grid, rule: ContentRule) returns (found: seq<Finding>)
    ensures found == ContentAt(g, rule)
  {
    found := [];
    var rowColMap := RowColMap;
    if rule.name in rowColMap {
      var (row, col) := rowColMap[rule.name];
      var parts := ReadSpan(g, row, col);
      if parts != [] {
        found := CheckContent(rule, JoinWith(parts, " "));
      }
    }
  }

  /**
   * The range loop over the score catalog, noting which categories hold a number, followed by
   * the warning of each category that holds none.
   */
  method CheckScoreCells(g: Grid, cells: seq<ScoreCell>) returns (found: seq<Finding>)
    ensures found == RangeFindings(g, cells) + CategoryWarnings(g, cells)
  {
    found := [];
    var hasTarget, hasResult, hasAverage := false, false, false;
    for i := 0 to |cells|
      invariant hasTarget == Flagged(g, Target, cells[..i])
      invariant hasResult == Flagged(g, Result, cells[..i])
      invariant hasAverage == Flagged(g, Average, cells[..i])
      invariant found == RangeFindings(g, cells[..i])
    {
      var cell := cells[i];
      var value := At(g, cell.row, cell.col);
      if value.Number? {
        var cat := CategoryOf(cell.name);
        if cat == Some(Target) {
          hasTarget := true;
        } else if cat == Some(Result) {
          hasResult := true;
        } else if cat == Some(Average) {
          hasAverage := true;
        }
      }
      found := found + RangeFinding(cell.name, value);
      FlaggedStep(g, Target, cells, i);
      FlaggedStep(g, Result, cells, i);
      FlaggedStep(g, Average, cells, i);
      assert cells[..i + 1][..i] == cells[..i];
    }
    assert cells[..|cells|] == cells;
    var warnings := [];
    if !hasTarget {
      warnings := warnings + [CategoryWarning(Target)];
    }
    if !hasResult {
      warnings := warnings + [CategoryWarning(Result)];
    }
    if !hasAverage {
      warnings := warnings + [CategoryWarning(Average)];
    }
    assert warnings == CategoryWarnings(g, cells);
    found := found + warnings;
  }

  /** The text-length loop over a table of sections: each section's finding, section after section. */
  method CollectLengths(g: Grid, sections: seq<TextSection>) returns (all: seq<Finding>)
    ensures all == LengthFindings(g, sections)
  {
    all := [];
    for i := 0 to |sections|
      invariant all == LengthFindings(g, sections[..i])
    {
      var found := CheckSectionLength(g, sections[i]);
      all := all + found;
      assert sections[..i + 1][..i] == sections[..i];
    }
    assert sections[..|sections|] == sections;
  }

  /** The spelling loop over the span starts: each non-empty span's findings, span after span. */
  method CollectSpelling(g: Grid, cells: seq<(int, int)>) returns (all: seq<Finding>)
    ensures all == SpellFindings(g, cells)
  {
    all := [];
    for i := 0 to |cells|
      invariant all == SpellFindings(g, cells[..i])
    {
      var found := CheckSpanSpelling(g, cells[i].0, cells[i].1);
      all := all + found;
      assert cells[..i + 1][..i] == cells[..i];
    }
    assert cells[..|cells|] == cells;
  }

  /** The content loop over the section rules: each located, non-empty section's findings, in rule order. */
  method CollectContent(g: Grid, rules: seq<ContentRule>) returns (all: seq<Finding>)
    ensures all == ContentFindingsIn(g, rules)
  {
    all := [];
    for i := 0 to |rules|
      invariant all == ContentFindingsIn(g, rules[..i])
    {
      var found := CheckSectionContent(g, rules[i]);
      all := all + found;
      assert rules[..i + 1][..i] == rules[..i];
    }
    assert rules[..|rules|] == rules;
  }

  class Validator {
    /** The findings recorded so far, in the order they were added. */
    var results: seq<Finding>

    constructor()
      ensures results == []
    {
      results := [];
    }

    method AddValidationResult(item: string, kind: string, severity: Severity, detail: string)
      modifies this
      ensures results == old(results) + [Finding(item, kind, severity, detail)]
    {
      results := results + [Finding(item, kind, severity, detail)];
    }

    /** Appends a rule's findings one by one through add_validation_result. */
    method AddAll(found: seq<Finding>)
      modifies this
      ensures results == old(results) + found
    {
      ghost var start := results;
      for k := 0 to |found|
        invariant results == start + found[..k]
      {
        AddValidationResult(found[k].item, found[k].kind, found[k].severity, found[k].detail);
        assert found[..k + 1] == found[..k] + [found[k]];
      }
      assert found[..|found|] == found;
    }

    /**
     * Range-checks every numeric score, notes which categories hold a number, warns for each
     * category that holds none, then compares the result subjects with the declared total.
     * `raised` is the TypeError of a text total; the findings before it stay in the list.
     */
    method ValidateTestScores(g: Grid) returns (raised: bool)
      modifies this
      ensures raised == SumRaises(g)
      ensures raised ==> results == old(results) + RangeAndCategory(g)
      ensures !raised ==> results == old(results) + ScoreFindings(g)
    {
      var found := CheckScoreCells(g, ScoreCells);
      assert found == RangeAndCategory(g);
      AddAll(found);
      ghost var checked := results;

      var subjects := ReadResultSubjects(g);
      raised := false;
      if |subjects| >= 1 {
        var total := At(g, 12, 8);
        if Truthy(total) {
          if total.Text? {
            raised := true;
            return;
          }
          AddAll(SumFinding(subjects, total));
        } else {
          assert SumFinding(subjects, total) == [];
        }
      }
      assert results == checked + SumCheck(g);
    }

    /** Checks the length of each text section, read as a four-row span. */
    method ValidateTextSections(g: Grid)
      modifies this
      ensures results == old(results) + LengthFindings(g, TextSections)
    {
      var found := CollectLengths(g, TextSections);
      AddAll(found);
    }

    /** Runs the typo table, the repetition test and the punctuation test on each non-empty span. */
    method CheckSpellingErrors(g: Grid)
      modifies this
      ensures results == old(results) + SpellFindings(g, TextCells)
    {
      var found := CollectSpelling(g, TextCells);
      AddAll(found);
    }

    /** Applies each section rule that has a location to its span, when the span is not empty. */
    method ValidateContentAppropriateness(g: Grid)
      modifies this
      ensures results == old(results) + ContentFindingsIn(g, ContentRules)
    {
      var found := CollectContent(g, ContentRules);
      AddAll(found);
    }

    /** Counts the findings by severity and appends the success record when nothing is serious. */
    method UpdateSummary() returns (errors: nat, warnings: nat, infos: nat)
      modifies this
      ensures errors == CountOf(old(results), Error)
      ensures warnings == CountOf(old(results), Warning)
      ensures infos == CountOf(old(results), Info)
      ensures results == Summarize(old(results))
    {
      errors := CountSeverity(results, Error);
      warnings := CountSeverity(results, Warning);
      infos := CountSeverity(results, Info);
      if errors == 0 && warnings == 0 {
        AddValidationResult(SuccessFinding.item, SuccessFinding.kind, SuccessFinding.severity, SuccessFinding.detail);
      }
    }

    /** The text checks of validate_file's try block, each when selected, in order. */
    method RunTextChecks(g: Grid, checks: Checks)
      modifies this
      ensures results == old(results) + TextChecked(g, checks)
    {
      ghost var start := results;
      ghost var lengths: seq<Finding> := [];
      if checks.textLength {
        ValidateTextSections(g);
        lengths := LengthFindings(g, TextSections);
      }
      assert results == start + lengths;
      ghost var spelling: seq<Finding> := [];
      if checks.spelling {
        CheckSpellingErrors(g);
        spelling := SpellFindings(g, TextCells);
      }
      assert results == start + lengths + spelling;
      ghost var content: seq<Finding> := [];
      if checks.content {
        ValidateContentAppropriateness(g);
        content := ContentFindingsIn(g, ContentRules);
      }
      assert results == start + lengths + spelling + content;
      AppendAssoc(start, lengths, spelling, content);
      assert lengths + spelling + content == TextChecked(g, checks);
    }

    /**
     * validate_file's try block up to the summary: resets the list and runs the selected
     * checks in order. `completed` is false when the score check raised, which skips the rest.
     */
    method RunChecks(g: Grid, checks: Checks) returns (completed: bool)
      modifies this
      ensures completed == !Aborts(g, checks)
      ensures results == if completed then Checked(g, checks) else RangeAndCategory(g)
    {
      results := [];
      ghost var scores: seq<Finding> := [];
      if checks.scores {
        var raised := ValidateTestScores(g);
        if raised {
          assert results == RangeAndCategory(g);
          return false;
        }
        scores := ScoreFindings(g);
      }
      assert results == scores;
      RunTextChecks(g, checks);
      assert results == scores + TextChecked(g, checks);
      completed := true;
    }

    /**
     * Resets the list, runs the selected checks in order and summarises. `completed` is false
     * when the score check raised: the exception handler is reached and the summary is skipped.
     */
    method ValidateFile(g: Grid, checks: Checks) returns (completed: bool)
      modifies this
      ensures completed == !Aborts(g, checks)
      ensures results == RunFindings(g, checks)
    {
      completed := RunChecks(g, checks);
      if completed {
        var _, _, _ := UpdateSummary();
      }
    }
  }
}
