/**
 * The command-line validator (excel_validator_cli.py): the same rule families as the desktop
 * validator, with four differences. Every empty score cell is reported on its own. The sum
 * comparison needs all five result subjects. Each text is read from one cell, one row
 * higher, except 夏期講習提案理由, which stays at row 50. There is no success record;
 * the run ends by displaying the findings grouped by severity.
 */
module CliValidator {
  import opened Wrappers
  import opened Cells
  import opened Text
  import opened Findings
  import opened Rules

  // ================================================================ tables

  /** The sections whose length the command-line validator checks, each read from one cell. */
  const CliTextSections: seq<TextSection> := [
    TextSection("現在の学習課題", 17, 2, 100, 500),
    TextSection("課題に対する進捗状況", 17, 10, 100, 500),
    TextSection("今後の目標", 27, 2, 50, 300),
    TextSection("目標に向けた指導計画", 27, 10, 100, 500),
    TextSection("授業態度・意欲・遅刻等", 37, 2, 50, 400),
    TextSection("宿題について", 37, 10, 50, 400),
    TextSection("家庭学習アドバイス", 47, 2, 100, 500),
    TextSection("夏期講習提案理由", 50, 2, 50, 300)
  ]

  /** The cells the spelling check reads. */
  const CliTextCells: seq<(int, int)> := [(17, 2), (17, 10), (27, 2), (27, 10), (37, 2), (37, 10), (47, 2), (50, 2)]

  /** Where the content check finds each section's text. */
  const CliRowColMap: map<string, (int, int)> := map[
    "現在の学習課題" := (17, 2),
    "課題に対する進捗状況" := (17, 10),
    "今後の目標" := (27, 2),
    "目標に向けた指導計画" := (27, 10),
    "授業態度・意欲・遅刻等" := (37, 2),
    "宿題について" := (37, 10),
    "家庭学習アドバイス" := (47, 2)
  ]

  // ================================================================ scores

  /** The warning for a score cell that holds nothing. */
  function MissingScore(name: string): Finding {
    Finding(ScoreItem(name), MissingKind, Warning, name + "が入力されていません")
  }

  /** One score cell: nothing is a warning, a number is range-checked, a text is ignored. */
  function CellFinding(name: string, c: Cell): seq<Finding> {
    if c.Empty? then [MissingScore(name)] else RangeFinding(name, c)
  }

  /** The findings of a run of catalog entries, entry after entry. */
  function CellFindings(g: Grid, cells: seq<ScoreCell>): seq<Finding> {
    if cells == [] then []
    else
      var cell := cells[|cells| - 1];
      CellFindings(g, cells[..|cells| - 1]) + CellFinding(cell.name, At(g, cell.row, cell.col))
  }

  /** The sum comparison runs only when all five result subjects hold truthy numbers. */
  function CliSumCheck(g: Grid): seq<Finding> {
    var vals := ResultSubjects(g, 8);
    if |vals| == 5 then SumFinding(vals, Total(g)) else []
  }

  /** The comparison is reached and the total is a non-empty text: the subtraction raises. */
  predicate CliSumRaises(g: Grid) {
    |ResultSubjects(g, 8)| == 5 && TotalFaults(Total(g))
  }

  /** What validate_test_scores appends when it returns normally. */
  function CliScoreFindings(g: Grid): seq<Finding> {
    CellFindings(g, ScoreCells) + CliSumCheck(g)
  }

  // ================================================================ texts

  /** The value a text check reads from a cell: nothing when the cell is falsy, else its str(). */
  function CellContent(c: Cell): Option<string> {
    if Truthy(c) then Some(CellText(c)) else None
  }

  function CliLengthAt(g: Grid, s: TextSection): seq<Finding> {
    LengthFinding(s.name, CellContent(At(g, s.row, s.col)), s.minLength, s.maxLength)
  }

  function CliLengthFindings(g: Grid, sections: seq<TextSection>): seq<Finding> {
    if sections == [] then []
    else CliLengthFindings(g, sections[..|sections| - 1]) + CliLengthAt(g, sections[|sections| - 1])
  }

  /** The spelling findings of one cell, on its unstripped text; a falsy cell is skipped. */
  function CliSpellAt(g: Grid, row: int, col: int): seq<Finding> {
    var c := At(g, row, col);
    if Truthy(c) then SpellingFindings(SpellingItem(row, col), CellText(c)) else []
  }

  function CliSpellFindings(g: Grid, cells: seq<(int, int)>): seq<Finding> {
    if cells == [] then []
    else CliSpellFindings(g, cells[..|cells| - 1]) + CliSpellAt(g, cells[|cells| - 1].0, cells[|cells| - 1].1)
  }

  /** The content findings of one rule, on its cell's stripped text; skipped without a location or when falsy. */
  function CliContentAt(g: Grid, rule: ContentRule): seq<Finding> {
    if rule.name !in CliRowColMap then []
    else
      var c := At(g, CliRowColMap[rule.name].0, CliRowColMap[rule.name].1);
      if Truthy(c) then ContentFindings(rule, Strip(CellText(c))) else []
  }

  function CliContentFindings(g: Grid, rules: seq<ContentRule>): seq<Finding> {
    if rules == [] then []
    else CliContentFindings(g, rules[..|rules| - 1]) + CliContentAt(g, rules[|rules| - 1])
  }

  // ================================================================ a run

  /** The findings of the selected checks, in the order validate_file runs them. */
  function CliChecked(g: Grid, checks: Checks): seq<Finding> {
    (if checks.scores then CliScoreFindings(g) else []) + CliTextChecked(g, checks)
  }

  /** The findings of the selected text checks: lengths, then spelling, then content. */
  function CliTextChecked(g: Grid, checks: Checks): seq<Finding> {
    (if checks.textLength then CliLengthFindings(g, CliTextSections) else [])
    + (if checks.spelling then CliSpellFindings(g, CliTextCells) else [])
    + (if checks.content then CliContentFindings(g, ContentRules) else [])
  }

  /** The score check raises: validate_file reports the exception and returns False. */
  predicate CliAborts(g: Grid, checks: Checks) {
    checks.scores && CliSumRaises(g)
  }

  /** The list after validate_file. */
  function CliRunFindings(g: Grid, checks: Checks): seq<Finding> {
    if CliAborts(g, checks) then CellFindings(g, ScoreCells) else CliChecked(g, checks)
  }

  /**
   * What display_results shows: that nothing was found, or the three counts followed by the
   * errors, the warnings and the informations, each group in generation order.
   */
  datatype Report =
    | NoProblems
    | Summary(errors: nat, warnings: nat, infos: nat, errorList: seq<Finding>, warningList: seq<Finding>, infoList: seq<Finding>)

  // ================================================================ the validator

  /** The per-cell loop over the score catalog. */
  method CheckScoreCells(g: Grid, cells: seq<ScoreCell>) returns (found: seq<Finding>)
    ensures found == CellFindings(g, cells)
  {
    found := [];
    for i := 0 to |cells|
      invariant found == CellFindings(g, cells[..i])
    {
      var cell := cells[i];
      var value := At(g, cell.row, cell.col);
      if value.Empty? {
        found := found + [MissingScore(cell.name)];
      } else {
        found := found + RangeFinding(cell.name, value);
      }
      assert cells[..i + 1][..i] == cells[..i];
    }
    assert cells[..|cells|] == cells;
  }

  /** One pass of the text-length loop: the cell's text judged against the section's bounds. */
  method CheckCellLength(g: Grid, s: TextSection) returns (found: seq<Finding>)
    ensures found == CliLengthAt(g, s)
  {
    var content := At(g, s.row, s.col);
    if !Truthy(content) {
      found := LengthFinding(s.name, None, s.minLength, s.maxLength);
    } else {
      found := LengthFinding(s.name, Some(CellText(content)), s.minLength, s.maxLength);
    }
  }

  /** The text-length loop over the section table: each section's finding, section after section. */
  method CollectLengths(g: Grid, sections: seq<TextSection>) returns (all: seq<Finding>)
    ensures all == CliLengthFindings(g, sections)
  {
    all := [];
    for i := 0 to |sections|
      invariant all == CliLengthFindings(g, sections[..i])
    {
      var found := CheckCellLength(g, sections[i]);
      all := all + found;
      assert sections[..i + 1][..i] == sections[..i];
    }
    assert sections[..|sections|] == sections;
  }

  /** The spelling loop over the spelling cells: each truthy cell's findings, cell after cell. */
  method CollectSpelling(g: Grid, textCells: seq<(int, int)>) returns (all: seq<Finding>)
    ensures all == CliSpellFindings(g, textCells)
  {
    all := [];
    for i := 0 to |textCells|
      invariant all == CliSpellFindings(g, textCells[..i])
    {
      var (row, col) := textCells[i];
      var content := At(g, row, col);
      var found: seq<Finding> := [];
      if Truthy(content) {
        found := CheckSpelling(SpellingItem(row, col), CellText(content));
      }
      all := all + found;
      assert textCells[..i + 1][..i] == textCells[..i];
    }
    assert textCells[..|textCells|] == textCells;
  }

  /** One pass of the content loop: a located section's stripped text, when truthy, through the content checks. */
  method CheckCellContent(g: Grid, rule: ContentRule) returns (found: seq<Finding>)
    ensures found == CliContentAt(g, rule)
  {
    found := [];
    var rowColMap := CliRowColMap;
    if rule.name in rowColMap {
      var (row, col) := rowColMap[rule.name];
      var content := At(g, row, col);
      if Truthy(content) {
        found := CheckContent(rule, Strip(CellText(content)));
      }
    }
  }

  /** The content loop over the section rules: each rule's findings, rule after rule. */
  method CollectContent(g: Grid, sectionRules: seq<ContentRule>) returns (all: seq<Finding>)
    ensures all == CliContentFindings(g, sectionRules)
  {
    all := [];
    for i := 0 to |sectionRules|
      invariant all == CliContentFindings(g, sectionRules[..i])
    {
      var found := CheckCellContent(g, sectionRules[i]);
      all := all + found;
      assert sectionRules[..i + 1][..i] == sectionRules[..i];
    }
    assert sectionRules[..|sectionRules|] == sectionRules;
  }

  /** The three filtering loops of display_results, one per severity, each keeping generation order. */
  method Group(rs: seq<Finding>) returns (errorList: seq<Finding>, warningList: seq<Finding>, infoList: seq<Finding>)
    ensures errorList == OfSeverity(rs, Error)
    ensures warningList == OfSeverity(rs, Warning)
    ensures infoList == OfSeverity(rs, Info)
  {
    errorList := [];
    for i := 0 to |rs|
      invariant errorList == OfSeverity(rs[..i], Error)
    {
      assert rs[..i + 1][..i] == rs[..i];
      if rs[i].severity == Error {
        errorList := errorList + [rs[i]];
      }
    }
    warningList := [];
    for i := 0 to |rs|
      invariant warningList == OfSeverity(rs[..i], Warning)
    {
      assert rs[..i + 1][..i] == rs[..i];
      if rs[i].severity == Warning {
        warningList := warningList + [rs[i]];
      }
    }
    infoList := [];
    for i := 0 to |rs|
      invariant infoList == OfSeverity(rs[..i], Info)
    {
      assert rs[..i + 1][..i] == rs[..i];
      if rs[i].severity == Info {
        infoList := infoList + [rs[i]];
      }
    }
    assert rs[..|rs|] == rs;
  }

  class Validator {
    /** The findings recorded so far, in the order they were added. */
    var results: seq<Finding>

    constructor()
      ensures results == []
    {
      results := [];
    }

    method AddValidationResult(item: string, kind: string, severity: Severity, detail: string)
      modifies this
      ensures results == old(results) + [Finding(item, kind, severity, detail)]
    {
      results := results + [Finding(item, kind, severity, detail)];
    }

    /** Appends a rule's findings one by one through add_validation_result. */
    method AddAll(found: seq<Finding>)
      modifies this
      ensures results == old(results) + found
    {
      ghost var start := results;
      for k := 0 to |found|
        invariant results == start + found[..k]
      {
        AddValidationResult(found[k].item, found[k].kind, found[k].severity, found[k].detail);
        assert found[..k + 1] == found[..k] + [found[k]];
      }
      assert found[..|found|] == found;
    }

    /**
     * Reports every empty score cell and range-checks every numeric one, then compares the
     * five result subjects with the declared total. `raised` is the TypeError of a text total.
     */
    method ValidateTestScores(g: Grid) returns (raised: bool)
      modifies this
      ensures raised == CliSumRaises(g)
      ensures results == old(results) + (if raised then CellFindings(g, ScoreCells) else CliScoreFindings(g))
    {
      var found := CheckScoreCells(g, ScoreCells);
      AddAll(found);
      ghost var checked := results;
      var subjects := ReadResultSubjects(g);
      raised := false;
      if |subjects| == 5 {
        var total := At(g, 12, 8);
        if Truthy(total) {
          if total.Text? {
            raised := true;
            return;
          }
          AddAll(SumFinding(subjects, total));
        } else {
          assert SumFinding(subjects, total) == [];
        }
      }
      assert results == checked + CliSumCheck(g);
    }

    /** Checks the length of each section's single cell. */
    method ValidateTextSections(g: Grid)
      modifies this
      ensures results == old(results) + CliLengthFindings(g, CliTextSections)
    {
      var found := CollectLengths(g, CliTextSections);
      AddAll(found);
    }

    /** Runs the spelling checks on each truthy text cell. */
    method CheckSpellingErrors(g: Grid)
      modifies this
      ensures results == old(results) + CliSpellFindings(g, CliTextCells)
    {
      var found := CollectSpelling(g, CliTextCells);
      AddAll(found);
    }

    /** Applies each section rule that has a location to its cell, when the cell is truthy. */
    method ValidateContentAppropriateness(g: Grid)
      modifies this
      ensures results == old(results) + CliContentFindings(g, ContentRules)
    {
      var found := CollectContent(g, ContentRules);
      AddAll(found);
    }

    /**
     * display_results: nothing found when the list is empty; otherwise the counts of errors,
     * warnings and informations, and each group in the order the findings were generated.
     */
    method DisplayResults() returns (report: Report)
      ensures report.NoProblems? <==> results == []
      ensures report.Summary? ==>
        report.errors == CountOf(results, Error) && report.warnings == CountOf(results, Warning)
        && report.infos == CountOf(results, Info)
      ensures report.Summary? ==>
        report.errorList == OfSeverity(results, Error) && report.warningList == OfSeverity(results, Warning)
        && report.infoList == OfSeverity(results, Info)
    {
      if results == [] {
        return NoProblems;
      }
      var errors := CountSeverity(results, Error);
      var warnings := CountSeverity(results, Warning);
      var infos := CountSeverity(results, Info);
      var errorList, warningList, infoList := Group(results);
      report := Summary(errors, warnings, infos, errorList, warningList, infoList);
    }

    /** The selected text checks, in validate_file's order. */
    method RunTextChecks(g: Grid, checks: Checks)
      modifies this
      ensures results == old(results) + CliTextChecked(g, checks)
    {
      ghost var start := results;
      ghost var lengths: seq<Finding> := [];
      if checks.textLength {
        ValidateTextSections(g);
        lengths := CliLengthFindings(g, CliTextSections);
      }
      assert results == start + lengths;
      ghost var spelling: seq<Finding> := [];
      if checks.spelling {
        CheckSpellingErrors(g);
        spelling := CliSpellFindings(g, CliTextCells);
      }
      assert results == start + lengths + spelling;
      ghost var content: seq<Finding> := [];
      if checks.content {
        ValidateContentAppropriateness(g);
        content := CliContentFindings(g, ContentRules);
      }
      assert results == start + lengths + spelling + content;
      AppendAssoc(start, lengths, spelling, content);
      assert lengths + spelling + content == CliTextChecked(g, checks);
    }

    /**
     * validate_file's try block up to the display: resets the list and runs the selected
     * checks in order. `completed` is false when the score check raised, which skips the rest.
     */
    method RunChecks(g: Grid, checks: Checks) returns (completed: bool)
      modifies this
      ensures completed == !CliAborts(g, checks)
      ensures results == CliRunFindings(g, checks)
    {
      results := [];
      ghost var scores: seq<Finding> := [];
      if checks.scores {
        var raised := ValidateTestScores(g);
        if raised {
          assert results == CellFindings(g, ScoreCells);
          return false;
        }
        scores := CliScoreFindings(g);
      }
      assert results == scores;
      RunTextChecks(g, checks);
      assert results == scores + CliTextChecked(g, checks);
      completed := true;
    }

    /**
     * Resets the list, runs the selected checks in order and displays the findings. `ok` is
     * false when the score check raised: the handler returns False and nothing is displayed.
     */
    method ValidateFile(g: Grid, checks: Checks) returns (ok: bool, shown: Option<Report>)
      modifies this
      ensures ok == !CliAborts(g, checks)
      ensures results == CliRunFindings(g, checks)
      ensures shown.Some? <==> ok
      ensures shown.Some? ==> (shown.value.NoProblems? <==> results == [])
      ensures shown.Some? && shown.value.Summary? ==>
        shown.value.errorList == OfSeverity(results, Error) && shown.value.warningList == OfSeverity(results, Warning)
        && shown.value.infoList == OfSeverity(results, Info)
      ensures shown.Some? && shown.value.Summary? ==>
        shown.value.errors == CountOf(results, Error) && shown.value.warnings == CountOf(results, Warning)
        && shown.value.infos == CountOf(results, Info)
    {
      ok := RunChecks(g, checks);
      if !ok {
        return ok, None;
      }
      var report := DisplayResults();
      shown := Some(report);
    }
  }
}
