# Report-sheet validator, modelled in Dafny

The system checks a cram-school progress report kept as an Excel sheet. The validator
reads fixed cells of the sheet and appends findings to a list. Each finding is an item, a
kind, a severity (エラー, 警告, 情報 or 成功) and a detail. There are four families of checks:

- test scores: out-of-range values, missing values, and the result subjects against the declared total;
- the length of each free-text section;
- spelling heuristics: a typo table, a character repeated four times, sparse 。;
- content heuristics: keywords, discouraged phrases, sentence count, digits in the goal sections.

There are two entry points with their own tables:

- The desktop validator (`excel_validator.py`) reads each text from a span of four rows.
  It reports a whole category of scores as missing only when none of its subjects holds a number.
  It compares the total with as few as one present subject.
  When there is no error and no warning, it ends with a success record.
- The command-line validator (`excel_validator_cli.py`) reads each text from one cell, one row higher, except 夏期講習提案理由, which both read from row 50.
  It reports every empty score cell.
  It compares the total only when all five subjects are present.
  It displays the findings grouped by severity.

A small dump script (`analyze_excel.py`) parses A1-style references into (row, column) keys
and prints cells sorted row by row.

## Modules

- `Wrappers`: the Option type.
- `Cells`: the sheet as a map from (row, column) to a cell. A cell is empty, a number or a text. The module also holds Python truthiness and `str()` of a cell.
- `Text`: `strip()` over Python's whitespace, `' '.join`, substring search, ASCII `lower()`, `re.split` on 。！？, the four-in-a-row repeat of `re.findall(r'(.)\1{3,}')`, `\d`.
- `Findings`: severities, findings, counting and filtering by severity.
- `Rules`: the shared tables (score catalog, typo table, section rules) and each rule as a function from what it inspects to the findings it appends.
- `GuiValidator`, `GuiProperties`: the desktop validator class and what is proved about it.
- `CliValidator`, `CliProperties`: the command-line validator class and what is proved about it.
- `CellRefs`: `parse_cell_ref` and the sort key.

Each validator is a class whose `results` field is the list `validation_results`; its
methods append to it. Each rule loop is a method proved equal to a recursive function over
the table, and the properties are lemmas about those functions. The sheet is a parameter.
Opening the workbook is not modelled.

## Model

| member | source | states |
|---|---|---|
| CellRefs.CellRef | analyze_excel.py:6-19 | Defined by its body: the letters read as a base-26 column, the other characters as the row, 0 for an absent part; characterized by `CellRefs.RefRoundTrip` and `CellRefs.ParseCellRef` |
| CellRefs.ColumnValue | analyze_excel.py:15-17 | Defined by its body: capitals read as a base-26 number with A as 1; characterized by `CellRefs.ColumnValueRoundTrip` |
| CellRefs.ParseCellRef | analyze_excel.py:6-19 | The two loops and `int(row) if row else 0` compute exactly `CellRef`: the letters read as a base-26 column, the other characters as the row, and `None` when `int()` would raise |
| CellRefs.Letters | analyze_excel.py:9-11 | Defined by its body: the letters of the reference, in order; characterized by `CellRefs.SplitClasses` and `CellRefs.SplitPartition` |
| CellRefs.NonLetters | analyze_excel.py:9-13 | Defined by its body: the other characters, in order; characterized by `CellRefs.SplitClasses` and `CellRefs.SplitPartition` |
| CellRefs.SplitAppend | analyze_excel.py:9-13 | Splitting a reference into letters and other characters distributes over concatenation |
| CellRefs.SplitPartition | analyze_excel.py:9-13 | The letters and the other characters together are a permutation of the reference: no character is lost or duplicated |
| CellRefs.SplitClasses | analyze_excel.py:9-13 | The column part holds only letters of the reference, the row part only non-letters, and every letter of the reference lands in the column part |
| CellRefs.SplitPure | analyze_excel.py:9-13 | A reference with no letters is all row; one made only of letters is all column |
| CellRefs.RowValue | analyze_excel.py:19 | Defined by its body: 0 for an empty row part, the decimal value of plain digits, nothing where `int()` fails; characterized by `CellRefs.NoLettersNoRow` and `CellRefs.NatTextRoundTrip` |
| CellRefs.DecimalValue | analyze_excel.py:19 | Defined by its body; characterized by `CellRefs.NatTextRoundTrip` |
| CellRefs.NoLettersNoRow | analyze_excel.py:15-19 | Without letters the column is 0; without other characters the row is 0 |
| CellRefs.ColumnExamples | analyze_excel.py:15-17 | A, Z and AA are columns 1, 26 and 27 |
| CellRefs.CapitalsPositive | analyze_excel.py:15-17 | A run of capitals reads as a column of at least 1 exactly when it is non-empty |
| CellRefs.ColumnPresentIff | analyze_excel.py:6-19 | For a reference of capitals and digits that parses, the column is at least 1 exactly when a letter is present |
| CellRefs.ColumnName | analyze_excel.py:15-17 | Defined by its body: the bijective base-26 numeral of a column; characterized by `CellRefs.ColumnNameRoundTrip` and `CellRefs.ColumnValueRoundTrip` |
| CellRefs.ColumnNameRoundTrip | analyze_excel.py:15-17 | The column name of any natural number reads back as that number and is all capitals |
| CellRefs.ColumnValueRoundTrip | analyze_excel.py:15-17 | Every run of capitals is the column name of the number it reads as, so the column numbering is a bijection |
| CellRefs.NatTextRoundTrip | analyze_excel.py:19 | The decimal digits of a natural number read back through `int()` as that number |
| CellRefs.RefRoundTrip | analyze_excel.py:6-19 | Parsing a column name followed by the row's digits gives back (row, column) |
| CellRefs.KeyBefore | analyze_excel.py:74 | Defined by its body: the tuple order on (row, column); characterized by `CellRefs.RefOrder` and `CellRefs.RowMajor` |
| CellRefs.RefOrder | analyze_excel.py:74 | Between any two references built from a column and a row, the key puts first the one with the earlier row, and within a row the earlier column |
| CellRefs.RowMajor | analyze_excel.py:74 | A list sorted by the (row, column) key has non-decreasing rows, and within a row non-decreasing columns |
| CellRefs.B1BeforeA2 | analyze_excel.py:74 | B1 parses to (1, 2), A2 to (2, 1), and B1 sorts before A2 |
| CellRefs.AB12 | analyze_excel.py:6-19 | AB12 parses to row 12, column 28 |
| CellRefs.SplitAB12 | analyze_excel.py:9-13 | AB12 splits into AB and 12 |
| CellRefs.ReadAB12 | analyze_excel.py:15-19 | AB reads as column 28 and 12 as row 12 |
| Cells.Truthy | excel_validator.py:365 | Defined by its body: an empty cell, 0 and the empty text are false; characterized by `CliProperties.TruthyText` and `GuiProperties.ZeroCountsAsPresent` |
| Cells.CellText | excel_validator.py:366 | Defined by its body: `str()` of a cell; characterized by `CliProperties.TruthyText` |
| Cells.ShowReal | excel_validator.py:366 | Defined by its body: integral values in decimal notation, others with two truncated decimals; characterized by `Cells.NatText` |
| Cells.NatText | excel_validator.py:366 | `str()` of a natural number is a non-empty run of digits with no leading zero |
| Text.Strip | excel_validator.py:366 | Defined by its body; characterized by `Text.StripSpec` and `Text.StripEmptyIff` |
| Text.LStrip | excel_validator.py:366 | Defined by its body; characterized by `Text.LStripSpec` |
| Text.RStrip | excel_validator.py:366 | Defined by its body; characterized by `Text.RStripSpec` |
| Text.LStripSpec | excel_validator.py:366 | Left stripping removes a prefix made only of whitespace and leaves a text that is empty or starts with a non-space |
| Text.RStripSpec | excel_validator.py:366 | Right stripping removes a suffix made only of whitespace and leaves a text that is empty or ends with a non-space |
| Text.StripSpec | excel_validator.py:366 | `strip()` never lengthens a text, leaves no whitespace at either end, and gives "" exactly when the text is all whitespace |
| Text.StripEmptyIff | excel_validator.py:378 | `strip()` is empty exactly when the text is all whitespace |
| Text.JoinWith | excel_validator.py:369 | Joining a single part gives that part; a non-empty list joins to the parts' total length plus one separator between each two neighbours |
| Text.JoinSplitRoundTrip | excel_validator.py:369 | Joining parts that do not hold a one-character separator, then splitting on it, gives the parts back |
| Text.TotalLength | excel_validator.py:369 | Defined by its body: the summed lengths of the parts; used by the length law of `Text.JoinWith` |
| Text.JoinEmptyIff | excel_validator.py:369-371 | `' '.join(parts)` is empty exactly when there are no parts or one empty part |
| Text.AsciiLower | excel_validator.py:530 | `lower()` keeps the length |
| Text.Contains | excel_validator.py:533 | Defined by its body: the substring test; characterized by `Text.LowerKeepsMatches` and `Rules.TypoHitsIff` |
| Text.LowerKeepsMatches | excel_validator.py:530-533 | A pattern without ASCII letters occurs in the lower-cased text exactly when it occurs in the text |
| Text.SplitOn | excel_validator.py:555 | `re.split` on the sentence marks gives one more fragment than there are marks, and no fragment holds a mark |
| Text.MarksOf | excel_validator.py:555 | Defined by its body: the marks of a text, in order, as many as it holds; characterized by `Text.SplitOnRoundTrip` |
| Text.Interleave | excel_validator.py:555 | Defined by its body: fragments and marks alternated; characterized by `Text.SplitOnRoundTrip` |
| Text.SplitOnRoundTrip | excel_validator.py:555 | Putting the text's marks back between the fragments, in order, gives the text back |
| Text.SplitOnFree | excel_validator.py:555 | A text without marks splits into itself alone |
| Text.SplitOnMarkThen | excel_validator.py:555 | A mark followed by mark-free text ends the fragments before it and makes that text the last fragment |
| Text.NonBlankCount | excel_validator.py:556 | Defined by its body: the fragments that are not blank once stripped; characterized by `Text.NonBlankZeroIff` |
| Text.NonBlankZeroIff | excel_validator.py:556 | No fragment survives the `if s.strip()` filter exactly when every fragment is all whitespace |
| Text.SplitBlankIff | excel_validator.py:555-556 | Every fragment of the split is all whitespace exactly when the text is made only of marks and whitespace |
| Text.SentenceCount | excel_validator.py:555-557 | Defined by its body: the non-blank fragments between sentence marks; characterized by `Text.SentenceCountZeroIff` |
| Text.HasDigit | excel_validator.py:566 | Defined by its body: some character is an ASCII or full-width digit; characterized by `Rules.SpecificityFindingSpec` |
| Text.SentenceCountZeroIff | excel_validator.py:555-557 | The sentence count is 0 exactly when the text holds only sentence marks and whitespace |
| Text.RepeatRuns | excel_validator.py:440 | Defined by its body: the character of each greedy run of four or more; characterized by `Text.RepeatRunsIff` |
| Text.RunEnd | excel_validator.py:440 | The run starting at a position is maximal: every character in it equals the first, and the next one differs |
| Text.RepeatRunsFrom | excel_validator.py:440-441 | `findall` from a position finds something exactly when some run of four equal non-newline characters starts at or after it |
| Text.RepeatRunsIff | excel_validator.py:440-441 | `findall` returns a non-empty list exactly when the text has four equal non-newline characters in a row |
| Findings.CountOf | excel_validator.py:599-601 | Defined by its body: the number of findings of a severity; characterized by `Findings.CountSeverity`, `Findings.CountOfAppend` and `Findings.SeveritiesPartition` |
| Findings.OfSeverity | excel_validator_cli.py:371-395 | Defined by its body: the findings of a severity, in generation order; characterized by `Findings.OfSeverityCounts` and `Findings.OfSeverityAppend` |
| Findings.SeverityTextInjective | excel_validator.py:599-601 | The four severity strings エラー, 警告, 情報 and 成功 are pairwise distinct, so comparing the recorded strings is comparing severities |
| Findings.CountSeverity | excel_validator.py:599-601 | The counting loop gives the number of findings of a severity, which is the size of the filtered list |
| Findings.CountOfAppend | excel_validator.py:599-601 | Severity counts add over concatenation |
| Findings.OfSeverityAppend | excel_validator_cli.py:374-375 | Filtering by severity distributes over concatenation |
| Findings.OfSeverityCounts | excel_validator_cli.py:371-395 | The filtered list has as many findings as the count, and holds exactly the findings of that severity |
| Findings.SeveritiesPartition | excel_validator_cli.py:359-361 | The four severity counts add up to the length of the list |
| Rules.BoundOf | excel_validator.py:279-296 | Defined by its body: the label tests in source order; characterized by `Rules.CatalogBounds` |
| Rules.RangeFinding | excel_validator.py:278-302 | Defined by its body; characterized by `Rules.RangeFindingSpec` |
| Rules.RangeFindingSpec | excel_validator.py:278-302 | At most one finding per cell. It appears exactly when the cell is a number out of its name's bound, and it is a range error for that score |
| Rules.CatalogBounds | excel_validator.py:235-255 | The two totals are capped at 500, 順位 is a rank, and every other label, 合計_平均 included, is checked against [0, 100] |
| Rules.TargetBounds | excel_validator.py:236-241 | The target row's labels take the intended bounds |
| Rules.ResultBounds | excel_validator.py:242-248 | The result row's labels take the intended bounds |
| Rules.AverageBounds | excel_validator.py:249-254 | The average row's labels are all checked against [0, 100] |
| Rules.SubjectBounds | excel_validator.py:279-296 | A plain subject's target, result and average labels are checked against [0, 100] |
| Rules.TotalBounds | excel_validator.py:279-296 | 合計_目標 and 合計_結果 are capped, 順位 is a rank, and 合計_平均 is checked against [0, 100] |
| Rules.SubjectLabel | excel_validator.py:279-296 | A label without 合 or 順 falls to the [0, 100] branch |
| Rules.CatalogCells | excel_validator.py:235-255 | Where each catalog entry is read: row 10 for targets, row 12 for results and the rank, row 14 for averages |
| Rules.PercentRange | excel_validator.py:295-302 | A subject score is reported exactly when it is outside [0, 100]; 0 and 100 pass |
| Rules.ResultSubjects | excel_validator.py:328-332 | Defined by its body: the truthy numbers of row 12, columns 3 to 7, left to right; characterized by `Rules.ReadResultSubjects` and `GuiProperties.SampleSubjects` |
| Rules.ReadResultSubjects | excel_validator.py:328-332 | The loop over columns 3 to 7 of row 12 collects exactly the truthy numbers, left to right |
| Rules.SumFinding | excel_validator.py:334-343 | Defined by its body; characterized by `Rules.SumFindingSpec` |
| Rules.SumFindingSpec | excel_validator.py:334-343 | At most one error, exactly when the total is a non-zero number and differs from the sum by more than 0.01 |
| Rules.LengthFinding | excel_validator.py:371-395 | Defined by its body; characterized by `Rules.LengthFindingSpec` |
| Rules.LengthFindingSpec | excel_validator.py:371-395 | At most one finding per section: an error exactly when there is no content, a warning exactly when the stripped text is under the minimum, an information exactly when it is over the maximum, nothing exactly when it is within bounds |
| Rules.RepeatFinding | excel_validator.py:439-447 | Defined by its body; characterized by `Rules.RepeatFindingSpec` |
| Rules.RepeatFindingSpec | excel_validator.py:439-447 | One repeat warning exactly when some character appears four times in a row |
| Rules.SparsePunctuation | excel_validator.py:450 | Defined by its body: over 100 characters with fewer than two 。; characterized by `Rules.PunctuationFindingSpec` |
| Rules.PunctuationFinding | excel_validator.py:449-456 | Defined by its body; characterized by `Rules.PunctuationFindingSpec` |
| Rules.PunctuationFindingSpec | excel_validator.py:449-456 | One information exactly when the text is over 100 characters with fewer than two 。 |
| Rules.SpellingFindings | excel_validator.py:428-456 | Defined by its body: the typo, repeat and punctuation findings in source order; characterized by `Rules.SpellingCounts` and `Rules.CheckSpelling` |
| Rules.SpellingCounts | excel_validator.py:428-456 | One typo warning per hit pair, one repeat warning when there is a repeat, one punctuation information when punctuation is sparse, no other finding, and never an error or a success |
| Rules.CheckTypos | excel_validator.py:429-437 | The nested loops over the typo table, flattened into one loop over its (correct, typo) pairs in the same order, append exactly the typo findings, in table order |
| Rules.CheckSpelling | excel_validator.py:428-456 | The three spelling checks append their findings in source order |
| Rules.TypoFindings | excel_validator.py:429-437 | Defined by its body; characterized by `Rules.TyposAreHits` |
| Rules.TyposAreHits | excel_validator.py:429-437 | The typo findings are exactly one warning per hit pair, in table order |
| Rules.TypoHits | excel_validator.py:429-431 | Defined by its body: the table pairs whose typo occurs, in table order; characterized by `Rules.TypoHitsIff` |
| Rules.TypoHitsIff | excel_validator.py:429-431 | A pair is hit exactly when it is in the table and its typo occurs in the text |
| Rules.YuuWarnedTwice | excel_validator.py:401-402 | ゆう is listed under both 言う and いう, so a text holding it gets two warnings for it |
| Rules.KeywordHits | excel_validator.py:533 | At most as many keywords are found as the table lists |
| Rules.FewKeywords | excel_validator.py:534-536 | Defined by its body: under a fifth of the keywords occur; characterized by `Rules.FewKeywordsIff` |
| Rules.KeywordFinding | excel_validator.py:533-543 | Defined by its body; characterized by `Rules.KeywordFindingSpec` |
| Rules.KeywordFindingSpec | excel_validator.py:533-543 | One keyword warning exactly when under a fifth of the keywords occur |
| Rules.StructureFinding | excel_validator.py:554-563 | Defined by its body; characterized by `Rules.StructureFindingSpec` |
| Rules.StructureFindingSpec | excel_validator.py:554-563 | One structure information exactly when there are fewer sentences than the rule asks for |
| Rules.NeedsDigit | excel_validator.py:566-569 | Defined by its body: a goal section without a digit; characterized by `Rules.SpecificityFindingSpec` |
| Rules.SpecificityFinding | excel_validator.py:565-575 | Defined by its body; characterized by `Rules.SpecificityFindingSpec` |
| Rules.SpecificityFindingSpec | excel_validator.py:565-575 | One specificity information exactly when a goal section holds no digit |
| Rules.ContentFindings | excel_validator.py:528-575 | Defined by its body: the keyword, phrase, structure and specificity findings in source order; characterized by `Rules.ContentCounts` |
| Rules.ContentCounts | excel_validator.py:528-575 | The content checks give one keyword warning when keywords are too few, one phrase warning per discouraged phrase present, one structure information when sentences are too few, one specificity information when a goal section holds no digit. Nothing else, and never an error or a success |
| Rules.CheckContent | excel_validator.py:528-575 | The content checks of one text append their findings in source order, the phrase loop in table order |
| Rules.PhraseFindings | excel_validator.py:545-552 | Defined by its body; characterized by `Rules.PhrasesAreHits` |
| Rules.PhraseHits | excel_validator.py:545-546 | Defined by its body: the discouraged phrases present, in table order; characterized by `Rules.PhraseHitsIff` |
| Rules.PhrasesAreHits | excel_validator.py:545-552 | The phrase findings are exactly one warning per discouraged phrase present, in table order |
| Rules.PhraseHitsIff | excel_validator.py:545-546 | A phrase is hit exactly when it is in the table and occurs in the lower-cased text |
| Rules.FewKeywordsIff | excel_validator.py:534-536 | With eight keywords the ratio is under 0.2 exactly when fewer than two keywords occur |
| Rules.TableKeywordThreshold | excel_validator.py:460-513 | Every rule table lists eight keywords, so its warning fires exactly when fewer than two occur |
| GuiValidator.FlaggedStep | excel_validator.py:262-272 | A category flag is up after one more entry exactly when it was already up or that entry raises it |
| GuiValidator.ReadSpan | excel_validator.py:360-366 | The span loop collects the stripped `str()` of each truthy cell among the four rows, top to bottom |
| GuiValidator.CheckSectionLength | excel_validator.py:357-395 | One pass of the length loop appends exactly the length finding of the section's joined span |
| GuiValidator.CheckSpanSpelling | excel_validator.py:415-456 | One pass of the spelling loop appends the spelling findings of the joined span, or nothing when the span is empty |
| GuiValidator.CheckSectionContent | excel_validator.py:515-575 | One pass of the content loop skips an unlocated section or an empty span, and otherwise appends the content findings of the joined span |
| GuiValidator.CheckScoreCells | excel_validator.py:262-325 | The catalog loop appends the range findings in catalog order, then a warning for each category whose flag stayed down |
| GuiValidator.CollectLengths | excel_validator.py:357-395 | The length loop appends each section's finding, in table order |
| GuiValidator.CollectSpelling | excel_validator.py:415-456 | The spelling loop appends each span's findings, in table order |
| GuiValidator.CollectContent | excel_validator.py:515-575 | The content loop appends each located section's findings, in rule order |
| GuiValidator.Validator.constructor | excel_validator.py:195-206 | A validator starts with an empty list |
| GuiValidator.Validator.AddValidationResult | excel_validator.py:577-584 | Appends exactly one finding and changes nothing else |
| GuiValidator.Validator.AddAll | excel_validator.py:577-584 | Appending findings one by one extends the list by exactly those findings, in order |
| GuiValidator.Validator.ValidateTestScores | excel_validator.py:234-343 | Appends the range and category findings, then the sum finding. It raises exactly when the sum comparison is reached with a text total, and then only the findings before the comparison are appended |
| GuiValidator.Validator.ValidateTextSections | excel_validator.py:345-395 | Appends the length findings of the eight sections |
| GuiValidator.Validator.CheckSpellingErrors | excel_validator.py:397-456 | Appends the spelling findings of the eight spans |
| GuiValidator.Validator.ValidateContentAppropriateness | excel_validator.py:458-575 | Appends the content findings of the seven located sections |
| GuiValidator.Validator.UpdateSummary | excel_validator.py:598-612 | Returns the error, warning and information counts and appends the success record exactly when there is no error and no warning |
| GuiValidator.Validator.RunTextChecks | excel_validator.py:217-224 | Runs the selected text checks in order and appends their findings |
| GuiValidator.Validator.RunChecks | excel_validator.py:206-224 | Resets the list and runs the selected checks. It completes exactly when the score check does not raise, and otherwise leaves only the findings appended before the raise |
| GuiValidator.Validator.ValidateFile | excel_validator.py:195-233 | A run completes exactly when it does not abort, and the list afterwards is the selected checks' findings followed by the summary's, or the findings appended before the raise |
| GuiProperties.SubjectLabels | excel_validator.py:266-272 | A subject's target, result and average labels raise the flags of their own categories |
| GuiValidator.CategoryOf | excel_validator.py:266-272 | Defined by its body: the elif chain over the label; characterized by `GuiProperties.CatalogCategory` |
| GuiProperties.CatalogCategory | excel_validator.py:266-272 | The five subjects of each row raise their row's flag; the three totals and the rank raise none |
| GuiProperties.TargetCategories | excel_validator.py:267-268 | The five target subjects raise the target flag |
| GuiProperties.ResultCategories | excel_validator.py:269-270 | The five result subjects raise the result flag |
| GuiProperties.AverageCategories | excel_validator.py:271-272 | The five average subjects raise the average flag |
| GuiProperties.UnflaggedLabel | excel_validator.py:266-272 | The totals and the rank raise no flag |
| GuiProperties.UnflaggedLabels | excel_validator.py:266-272 | 合計_目標, 合計_結果, 順位 and 合計_平均 raise no flag |
| GuiValidator.Flagged | excel_validator.py:262-272 | Defined by its body: some catalog entry holds a number and its label sets the category; characterized by `GuiValidator.FlaggedStep` and `GuiProperties.FlaggedRow` |
| GuiValidator.HasNumberIn | excel_validator.py:262-272 | Defined by its body: a subject column of the row holds a number; characterized by `GuiProperties.FlaggedRow` |
| GuiProperties.FlaggedRow | excel_validator.py:262-325 | A category's flag is up exactly when one of the five subject cells of its row holds a number |
| GuiProperties.FlaggedOnlyFromRow | excel_validator.py:262-272 | A raised flag comes from a number in a subject column of the category's row |
| GuiProperties.RowRaisesFlag | excel_validator.py:262-272 | A number in any subject column of the row raises the category's flag |
| GuiValidator.CategoryWarnings | excel_validator.py:304-325 | Defined by its body; characterized by `GuiProperties.CategoryWarningsByRow` and `GuiProperties.CategoryWarningsKind` |
| GuiProperties.CategoryWarningsByRow | excel_validator.py:304-325 | The category warnings are one per row without a number, in the order target, result, average |
| GuiProperties.CategoryWarningsKind | excel_validator.py:304-325 | Category warnings are missing-value warnings |
| GuiProperties.ZeroCountsAsPresent | excel_validator.py:266-270 | A zero result is a number, though falsy, so the result warning is not given |
| Rules.RangeFindings | excel_validator.py:275-302 | Defined by its body: the range finding of each catalog cell, in catalog order; characterized by `GuiProperties.RangeFindingsCount` |
| GuiProperties.RangeFindingsCount | excel_validator.py:278-302 | There is one range error per out-of-bound number and nothing else |
| GuiProperties.NoNumbersNoRangeFindings | excel_validator.py:275-302 | Without numbers there is no range finding |
| GuiValidator.RangeAndCategory | excel_validator.py:262-325 | Defined by its body: the range findings, then the category warnings; characterized by `GuiValidator.CheckScoreCells` and `GuiProperties.ScoreFindingsNoSuccess` |
| GuiValidator.ScoreFindings | excel_validator.py:234-343 | Defined by its body: the range and category findings, then the sum finding; characterized by `GuiProperties.EmptySheetScores` and `GuiProperties.ScoreFindingsNoSuccess` |
| GuiProperties.EmptySheetScores | excel_validator.py:234-343 | An empty sheet gets exactly the three category warnings from the score check |
| GuiValidator.SumCheck | excel_validator.py:327-343 | Defined by its body: the comparison behind the `>= 1` gate; characterized by `GuiProperties.SumCheckSpec` |
| GuiValidator.SumRaises | excel_validator.py:334-337 | Defined by its body: the comparison is reached with a non-empty text total; characterized by `GuiValidator.Validator.ValidateTestScores` |
| GuiProperties.SumCheckSpec | excel_validator.py:327-343 | At most one sum error. It is given exactly when some result subject holds a truthy number, the total is a non-zero number, and the two differ by more than 0.01 |
| GuiProperties.SampleSubjects | excel_validator.py:328-332 | Results 80, 75, 90, 60, 70 are collected in column order |
| GuiProperties.SampleSum | excel_validator.py:334-343 | With those results (summing to 375) a total of 375 passes and a total of 380 is one error |
| GuiValidator.SpanParts | excel_validator.py:360-366 | Defined by its body; characterized by `GuiProperties.SpanPartsEmptyIff` and `GuiProperties.SpanPartsStripped` |
| GuiValidator.SpanText | excel_validator.py:360-369 | Defined by its body: the span's parts joined with spaces, or nothing; characterized by `GuiProperties.SingleCellSpan` and `GuiProperties.SectionLength` |
| GuiProperties.SpanPartsEmptyIff | excel_validator.py:362-369 | A span reads nothing exactly when none of its four cells is truthy |
| GuiProperties.SpanPartsStripped | excel_validator.py:362-366 | A span reads at most one part per row, each part stripped |
| GuiProperties.SingleCellSpan | excel_validator.py:362-369 | A span with only its first cell truthy reads that cell, stripped |
| GuiValidator.LengthAt | excel_validator.py:357-395 | Defined by its body; characterized by `GuiProperties.SectionLength` |
| GuiValidator.LengthFindings | excel_validator.py:345-395 | Defined by its body; characterized by `GuiValidator.CollectLengths` and `GuiProperties.LengthFindingsNoSuccess` |
| GuiValidator.SpellAt | excel_validator.py:415-456 | Defined by its body; characterized by `GuiValidator.CheckSpanSpelling` |
| GuiValidator.SpellFindings | excel_validator.py:397-456 | Defined by its body; characterized by `GuiValidator.CollectSpelling` and `GuiProperties.SpellFindingsNoSuccess` |
| GuiValidator.ContentAt | excel_validator.py:515-575 | Defined by its body; characterized by `GuiValidator.CheckSectionContent` |
| GuiValidator.ContentFindingsIn | excel_validator.py:458-575 | Defined by its body; characterized by `GuiValidator.CollectContent` and `GuiProperties.ContentFindingsNoSuccess` |
| GuiProperties.SectionLength | excel_validator.py:369-395 | A section is reported missing exactly when its span reads nothing, or a single part that is blank; it passes exactly when the joined text is within bounds |
| GuiValidator.Summarize | excel_validator.py:598-612 | Defined by its body; characterized by `GuiProperties.SummarizeSpec` |
| GuiProperties.SummarizeSpec | excel_validator.py:598-612 | The summary keeps the list and appends exactly one success record when, and only when, there is no error and no warning |
| GuiProperties.LengthFindingsNoSuccess | excel_validator.py:345-395 | The length check never yields a success record |
| GuiProperties.SpellFindingsNoSuccess | excel_validator.py:397-456 | The spelling check never yields a success record |
| GuiProperties.ContentFindingsNoSuccess | excel_validator.py:458-575 | The content check never yields a success record |
| GuiProperties.ScoreFindingsNoSuccess | excel_validator.py:234-343 | The score check never yields a success record, whether it returns or raises |
| GuiProperties.TextCheckedNoSuccess | excel_validator.py:217-224 | The selected text checks never yield a success record |
| GuiValidator.TextChecked | excel_validator.py:217-224 | Defined by its body: the selected text checks' findings, in order; characterized by `GuiProperties.TextCheckedNoSuccess` |
| GuiValidator.Checked | excel_validator.py:213-224 | Defined by its body: the selected checks' findings, in order; characterized by `GuiProperties.CheckedNoSuccess` |
| GuiValidator.Aborts | excel_validator.py:213-233 | Defined by its body: the score check is selected and raises; characterized by `GuiProperties.RunSuccessIff` and `GuiValidator.Validator.ValidateFile` |
| GuiProperties.CheckedNoSuccess | excel_validator.py:213-224 | The selected checks never yield a success record; only the summary does |
| GuiValidator.RunFindings | excel_validator.py:195-233 | Defined by its body; characterized by `GuiProperties.RunSuccessIff` |
| GuiProperties.RunSuccessIff | excel_validator.py:195-233 | A run holds a success record exactly when it completes with no error and no warning. It then holds exactly one, as its last record |
| CliValidator.CheckScoreCells | excel_validator_cli.py:85-119 | The catalog loop appends a missing-value warning per empty cell and the range finding of each number, in catalog order |
| CliValidator.CheckCellLength | excel_validator_cli.py:151-178 | One pass of the length loop appends exactly the length finding of the section's single cell |
| CliValidator.CollectLengths | excel_validator_cli.py:151-178 | The length loop appends each section's finding, in table order |
| CliValidator.CollectSpelling | excel_validator_cli.py:198-231 | The spelling loop appends the findings of each truthy cell's unstripped text, in table order |
| CliValidator.CheckCellContent | excel_validator_cli.py:290-342 | One pass of the content loop skips an unlocated section or a falsy cell, and otherwise appends the content findings of the stripped text |
| CliValidator.CollectContent | excel_validator_cli.py:290-342 | The content loop appends each located section's findings, in rule order |
| CliValidator.Group | excel_validator_cli.py:371-399 | The three display loops list exactly the errors, the warnings and the informations, each in generation order |
| CliValidator.Validator.constructor | excel_validator_cli.py:15-16 | A validator starts with an empty list |
| CliValidator.Validator.AddValidationResult | excel_validator_cli.py:344-351 | Appends exactly one finding and changes nothing else |
| CliValidator.Validator.AddAll | excel_validator_cli.py:344-351 | Appending findings one by one extends the list by exactly those findings, in order |
| CliValidator.Validator.ValidateTestScores | excel_validator_cli.py:62-137 | Appends the per-cell findings, then the sum finding. It raises exactly when all five subjects are present and the total is a non-empty text, and then only the per-cell findings are appended |
| CliValidator.Validator.ValidateTextSections | excel_validator_cli.py:139-178 | Appends the length findings of the eight sections |
| CliValidator.Validator.CheckSpellingErrors | excel_validator_cli.py:180-231 | Appends the spelling findings of the eight cells |
| CliValidator.Validator.ValidateContentAppropriateness | excel_validator_cli.py:233-342 | Appends the content findings of the seven located sections |
| CliValidator.Validator.DisplayResults | excel_validator_cli.py:353-399 | Shows "no problems" exactly when the list is empty. Otherwise it shows the three counts, and the errors, warnings and informations each in generation order |
| CliValidator.Validator.RunTextChecks | excel_validator_cli.py:39-49 | Runs the selected text checks in order and appends their findings |
| CliValidator.Validator.RunChecks | excel_validator_cli.py:25-49 | Resets the list and runs the selected checks. It completes exactly when the score check does not raise |
| CliValidator.Validator.ValidateFile | excel_validator_cli.py:18-60 | Returns True exactly when the run does not abort, and only then displays. The display shows the three severity counts of the final list and lists every group of the final list |
| CliValidator.CellFinding | excel_validator_cli.py:85-119 | Defined by its body; characterized by `CliProperties.CellFindingSpec` |
| CliValidator.MissingScore | excel_validator_cli.py:88-94 | Defined by its body: the missing-value warning of a cell; characterized by `CliProperties.CellFindingSpec` |
| CliValidator.CellFindings | excel_validator_cli.py:85-119 | Defined by its body; characterized by `CliProperties.EmptyCellsReported` and `CliValidator.CheckScoreCells` |
| CliProperties.CellFindingSpec | excel_validator_cli.py:85-119 | At most one finding per cell: a missing-value warning exactly when empty, a range error exactly when an out-of-bound number, nothing for a text |
| CliProperties.EmptyCellsReported | excel_validator_cli.py:85-94 | Every empty catalog cell is reported on its own, in catalog order |
| CliProperties.EmptySheetScores | excel_validator_cli.py:62-137 | An empty sheet gets nineteen missing-value warnings and no sum error |
| CliValidator.CliSumCheck | excel_validator_cli.py:121-137 | Defined by its body: the comparison behind the `== 5` gate; characterized by `CliProperties.CliSumCheckSpec` |
| CliValidator.CliSumRaises | excel_validator_cli.py:128-131 | Defined by its body: the comparison is reached with a non-empty text total; characterized by `CliValidator.Validator.ValidateTestScores` |
| CliValidator.CliScoreFindings | excel_validator_cli.py:62-137 | Defined by its body: the per-cell findings, then the sum finding; characterized by `CliProperties.EmptySheetScores` and `CliProperties.CliScoresNoSuccess` |
| CliProperties.CliSumCheckSpec | excel_validator_cli.py:121-137 | At most one sum error. It is given exactly when all five subjects hold truthy numbers, the total is a non-zero number, and the two differ by more than 0.01 |
| CliProperties.SumNeedsAllFive | excel_validator_cli.py:128 | With four subjects present and a wrong total, the desktop validator reports and the command line does not |
| CliProperties.TruthyText | excel_validator_cli.py:201 | `str()` of a truthy cell is never empty |
| CliValidator.CellContent | excel_validator_cli.py:152-154 | Defined by its body: nothing for a falsy cell, else its text; characterized by `CliProperties.CliSectionLength` and `CliProperties.TruthyText` |
| CliValidator.CliLengthAt | excel_validator_cli.py:151-178 | Defined by its body; characterized by `CliProperties.CliSectionLength` and `CliProperties.BlankTextIsShort` |
| CliValidator.CliLengthFindings | excel_validator_cli.py:139-178 | Defined by its body; characterized by `CliValidator.CollectLengths` and `CliProperties.CliLengthNoSuccess` |
| CliValidator.CliSpellAt | excel_validator_cli.py:198-231 | Defined by its body: the spelling findings of a truthy cell's unstripped text; characterized by `CliValidator.CollectSpelling` and `CliProperties.CliSpellNoSuccess` |
| CliValidator.CliSpellFindings | excel_validator_cli.py:180-231 | Defined by its body; characterized by `CliValidator.CollectSpelling` and `CliProperties.CliSpellNoSuccess` |
| CliValidator.CliContentAt | excel_validator_cli.py:290-342 | Defined by its body; characterized by `CliValidator.CheckCellContent` |
| CliValidator.CliContentFindings | excel_validator_cli.py:233-342 | Defined by its body; characterized by `CliValidator.CollectContent` and `CliProperties.CliContentNoSuccess` |
| CliProperties.CliSectionLength | excel_validator_cli.py:151-178 | At most one finding per section: an error exactly when the cell is falsy, a warning or an information exactly when the stripped text is under or over the bounds |
| CliProperties.BlankTextIsShort | excel_validator_cli.py:154-166 | A cell holding only a space is present but too short: the emptiness test comes before the strip |
| CliProperties.CellFindingsNoSuccess | excel_validator_cli.py:85-119 | The per-cell findings hold no success record |
| CliProperties.CliLengthNoSuccess | excel_validator_cli.py:139-178 | The length findings hold no success record |
| CliProperties.CliSpellNoSuccess | excel_validator_cli.py:180-231 | The spelling findings hold no success record |
| CliProperties.CliContentNoSuccess | excel_validator_cli.py:233-342 | The content findings hold no success record |
| CliProperties.CliScoresNoSuccess | excel_validator_cli.py:62-137 | The score findings hold no success record |
| CliProperties.CliTextNoSuccess | excel_validator_cli.py:39-49 | The selected text checks' findings hold no success record |
| CliValidator.CliRunFindings | excel_validator_cli.py:18-60 | Defined by its body; characterized by `CliProperties.CliNoSuccess` and `CliProperties.RunFullyDisplayed` |
| CliValidator.CliTextChecked | excel_validator_cli.py:39-49 | Defined by its body: the selected text checks' findings, in order; characterized by `CliProperties.CliTextNoSuccess` |
| CliValidator.CliChecked | excel_validator_cli.py:35-49 | Defined by its body: the selected checks' findings, in order; characterized by `CliProperties.CliNoSuccess` |
| CliValidator.CliAborts | excel_validator_cli.py:35-60 | Defined by its body: the score check is selected and raises; characterized by `CliValidator.Validator.ValidateFile` |
| CliProperties.CliNoSuccess | excel_validator_cli.py:18-60 | No run of the command-line validator holds a success record |
| CliProperties.DisplayPartition | excel_validator_cli.py:353-399 | Without success records, each finding is shown in exactly its severity's group, and the group sizes add up to the list's length |
| CliProperties.RunFullyDisplayed | excel_validator_cli.py:18-60 | The display of a completed run accounts for every finding: the three counts add up to the list's length |

## Left out

- The window, the file dialog, the result tree, message boxes and report saving (`save_report`) are not modelled. Neither are the command-line argument parsing and the printed output of `display_results`: `DisplayResults` returns what it would print as a `Report` value.
- Opening the workbook (openpyxl, `Path.exists`, `wb.close`) is not modelled. The sheet is a parameter. The "file not found" branches of both `validate_file` methods and the errors openpyxl can raise are not modelled; the only exception modelled is the TypeError of a text total (see `Cells.Cell` below for a date total).
- `encoding_test.py` and the XML reading of `analyze_excel.py` (`get_cell_value`, shared strings, the print loop) are not part of this model; only `parse_cell_ref` and the sort key are.
- Cells.Cell: a cell holds nothing, a number or a text. Boolean and date/time values, which the workbook can also hold, are not modelled. Python counts a boolean as the number 1 or 0 in the score checks: it raises a category flag, is range-checked, joins the result subjects, and a TRUE total is compared as 1. Its text is "True" or "False". A date/time total is truthy and also raises TypeError in the subtraction, so the "raises exactly when the total is a non-empty text" contracts of `ValidateTestScores`, `SumRaises` and `CliSumRaises` hold only for the three kinds of cell modelled.
- Cells.ShowReal: numbers are exact reals, not IEEE doubles, and integers and floats are one kind of cell. `str()` of a number is rendered as an integer when integral (Python writes a float 80.0 as "80.0") and otherwise with two truncated decimals (Python writes 1/3 as "0.3333333333333333"). This rendering feeds the text checks of a cell holding a number: the length bounds, the repeat and punctuation checks, the sentence count, the keyword and phrase searches and the digit search, so their findings on numeric cells can differ from the program's.
- `str.isalpha`, `lower()` and `\d` are modelled on ASCII letters and digits, plus full-width digits for `\d`. Other Unicode letters and digits are not recognised.
- `int()` of the row part accepts only plain ASCII decimals. Signs, surrounding whitespace, underscores and non-ASCII digits give `None`, as if `int()` had raised.
- `required_elements` in the section rules is never read by the source and is left out. The same holds for `has_specific_terms`, which is computed and never used.
- Every validator method builds the findings of a whole loop and then appends them one by one with `add_validation_result`. The source appends inside the loop. The resulting list is the same, and the ensures state it.
- `sorted()` itself is not modelled. `CellRefs.RowMajor` states what any list sorted by the key satisfies, and `CellRefs.RefOrder` how the key orders two references.
- CellRefs.ColumnPresentIff: stated for references of capitals and digits only. Other letters still go through `ord(char) - ord('A') + 1` (a lower-case a counts 33), and `ColumnValue` computes those values as written.

## Behaviour worth noting

The model follows the code as written, including where a comment in the code records a change of behaviour (at excel_validator.py:334 the desktop sum gate is noted as changed from all five subjects to at least one).

- The desktop validator keeps `str(v).strip()` of every truthy cell in a span, even when it is empty after stripping. A span whose only truthy cell holds spaces thus joins to "", which counts as missing. With two such cells it joins to " ", which is present but short. The model follows the code.
- The desktop sum comparison runs with as few as one present subject; the command line needs all five. The two are modelled as written, and `CliProperties.SumNeedsAllFive` shows where they disagree.
- A declared total of 0 is falsy and skips the comparison. A declared total that is a non-empty text raises TypeError in the subtraction. The desktop validator then skips the summary; the command line returns False and displays nothing.
