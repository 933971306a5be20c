/**
 * The rules both entry points share: the score catalog and its range rule, the
 * result-sum comparison, the text-length rule, the spelling heuristics (typo table,
 * repeated characters, sparse punctuation) and the content heuristics (keywords,
 * discouraged phrases, sentence count, digits). Each rule is a function from the
 * value it inspects to the findings it appends, in the order the source appends them.
 */
module Rules {
  import opened Wrappers
  import opened Cells
  import opened Text
  import opened Findings

  // The "type" column of a finding.
  const RangeKind := "範囲エラー"
  const SumKind := "計算エラー"
  const MissingKind := "未入力"
  const ShortKind := "文字数不足"
  const LongKind := "文字数超過"
  const TypoKind := "誤字の可能性"
  const RepeatKind := "文字の繰り返し"
  const PunctuationKind := "句読点不足"
  const KeywordKind := "キーワード不足"
  const PhraseKind := "不適切な表現"
  const StructureKind := "文章構成"
  const SpecificityKind := "具体性不足"

  // ================================================================ scores

  /** One entry of the score catalog: a name and the cell it is read from. */
  datatype ScoreCell = ScoreCell(name: string, row: int, col: int)

  /** The score catalog, in table order; the same table in both entry points. */
  const ScoreCells: seq<ScoreCell> := [
    ScoreCell("国語_目標", 10, 3), ScoreCell("社会_目標", 10, 4), ScoreCell("数学_目標", 10, 5),
    ScoreCell("理科_目標", 10, 6), ScoreCell("英語_目標", 10, 7), ScoreCell("合計_目標", 10, 8),
    ScoreCell("国語_結果", 12, 3), ScoreCell("社会_結果", 12, 4), ScoreCell("数学_結果", 12, 5),
    ScoreCell("理科_結果", 12, 6), ScoreCell("英語_結果", 12, 7), ScoreCell("合計_結果", 12, 8),
    ScoreCell("順位", 12, 9),
    ScoreCell("国語_平均", 14, 3), ScoreCell("社会_平均", 14, 4), ScoreCell("数学_平均", 14, 5),
    ScoreCell("理科_平均", 14, 6), ScoreCell("英語_平均", 14, 7), ScoreCell("合計_平均", 14, 8)
  ]

  /** Which range a numeric score is checked against. */
  datatype Bound = Percent | TotalCap | RankFloor

  /** The branch a name takes: '合計' without '平均' is a total, else '順位' is the rank, else 0-100. */
  function BoundOf(name: string): Bound {
    if Contains(name, "合計") && !Contains(name, "平均") then TotalCap
    else if Contains(name, "順位") then RankFloor
    else Percent
  }

  predicate OutOfBounds(b: Bound, v: real) {
    match b
    case TotalCap => v > 500.0
    case RankFloor => v < 1.0
    case Percent => v < 0.0 || v > 100.0
  }

  function ScoreItem(name: string): string {
    "テストスコア - " + name
  }

  /** The range finding for one score cell: only numbers are checked, each against its name's bound. */
  function RangeFinding(name: string, c: Cell): seq<Finding> {
    if !c.Number? then []
    else
      var v := c.value;
      match BoundOf(name)
      case TotalCap =>
        if v > 500.0 then [Finding(ScoreItem(name), RangeKind, Error, name + "が異常に高い値です: " + ShowReal(v))] else []
      case RankFloor =>
        if v < 1.0 then [Finding(ScoreItem(name), RangeKind, Error, "順位が無効な値です: " + ShowReal(v))] else []
      case Percent =>
        if v < 0.0 || v > 100.0 then [Finding(ScoreItem(name), RangeKind, Error, name + "が0-100の範囲外です: " + ShowReal(v))] else []
  }

  lemma RangeFindingSpec(name: string, c: Cell)
    ensures var r := RangeFinding(name, c); |r| <= 1
    ensures var r := RangeFinding(name, c); r != [] <==> c.Number? && OutOfBounds(BoundOf(name), c.value)
    ensures var r := RangeFinding(name, c); forall f :: f in r ==> f.kind == RangeKind && f.severity == Error && f.item == ScoreItem(name)
    ensures var r := RangeFinding(name, c); CountOf(r, Success) == 0
  {
  }

  /** The range findings of a run of catalog entries, entry after entry. */
  function RangeFindings(g: Grid, cells: seq<ScoreCell>): seq<Finding> {
    if cells == [] then []
    else
      var cell := cells[|cells| - 1];
      RangeFindings(g, cells[..|cells| - 1]) + RangeFinding(cell.name, At(g, cell.row, cell.col))
  }

  /** The value a cell of the catalog is read from. */
  function ScoreValue(g: Grid, k: nat): Cell
    requires k < |ScoreCells|
  {
    At(g, ScoreCells[k].row, ScoreCells[k].col)
  }

  /**
   * The name tests pick the bounds the form intends: the two totals 合計_目標 and 合計_結果
   * are capped at 500, 順位 must be at least 1, and every other name (合計_平均 included,
   * since it contains 平均) must lie in [0, 100].
   */
  lemma CatalogBounds(k: nat)
    requires k < |ScoreCells|
    ensures BoundOf(ScoreCells[k].name) == if k == 5 || k == 11 then TotalCap else if k == 12 then RankFloor else Percent
  {
    if k < 6 {
      TargetBounds(k);
    } else if k < 13 {
      ResultBounds(k);
    } else {
      AverageBounds(k);
    }
  }

  /** The target row: five subjects and the capped total. */
  lemma TargetBounds(k: nat)
    requires 0 <= k < 6
    ensures BoundOf(ScoreCells[k].name) == if k == 5 || k == 11 then TotalCap else if k == 12 then RankFloor else Percent
  {
    if k < 5 {
      var subject := if k == 0 then "国語" else if k == 1 then "社会" else if k == 2 then "数学" else if k == 3 then "理科" else "英語";
      assert ScoreCells[k].name == subject + "_目標";
      SubjectBounds(subject);
    } else {
      TotalBounds();
    }
  }

  /** The result row: five subjects, the capped total and the rank. */
  lemma ResultBounds(k: nat)
    requires 6 <= k < 13
    ensures BoundOf(ScoreCells[k].name) == if k == 5 || k == 11 then TotalCap else if k == 12 then RankFloor else Percent
  {
    if k < 11 {
      var subject := if k == 6 then "国語" else if k == 7 then "社会" else if k == 8 then "数学" else if k == 9 then "理科" else "英語";
      assert ScoreCells[k].name == subject + "_結果";
      SubjectBounds(subject);
    } else {
      TotalBounds();
    }
  }

  /** The average row: six labels checked against [0, 100], the total included. */
  lemma AverageBounds(k: nat)
    requires 13 <= k < 19
    ensures BoundOf(ScoreCells[k].name) == if k == 5 || k == 11 then TotalCap else if k == 12 then RankFloor else Percent
  {
    if k < 18 {
      var subject := if k == 13 then "国語" else if k == 14 then "社会" else if k == 15 then "数学" else if k == 16 then "理科" else "英語";
      assert ScoreCells[k].name == subject + "_平均";
      SubjectBounds(subject);
    } else {
      TotalBounds();
    }
  }

  /** A two-character subject name free of the characters the label tests look for. */
  predicate PlainSubject(subject: string) {
    |subject| == 2 && forall c :: c in subject ==> c !in {'目', '結', '合', '順'}
  }

  /** A subject's target, result and average are all checked against [0, 100]. */
  lemma SubjectBounds(subject: string)
    requires PlainSubject(subject)
    ensures BoundOf(subject + "_目標") == Percent
    ensures BoundOf(subject + "_結果") == Percent
    ensures BoundOf(subject + "_平均") == Percent
  {
    SubjectLabel(subject, "_目標");
    SubjectLabel(subject, "_結果");
    SubjectLabel(subject, "_平均");
  }

  /** 合計_目標 and 合計_結果 are capped at 500, 順位 is a rank, 合計_平均 is checked against [0, 100]. */
  lemma TotalBounds()
    ensures BoundOf("合計_目標") == TotalCap && BoundOf("合計_結果") == TotalCap
    ensures BoundOf("順位") == RankFloor && BoundOf("合計_平均") == Percent
  {
    Present("合計_目標", "合計", 0); Absent("合計_目標", "平均", 0);
    Present("合計_結果", "合計", 0); Absent("合計_結果", "平均", 0);
    Absent("順位", "合計", 0); Present("順位", "順位", 0);
    Present("合計_平均", "平均", 3); Absent("合計_平均", "順位", 0);
  }

  /** A label holding neither 合 nor 順 is checked against [0, 100]. */
  lemma SubjectLabel(subject: string, suffix: string)
    requires PlainSubject(subject) && '合' !in suffix && '順' !in suffix
    ensures BoundOf(subject + suffix) == Percent
  {
    var l := subject + suffix;
    assert '合' !in l && '順' !in l;
    Absent(l, "合計", 0);
    Absent(l, "順位", 0);
  }

  /** Where each catalog entry is read: row 10 for targets, row 12 for results and the rank, row 14 for averages. */
  lemma CatalogCells(k: nat)
    requires k < |ScoreCells|
    ensures (ScoreCells[k].row, ScoreCells[k].col) ==
      if k < 6 then (10, k + 3) else if k < 12 then (12, k - 3) else if k == 12 then (12, 9) else (14, k - 10)
  {
  }

  /** A numeric subject score is reported exactly when it is outside [0, 100]: 0 and 100 pass. */
  lemma PercentRange(k: nat, v: real)
    requires k < |ScoreCells| && k != 5 && k != 11 && k != 12
    ensures RangeFinding(ScoreCells[k].name, Number(v)) == [] <==> 0.0 <= v <= 100.0
  {
    CatalogBounds(k);
    RangeFindingSpec(ScoreCells[k].name, Number(v));
  }

  // ================================================================ result sum

  /** The truthy numbers among the result subjects of row 12, columns 3 up to upTo - 1. */
  function ResultSubjects(g: Grid, upTo: int): seq<real>
    decreases upTo - 3
  {
    if upTo <= 3 then []
    else
      var c := At(g, 12, upTo - 1);
      ResultSubjects(g, upTo - 1) + (if Truthy(c) && c.Number? then [c.value] else [])
  }

  /** The truthy numbers of the five result subjects (row 12, columns 3 to 7), left to right. */
  method ReadResultSubjects(g: Grid) returns (subjects: seq<real>)
    ensures subjects == ResultSubjects(g, 8)
  {
    subjects := [];
    for col := 3 to 8
      invariant subjects == ResultSubjects(g, col)
    {
      var v := At(g, 12, col);
      if Truthy(v) && v.Number? {
        subjects := subjects + [v.value];
      }
    }
  }

  function Sum(vs: seq<real>): real {
    if vs == [] then 0.0 else Sum(vs[..|vs| - 1]) + vs[|vs| - 1]
  }

  function Abs(x: real): real {
    if x < 0.0 then -x else x
  }

  /** The tolerance of the sum comparison. */
  const Tolerance: real := 0.01

  /** The declared total cell of the results (row 12, column 8). */
  function Total(g: Grid): Cell {
    At(g, 12, 8)
  }

  /** A truthy text total: subtracting it from the computed sum raises a type error. */
  predicate TotalFaults(total: Cell) {
    Truthy(total) && total.Text?
  }

  /** The sum comparison once the subject values are gathered and the total is a number or falsy. */
  function SumFinding(vals: seq<real>, total: Cell): seq<Finding> {
    if total.Number? && total.value != 0.0 && Abs(Sum(vals) - total.value) > Tolerance then
      [Finding("テストスコア - 合計", SumKind, Error,
               "科目の合計(" + ShowReal(Sum(vals)) + ")と記載された合計(" + ShowReal(total.value) + ")が一致しません")]
    else []
  }

  lemma SumFindingSpec(vals: seq<real>, total: Cell)
    ensures var r := SumFinding(vals, total); |r| <= 1
    ensures var r := SumFinding(vals, total); r != [] <==> total.Number? && total.value != 0.0 && Abs(Sum(vals) - total.value) > Tolerance
    ensures var r := SumFinding(vals, total); forall f :: f in r ==> f.kind == SumKind && f.severity == Error
    ensures var r := SumFinding(vals, total); CountOf(r, Success) == 0
  {
  }

  // ================================================================ text length

  /** One entry of the section table: where its text is read, and the length bounds. */
  datatype TextSection = TextSection(name: string, row: int, col: int, minLength: nat, maxLength: nat)


  /** The content a section is judged on is missing: nothing was read, or it is the empty string. */
  predicate Blank(content: Option<string>) {
    content.None? || content.value == ""
  }

  /**
   * The length rule for one section: missing content is an error; otherwise the stripped text
   * shorter than the minimum is a warning, longer than the maximum an information.
   */
  function LengthFinding(name: string, content: Option<string>, minLength: nat, maxLength: nat): seq<Finding> {
    var item := "文章内容 - " + name;
    if Blank(content) then [Finding(item, MissingKind, Error, name + "が入力されていません")]
    else
      var text := Strip(content.value);
      var n := |text|;
      if n < minLength then
        [Finding(item, ShortKind, Warning,
                 name + "の文字数が少なすぎます（" + IntText(n) + "文字、推奨: " + IntText(minLength) + "文字以上）")]
      else if n > maxLength then
        [Finding(item, LongKind, Info,
                 name + "の文字数が多すぎる可能性があります（" + IntText(n) + "文字、推奨: " + IntText(maxLength) + "文字以下）")]
      else []
  }

  lemma LengthFindingSpec(name: string, content: Option<string>, minLength: nat, maxLength: nat)
    ensures var r := LengthFinding(name, content, minLength, maxLength); |r| <= 1
    ensures var r := LengthFinding(name, content, minLength, maxLength); (r != [] && r[0].kind == MissingKind && r[0].severity == Error) <==> Blank(content)
    ensures var r := LengthFinding(name, content, minLength, maxLength); (r != [] && r[0].kind == ShortKind && r[0].severity == Warning) <==>
      !Blank(content) && |Strip(content.value)| < minLength
    ensures var r := LengthFinding(name, content, minLength, maxLength); (r != [] && r[0].kind == LongKind && r[0].severity == Info) <==>
      !Blank(content) && minLength <= |Strip(content.value)| && |Strip(content.value)| > maxLength
    ensures var r := LengthFinding(name, content, minLength, maxLength); r == [] <==> !Blank(content) && minLength <= |Strip(content.value)| <= maxLength
    ensures var r := LengthFinding(name, content, minLength, maxLength); CountOf(r, Success) == 0
  {
  }

  // ================================================================ spelling

  /** The typo table flattened to (correct, typo) pairs in the order the nested loops visit them. */
  const CommonTypos: seq<(string, string)> := [
    ("そして", "そうして"), ("そして", "そしして"),
    ("ということ", "とゆうこと"), ("ということ", "とゆう事"),
    ("言う", "ゆう"),
    ("いう", "ゆう"),
    ("そういう", "そうゆう"),
    ("どういう", "どうゆう"),
    ("頑張", "がんば"),
    ("一生懸命", "いっしょうけんめい"), ("一生懸命", "いっしょけんめい"),
    ("できる", "出来る"),
    ("わかる", "分かる"), ("わかる", "判る"),
    ("おこなう", "行なう"),
    ("あらわす", "表わす"), ("あらわす", "現わす")
  ]

  function SpellingItem(row: int, col: int): string {
    "誤字脱字 - セル(" + IntText(row) + ", " + IntText(col) + ")"
  }

  function TypoWarning(item: string, pair: (string, string)): Finding {
    Finding(item, TypoKind, Warning, "'" + pair.1 + "' → '" + pair.0 + "' の可能性があります")
  }

  /** The typo findings of one text: one per table pair whose typo occurs, in table order. */
  function TypoFindings(item: string, text: string, pairs: seq<(string, string)>): seq<Finding> {
    if pairs == [] then []
    else
      var pair := pairs[|pairs| - 1];
      TypoFindings(item, text, pairs[..|pairs| - 1]) + (if Contains(text, pair.1) then [TypoWarning(item, pair)] else [])
  }

  /** The pairs of a table whose typo occurs in the text, in table order. */
  function TypoHits(text: string, pairs: seq<(string, string)>): seq<(string, string)> {
    if pairs == [] then []
    else TypoHits(text, pairs[..|pairs| - 1]) + (if Contains(text, pairs[|pairs| - 1].1) then [pairs[|pairs| - 1]] else [])
  }

  /** One warning, listing the repeated characters, when some character is repeated four times in a row. */
  function RepeatFinding(item: string, text: string): seq<Finding> {
    var runs := RepeatRuns(text, 0);
    if runs != [] then [Finding(item, RepeatKind, Warning, "同じ文字の過度な繰り返しがあります: " + runs)] else []
  }

  lemma RepeatFindingSpec(item: string, text: string)
    ensures var r := RepeatFinding(item, text); |r| <= 1 && (r != [] <==> HasRepeat(text))
    ensures var r := RepeatFinding(item, text); forall f :: f in r ==> f.kind == RepeatKind && f.severity == Warning
  {
    RepeatRunsIff(text);
  }

  /** More than 100 characters with fewer than two 。 */
  predicate SparsePunctuation(text: string) {
    |text| > 100 && CountIn(text, {'。'}) < 2
  }

  function PunctuationFinding(item: string, text: string): seq<Finding> {
    if SparsePunctuation(text) then [Finding(item, PunctuationKind, Info, "長い文章に句読点が少ない可能性があります")] else []
  }

  lemma PunctuationFindingSpec(item: string, text: string)
    ensures var r := PunctuationFinding(item, text); |r| <= 1 && (r != [] <==> SparsePunctuation(text))
    ensures var r := PunctuationFinding(item, text); forall f :: f in r ==> f.kind == PunctuationKind && f.severity == Info
  {
  }

  /**
   * The three spelling checks of one text: a warning per typo pair that occurs, one warning
   * when some non-newline character is repeated four times in a row, one information when a
   * long text has fewer than two 。
   */
  function SpellingFindings(item: string, text: string): seq<Finding> {
    TypoFindings(item, text, CommonTypos) + RepeatFinding(item, text) + PunctuationFinding(item, text)
  }

  /**
   * What the spelling checks report for one text: a warning per typo pair that occurs, one
   * warning when some non-newline character is repeated four times in a row, one information
   * when a text over 100 characters has fewer than two 。, and nothing else.
   */
  lemma SpellingCounts(item: string, text: string)
    ensures CountKind(SpellingFindings(item, text), TypoKind) == |TypoHits(text, CommonTypos)|
    ensures CountKind(SpellingFindings(item, text), RepeatKind) == (if HasRepeat(text) then 1 else 0)
    ensures CountKind(SpellingFindings(item, text), PunctuationKind) == (if SparsePunctuation(text) then 1 else 0)
    ensures |SpellingFindings(item, text)| == |TypoHits(text, CommonTypos)| + (if HasRepeat(text) then 1 else 0)
      + (if SparsePunctuation(text) then 1 else 0)
    ensures CountOf(SpellingFindings(item, text), Success) == 0 && CountOf(SpellingFindings(item, text), Error) == 0
  {
    var typos, repeat, punct := TypoFindings(item, text, CommonTypos), RepeatFinding(item, text), PunctuationFinding(item, text);
    TyposAreHits(item, text, CommonTypos);
    RepeatFindingSpec(item, text);
    PunctuationFindingSpec(item, text);
    UniformCounts(typos, TypoKind, Warning);
    UniformCounts(repeat, RepeatKind, Warning);
    UniformCounts(punct, PunctuationKind, Info);
    Counts3(typos, repeat, punct);
  }

  /** The nested loops over a typo table (flattened into pairs) on one text, appending a warning per typo present. */
  method CheckTypos(item: string, text: string, pairs: seq<(string, string)>) returns (found: seq<Finding>)
    ensures found == TypoFindings(item, text, pairs)
  {
    found := [];
    for j := 0 to |pairs|
      invariant found == TypoFindings(item, text, pairs[..j])
    {
      var (correct, typo) := pairs[j];
      if Contains(text, typo) {
        found := found + [Finding(item, TypoKind, Warning, "'" + typo + "' → '" + correct + "' の可能性があります")];
      }
      assert pairs[..j + 1][..j] == pairs[..j];
    }
    assert pairs[..|pairs|] == pairs;
  }

  /** The spelling checks of one text, in the order they append. */
  method CheckSpelling(item: string, text: string) returns (found: seq<Finding>)
    ensures found == SpellingFindings(item, text)
  {
    found := CheckTypos(item, text, CommonTypos);
    found := found + RepeatFinding(item, text) + PunctuationFinding(item, text);
  }

  /** The typo findings are exactly one warning per hit pair, in table order. */
  lemma {:induction false} TyposAreHits(item: string, text: string, pairs: seq<(string, string)>)
    ensures |TypoFindings(item, text, pairs)| == |TypoHits(text, pairs)|
    ensures forall k :: 0 <= k < |TypoHits(text, pairs)| ==>
      TypoFindings(item, text, pairs)[k] == TypoWarning(item, TypoHits(text, pairs)[k])
    ensures forall f :: f in TypoFindings(item, text, pairs) ==> f.kind == TypoKind && f.severity == Warning
  {
    if pairs != [] {
      TyposAreHits(item, text, pairs[..|pairs| - 1]);
    }
  }

  /** A pair is hit exactly when it belongs to the table and its typo occurs in the text. */
  lemma {:induction false} TypoHitsIff(text: string, pairs: seq<(string, string)>, p: (string, string))
    ensures p in TypoHits(text, pairs) <==> p in pairs && Contains(text, p.1)
  {
    if pairs != [] {
      var init := pairs[..|pairs| - 1];
      TypoHitsIff(text, init, p);
      assert pairs == init + [pairs[|pairs| - 1]];
    }
  }

  /** "ゆう" is listed as the typo of both 言う and いう, so a text holding it is warned twice for it. */
  lemma YuuWarnedTwice(text: string)
    requires Contains(text, "ゆう")
    ensures ("言う", "ゆう") in TypoHits(text, CommonTypos) && ("いう", "ゆう") in TypoHits(text, CommonTypos)
  {
    assert CommonTypos[4] == ("言う", "ゆう") && CommonTypos[5] == ("いう", "ゆう");
    TypoHitsIff(text, CommonTypos, ("言う", "ゆう"));
    TypoHitsIff(text, CommonTypos, ("いう", "ゆう"));
  }

  // ================================================================ content

  datatype RuleData = RuleData(name: string, keywords: seq<string>, negatives: seq<string>, minSentences: nat)

  /** One entry of the section rules; its keyword list is never empty (the ratio divides by its length). */
  type ContentRule = r: RuleData | |r.keywords| > 0 witness RuleData("", [""], [], 1)

  // The seven entries of the section rules (the list of required elements is never read and is left out).
  const ChallengeRule: ContentRule := RuleData("現在の学習課題", ["課題", "問題", "苦手", "理解", "困難", "改善", "弱点", "不足"],
    ["特になし", "問題なし", "ありません"], 2)
  const ProgressRule: ContentRule := RuleData("課題に対する進捗状況", ["進捗", "改善", "向上", "取り組み", "結果", "成果", "変化", "前回"],
    ["変化なし", "進捗なし"], 2)
  const GoalRule: ContentRule := RuleData("今後の目標", ["目標", "点数", "成績", "内申", "向上", "達成", "点", "以上"],
    ["未定", "特になし"], 1)
  const PlanRule: ContentRule := RuleData("目標に向けた指導計画", ["指導", "計画", "方法", "実施", "授業", "学習", "対策", "強化"],
    ["継続", "そのまま"], 2)
  const AttitudeRule: ContentRule := RuleData("授業態度・意欲・遅刻等", ["態度", "意欲", "集中", "参加", "遅刻", "欠席", "積極", "真面目"],
    [], 1)
  const HomeworkRule: ContentRule := RuleData("宿題について", ["宿題", "提出", "取り組み", "正答", "理解度", "完成度", "期限", "質"],
    [], 1)
  const HomeStudyRule: ContentRule := RuleData("家庭学習アドバイス", ["家庭", "学習", "アドバイス", "方法", "時間", "習慣", "復習", "予習"],
    ["特になし"], 2)

  /** The section rules, in table order. */
  const ContentRules: seq<ContentRule> := [ChallengeRule, ProgressRule, GoalRule, PlanRule, AttitudeRule, HomeworkRule, HomeStudyRule]

  /** The two sections whose text is expected to hold a number. */
  const GoalSections: seq<string> := ["今後の目標", "目標に向けた指導計画"]

  /** How many of the rule's keywords occur in the text. */
  function KeywordHits(keywords: seq<string>, text: string): (n: nat)
    ensures n <= |keywords|
  {
    if keywords == [] then 0
    else KeywordHits(keywords[..|keywords| - 1], text) + (if Contains(text, keywords[|keywords| - 1]) then 1 else 0)
  }

  /** Fewer than a fifth of the rule's keywords occur in the text. */
  predicate FewKeywords(rule: ContentRule, low: string) {
    (KeywordHits(rule.keywords, low) as real) / (|rule.keywords| as real) < 0.2
  }

  function ContentItem(name: string): string {
    "内容確認 - " + name
  }

  function KeywordFinding(rule: ContentRule, low: string): seq<Finding> {
    if FewKeywords(rule, low) then
      [Finding(ContentItem(rule.name), KeywordKind, Warning,
               "この項目に期待されるキーワードが不足しています。推奨キーワード: " + JoinWith(Take(rule.keywords, 4), ", "))]
    else []
  }

  lemma KeywordFindingSpec(rule: ContentRule, low: string)
    ensures var r := KeywordFinding(rule, low); |r| <= 1 && (r != [] <==> FewKeywords(rule, low))
    ensures var r := KeywordFinding(rule, low); forall f :: f in r ==> f.kind == KeywordKind && f.severity == Warning
  {
  }

  function PhraseWarning(item: string, pattern: string): Finding {
    Finding(item, PhraseKind, Warning, "「" + pattern + "」という表現は避け、より具体的な内容を記載してください")
  }

  /** The phrase findings of one text: one per negative pattern that occurs, in table order. */
  function PhraseFindings(item: string, low: string, patterns: seq<string>): seq<Finding> {
    if patterns == [] then []
    else
      var pattern := patterns[|patterns| - 1];
      PhraseFindings(item, low, patterns[..|patterns| - 1]) + (if Contains(low, pattern) then [PhraseWarning(item, pattern)] else [])
  }

  /** The negative patterns that occur in the text, in table order. */
  function PhraseHits(patterns: seq<string>, low: string): seq<string> {
    if patterns == [] then []
    else PhraseHits(patterns[..|patterns| - 1], low) + (if Contains(low, patterns[|patterns| - 1]) then [patterns[|patterns| - 1]] else [])
  }

  function StructureFinding(rule: ContentRule, text: string): seq<Finding> {
    if SentenceCount(text) < rule.minSentences then
      [Finding(ContentItem(rule.name), StructureKind, Info, "より詳細な説明が必要です（推奨: " + IntText(rule.minSentences) + "文以上）")]
    else []
  }

  lemma StructureFindingSpec(rule: ContentRule, text: string)
    ensures var r := StructureFinding(rule, text); |r| <= 1 && (r != [] <==> SentenceCount(text) < rule.minSentences)
    ensures var r := StructureFinding(rule, text); forall f :: f in r ==> f.kind == StructureKind && f.severity == Info
  {
  }

  predicate NeedsDigit(rule: ContentRule, text: string) {
    rule.name in GoalSections && !HasDigit(text)
  }

  function SpecificityFinding(rule: ContentRule, text: string): seq<Finding> {
    if NeedsDigit(rule, text) then
      [Finding(ContentItem(rule.name), SpecificityKind, Info, "数値や具体的な期限を含めることを推奨します")]
    else []
  }

  lemma SpecificityFindingSpec(rule: ContentRule, text: string)
    ensures var r := SpecificityFinding(rule, text); |r| <= 1 && (r != [] <==> NeedsDigit(rule, text))
    ensures var r := SpecificityFinding(rule, text); forall f :: f in r ==> f.kind == SpecificityKind && f.severity == Info
  {
  }

  function ContentFindings(rule: ContentRule, text: string): seq<Finding> {
    var low := AsciiLower(text);
    KeywordFinding(rule, low) + PhraseFindings(ContentItem(rule.name), low, rule.negatives)
    + StructureFinding(rule, text) + SpecificityFinding(rule, text)
  }

  /**
   * What the content checks report for one section's text: a warning when under a fifth of the
   * keywords occur, a warning per discouraged phrase present, an information when there are
   * fewer sentences than the rule asks, for the two goal sections an information when the text
   * holds no digit, and nothing else.
   */
  lemma ContentCounts(rule: ContentRule, text: string)
    ensures CountKind(ContentFindings(rule, text), KeywordKind) == (if FewKeywords(rule, AsciiLower(text)) then 1 else 0)
    ensures CountKind(ContentFindings(rule, text), PhraseKind) == |PhraseHits(rule.negatives, AsciiLower(text))|
    ensures CountKind(ContentFindings(rule, text), StructureKind) == (if SentenceCount(text) < rule.minSentences then 1 else 0)
    ensures CountKind(ContentFindings(rule, text), SpecificityKind) == (if NeedsDigit(rule, text) then 1 else 0)
    ensures |ContentFindings(rule, text)| ==
      CountKind(ContentFindings(rule, text), KeywordKind) + CountKind(ContentFindings(rule, text), PhraseKind)
      + CountKind(ContentFindings(rule, text), StructureKind) + CountKind(ContentFindings(rule, text), SpecificityKind)
    ensures CountOf(ContentFindings(rule, text), Success) == 0 && CountOf(ContentFindings(rule, text), Error) == 0
  {
    var low := AsciiLower(text);
    var a, b := KeywordFinding(rule, low), PhraseFindings(ContentItem(rule.name), low, rule.negatives);
    var c, d := StructureFinding(rule, text), SpecificityFinding(rule, text);
    assert ContentFindings(rule, text) == a + b + c + d;
    PhrasesAreHits(ContentItem(rule.name), low, rule.negatives);
    KeywordFindingSpec(rule, low);
    StructureFindingSpec(rule, text);
    SpecificityFindingSpec(rule, text);
    FourStretches(a, b, c, d, KeywordKind, PhraseKind, StructureKind, SpecificityKind, Warning, Warning, Info, Info);
  }

  /** Four stretches, each of one kind and one severity other than success and error, counted together. */
  lemma FourStretches(a: seq<Finding>, b: seq<Finding>, c: seq<Finding>, d: seq<Finding>,
                      ka: string, kb: string, kc: string, kd: string,
                      sa: Severity, sb: Severity, sc: Severity, sd: Severity)
    requires forall f :: f in a ==> f.kind == ka && f.severity == sa
    requires forall f :: f in b ==> f.kind == kb && f.severity == sb
    requires forall f :: f in c ==> f.kind == kc && f.severity == sc
    requires forall f :: f in d ==> f.kind == kd && f.severity == sd
    requires ka != kb && ka != kc && ka != kd && kb != kc && kb != kd && kc != kd
    requires sa !in {Success, Error} && sb !in {Success, Error} && sc !in {Success, Error} && sd !in {Success, Error}
    ensures CountKind(a + b + c + d, ka) == |a| && CountKind(a + b + c + d, kb) == |b|
    ensures CountKind(a + b + c + d, kc) == |c| && CountKind(a + b + c + d, kd) == |d|
    ensures |a + b + c + d| == |a| + |b| + |c| + |d|
    ensures CountOf(a + b + c + d, Success) == 0 && CountOf(a + b + c + d, Error) == 0
  {
    UniformCounts(a, ka, sa);
    UniformCounts(b, kb, sb);
    UniformCounts(c, kc, sc);
    UniformCounts(d, kd, sd);
    Counts4(a, b, c, d);
  }

  /** The content checks of one section's text: keywords, each discouraged phrase in order, sentences, digits. */
  method CheckContent(rule: ContentRule, text: string) returns (found: seq<Finding>)
    ensures found == ContentFindings(rule, text)
  {
    var low := AsciiLower(text);
    var item := ContentItem(rule.name);
    found := KeywordFinding(rule, low);
    var phrases: seq<Finding> := [];
    var negatives := rule.negatives;
    for j := 0 to |negatives|
      invariant phrases == PhraseFindings(item, low, negatives[..j])
    {
      var pattern := negatives[j];
      if Contains(low, pattern) {
        phrases := phrases + [PhraseWarning(item, pattern)];
      }
      assert negatives[..j + 1][..j] == negatives[..j];
    }
    assert negatives[..|negatives|] == negatives;
    found := found + phrases + StructureFinding(rule, text) + SpecificityFinding(rule, text);
  }

  /** The phrase findings are exactly one warning per discouraged phrase present, in table order. */
  lemma {:induction false} PhrasesAreHits(item: string, low: string, patterns: seq<string>)
    ensures |PhraseFindings(item, low, patterns)| == |PhraseHits(patterns, low)|
    ensures forall k :: 0 <= k < |PhraseHits(patterns, low)| ==>
      PhraseFindings(item, low, patterns)[k] == PhraseWarning(item, PhraseHits(patterns, low)[k])
    ensures forall f :: f in PhraseFindings(item, low, patterns) ==> f.kind == PhraseKind && f.severity == Warning
  {
    if patterns != [] {
      PhrasesAreHits(item, low, patterns[..|patterns| - 1]);
    }
  }

  /** A pattern is hit exactly when it belongs to the table and occurs in the text. */
  lemma {:induction false} PhraseHitsIff(patterns: seq<string>, low: string, p: string)
    ensures p in PhraseHits(patterns, low) <==> p in patterns && Contains(low, p)
  {
    if patterns != [] {
      var init := patterns[..|patterns| - 1];
      PhraseHitsIff(init, low, p);
      assert patterns == init + [patterns[|patterns| - 1]];
    }
  }

  /** With the tables' eight keywords, the ratio is under 0.2 exactly when fewer than two keywords occur. */
  lemma FewKeywordsIff(rule: ContentRule, low: string)
    requires |rule.keywords| == 8
    ensures FewKeywords(rule, low) <==> KeywordHits(rule.keywords, low) < 2
  {
    var n := KeywordHits(rule.keywords, low);
    assert (n as real) / 8.0 < 0.2 <==> (n as real) < 1.6;
  }

  /** Every section rule holds eight keywords, so its warning fires exactly when fewer than two occur. */
  lemma TableKeywordThreshold(k: nat, low: string)
    requires k < |ContentRules|
    ensures FewKeywords(ContentRules[k], low) <==> KeywordHits(ContentRules[k].keywords, low) < 2
  {
    FewKeywordsIff(ContentRules[k], low);
  }
}
