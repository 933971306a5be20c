/**
 * The string operations the validators rely on: stripping whitespace, joining with a
 * separator, the substring test, counting characters, lower-casing, splitting on sentence
 * marks, finding runs of a repeated character and finding a digit.
 */
module Text {

  /**
   * The characters str.strip() removes (Python's whitespace): the ASCII controls
   * 0x09-0x0D and 0x1C-0x1F, the space, NEL, NO-BREAK SPACE and the Unicode spaces.
   */
  predicate IsSpace(c: char) {
    ('\t' <= c <= '\r') || ('\U{1C}' <= c <= ' ') || c == '\U{85}' || c == '\U{A0}' || c == '\U{1680}'
    || ('\U{2000}' <= c <= '\U{200A}') || c == '\U{2028}' || c == '\U{2029}' || c == '\U{202F}'
    || c == '\U{205F}' || c == '\U{3000}'
  }

  predicate AllSpace(s: string) {
    forall i :: 0 <= i < |s| ==> IsSpace(s[i])
  }

  /** str.lstrip(): drops the leading whitespace. */
  function LStrip(s: string): string {
    if s != [] && IsSpace(s[0]) then LStrip(s[1..]) else s
  }

  /** str.rstrip(): drops the trailing whitespace. */
  function RStrip(s: string): string {
    if s != [] && IsSpace(s[|s| - 1]) then RStrip(s[..|s| - 1]) else s
  }

  /** str.strip(): the text between the leading and the trailing whitespace. */
  function Strip(s: string): string {
    RStrip(LStrip(s))
  }

  /** lstrip() keeps a suffix that starts with a non-space, and drops only whitespace. */
  lemma {:induction false} LStripSpec(s: string)
    ensures |LStrip(s)| <= |s| && LStrip(s) == s[|s| - |LStrip(s)|..]
    ensures LStrip(s) != [] ==> !IsSpace(LStrip(s)[0])
    ensures AllSpace(s[..|s| - |LStrip(s)|])
  {
    if s != [] && IsSpace(s[0]) {
      LStripSpec(s[1..]);
      var r := LStrip(s[1..]);
      assert s[1..][|s| - 1 - |r|..] == s[|s| - |r|..];
      forall i | 0 <= i < |s| - |r| ensures IsSpace(s[i]) {
        if i > 0 {
          assert s[i] == s[1..][..|s| - 1 - |r|][i - 1];
        }
      }
    }
  }

  /** rstrip() keeps a prefix that ends with a non-space, and drops only whitespace. */
  lemma {:induction false} RStripSpec(s: string)
    ensures |RStrip(s)| <= |s| && RStrip(s) == s[..|RStrip(s)|]
    ensures RStrip(s) != [] ==> !IsSpace(RStrip(s)[|RStrip(s)| - 1])
    ensures AllSpace(s[|RStrip(s)|..])
  {
    if s != [] && IsSpace(s[|s| - 1]) {
      var init := s[..|s| - 1];
      RStripSpec(init);
      var r := RStrip(init);
      assert init[..|r|] == s[..|r|];
      forall i | |r| <= i < |s| ensures IsSpace(s[i]) {
        if i < |s| - 1 {
          assert s[i] == init[|r|..][i - |r|];
        }
      }
    }
  }

  /** strip() leaves no whitespace at either end, and leaves nothing exactly when the text is all whitespace. */
  lemma StripSpec(s: string)
    ensures |Strip(s)| <= |s|
    ensures Strip(s) == [] || (!IsSpace(Strip(s)[0]) && !IsSpace(Strip(s)[|Strip(s)| - 1]))
    ensures Strip(s) == [] <==> AllSpace(s)
  {
    var l := LStrip(s);
    var r := RStrip(l);
    LStripSpec(s);
    RStripSpec(l);
    var k := |s| - |l|;
    if r == [] {
      assert AllSpace(l[0..]);
      assert l == [];
      assert s[..k] == s;
    } else {
      assert r[0] == l[0] == s[k];
    }
  }

  /** The parts one after the other, with the separator between each two neighbours. */
  function JoinWith(parts: seq<string>, sep: string): (r: string)
    ensures |parts| == 1 ==> r == parts[0]
    ensures |parts| >= 1 ==> |r| == TotalLength(parts) + |sep| * (|parts| - 1)
  {
    if |parts| == 0 then ""
    else if |parts| == 1 then parts[0]
    else JoinWith(parts[..|parts| - 1], sep) + sep + parts[|parts| - 1]
  }

  /** The summed lengths of the parts. */
  function TotalLength(parts: seq<string>): nat {
    if parts == [] then 0 else TotalLength(parts[..|parts| - 1]) + |parts[|parts| - 1]|
  }

  /** The first n elements, or all of them when there are fewer. */
  function Take<T>(parts: seq<T>, n: nat): seq<T> {
    if n <= |parts| then parts[..n] else parts
  }

  /** t occurs in s starting at index i. */
  predicate OccursAt(s: string, t: string, i: int) {
    0 <= i <= |s| - |t| && s[i..i + |t|] == t
  }

  /** Python's `t in s` on strings. */
  predicate Contains(s: string, t: string) {
    exists i | 0 <= i <= |s| - |t| :: OccursAt(s, t, i)
  }

  /** Number of characters of s that belong to cs; with a single character, how often it occurs. */
  function CountIn(s: string, cs: set<char>): nat {
    if s == [] then 0 else CountIn(s[..|s| - 1], cs) + (if s[|s| - 1] in cs then 1 else 0)
  }

  predicate IsAsciiUpper(c: char) { 'A' <= c <= 'Z' }
  predicate IsAsciiLetter(c: char) { IsAsciiUpper(c) || 'a' <= c <= 'z' }

  function LowerChar(c: char): char {
    if IsAsciiUpper(c) then (c as int + 32) as char else c
  }

  /** lower(), on the letters that have case in the tables' alphabet (ASCII). */
  function AsciiLower(s: string): (r: string)
    ensures |r| == |s|
  {
    seq(|s|, i requires 0 <= i < |s| => LowerChar(s[i]))
  }

  /** The sentence marks the content rules split on: 。！？ */
  const SentenceMarks: set<char> := {'。', '！', '？'}

  /** No character of the text is a mark. */
  predicate NoMarks(p: string, marks: set<char>) {
    forall j :: 0 <= j < |p| ==> p[j] !in marks
  }

  /** The fragments between the marks of a one-character class, in order, empty ones kept. */
  function SplitOn(s: string, marks: set<char>): (r: seq<string>)
    ensures |r| == CountIn(s, marks) + 1
    ensures forall k :: 0 <= k < |r| ==> NoMarks(r[k], marks)
  {
    if s == [] then [""]
    else
      var rest := SplitOn(s[..|s| - 1], marks);
      var c := s[|s| - 1];
      if c in marks then rest + [""]
      else rest[..|rest| - 1] + [rest[|rest| - 1] + [c]]
  }

  /** The marks of a text, in order. */
  function MarksOf(s: string, marks: set<char>): (m: seq<char>)
    ensures |m| == CountIn(s, marks)
  {
    if s == [] then [] else MarksOf(s[..|s| - 1], marks) + (if s[|s| - 1] in marks then [s[|s| - 1]] else [])
  }

  /** The fragments with the marks put back between them: fragment, mark, fragment, ..., fragment. */
  function Interleave(parts: seq<string>, ms: seq<char>): string
    requires |parts| == |ms| + 1
    decreases |ms|
  {
    if ms == [] then parts[0]
    else Interleave(parts[..|parts| - 1], ms[..|ms| - 1]) + [ms[|ms| - 1]] + parts[|parts| - 1]
  }

  /** Number of fragments that are not blank once stripped. */
  function NonBlankCount(fragments: seq<string>): nat {
    if fragments == [] then 0
    else NonBlankCount(fragments[..|fragments| - 1]) + (if Strip(fragments[|fragments| - 1]) != "" then 1 else 0)
  }

  /** Number of fragments between sentence marks that are not blank once stripped. */
  function SentenceCount(s: string): nat {
    NonBlankCount(SplitOn(s, SentenceMarks))
  }

  /** A character other than a newline repeated at least four times, starting at i. */
  predicate RunAt(s: string, i: int) {
    0 <= i && i + 3 < |s| && s[i] != '\n' && s[i + 1] == s[i] && s[i + 2] == s[i] && s[i + 3] == s[i]
  }

  predicate HasRepeat(s: string) {
    exists i | 0 <= i < |s| :: RunAt(s, i)
  }

  /** The end (exclusive) of the run of equal characters that starts at i. */
  function RunEnd(s: string, i: nat): (j: nat)
    requires i < |s|
    ensures i < j <= |s|
    ensures forall k :: i <= k < j ==> s[k] == s[i]
    ensures j == |s| || s[j] != s[i]
    decreases |s| - i
  {
    if i + 1 < |s| && s[i + 1] == s[i] then RunEnd(s, i + 1) else i + 1
  }

  /**
   * The repeated characters from position i on: scanning from the left, each greedy run of
   * four or more equal non-newline characters contributes its character once.
   */
  function RepeatRuns(s: string, i: nat): seq<char>
    decreases |s| - i
  {
    if i + 4 > |s| then []
    else if RunAt(s, i) then [s[i]] + RepeatRuns(s, RunEnd(s, i))
    else RepeatRuns(s, i + 1)
  }

  /** The characters the digit search treats as digits (ASCII and full-width). */
  predicate IsDigit(c: char) {
    ('0' <= c <= '9') || ('０' <= c <= '９')
  }

  predicate HasDigit(s: string) {
    exists i | 0 <= i < |s| :: IsDigit(s[i])
  }

  // ---------------------------------------------------------------- lemmas

  /** Every character of an occurring text is a character of the text searched. */
  lemma {:induction false} Absent(s: string, t: string, k: nat)
    requires k < |t| && t[k] !in s
    ensures !Contains(s, t)
  {
    forall i | 0 <= i <= |s| - |t|
      ensures !OccursAt(s, t, i)
    {
      assert s[i..i + |t|][k] == s[i + k];
      assert s[i + k] in s;
    }
  }

  /** A witness for `t in s`. */
  lemma Present(s: string, t: string, i: nat)
    requires i + |t| <= |s| && s[i..i + |t|] == t
    ensures Contains(s, t)
  {
    assert OccursAt(s, t, i);
  }

  /**
   * lower() cannot create or destroy an occurrence of a pattern that holds no ASCII letter:
   * the keyword and phrase tables may be searched in the text or in its lower-cased copy alike.
   */
  lemma {:induction false} LowerKeepsMatches(s: string, t: string)
    requires forall j :: 0 <= j < |t| ==> !IsAsciiLetter(t[j])
    ensures Contains(AsciiLower(s), t) <==> Contains(s, t)
  {
    var low := AsciiLower(s);
    forall i | 0 <= i <= |s| - |t|
      ensures OccursAt(low, t, i) <==> OccursAt(s, t, i)
    {
      if OccursAt(low, t, i) {
        forall j | 0 <= j < |t| ensures s[i + j] == t[j] {
          assert low[i + j] == low[i..i + |t|][j] == t[j];
        }
        assert s[i..i + |t|] == t;
      }
      if OccursAt(s, t, i) {
        forall j | 0 <= j < |t| ensures low[i + j] == t[j] {
          assert s[i + j] == s[i..i + |t|][j] == t[j];
        }
        assert low[i..i + |t|] == t;
      }
    }
    if Contains(low, t) {
      var i :| 0 <= i <= |low| - |t| && OccursAt(low, t, i);
      assert OccursAt(s, t, i);
    }
    if Contains(s, t) {
      var i :| 0 <= i <= |s| - |t| && OccursAt(s, t, i);
      assert OccursAt(low, t, i);
    }
  }

  /** Joining with spaces gives the empty text exactly when there is no part, or a single empty one. */
  lemma {:induction false} JoinEmptyIff(parts: seq<string>)
    ensures JoinWith(parts, " ") == "" <==> parts == [] || parts == [""]
  {
    if |parts| > 1 {
      var head := JoinWith(parts[..|parts| - 1], " ");
      assert JoinWith(parts, " ") == head + " " + parts[|parts| - 1];
      assert |JoinWith(parts, " ")| >= 1;
    }
  }

  /** The findall scan finds something exactly when some run of four equal non-newline characters exists. */
  lemma {:induction false} RepeatRunsFrom(s: string, i: nat)
    ensures RepeatRuns(s, i) != [] <==> exists k | i <= k < |s| :: RunAt(s, k)
    decreases |s| - i
  {
    if i + 4 > |s| {
      assert forall k | i <= k < |s| :: !RunAt(s, k);
    } else if RunAt(s, i) {
    } else {
      RepeatRunsFrom(s, i + 1);
      assert forall k | i <= k < |s| :: RunAt(s, k) ==> k >= i + 1;
    }
  }

  lemma RepeatRunsIff(s: string)
    ensures RepeatRuns(s, 0) != [] <==> HasRepeat(s)
  {
    RepeatRunsFrom(s, 0);
  }

  predicate AllSpaceParts(parts: seq<string>) {
    forall k :: 0 <= k < |parts| ==> AllSpace(parts[k])
  }

  predicate MarksAndSpaces(s: string) {
    forall i :: 0 <= i < |s| ==> s[i] in SentenceMarks || IsSpace(s[i])
  }

  lemma StripEmptyIff(s: string)
    ensures Strip(s) == "" <==> AllSpace(s)
  {
    StripSpec(s);
  }

  lemma AllSpacePartsSnoc(parts: seq<string>)
    requires parts != []
    ensures AllSpaceParts(parts) <==> AllSpaceParts(parts[..|parts| - 1]) && AllSpace(parts[|parts| - 1])
  {
  }

  /** No fragment is left once stripped exactly when every fragment is whitespace. */
  lemma {:induction false} NonBlankZeroIff(parts: seq<string>)
    ensures NonBlankCount(parts) == 0 <==> AllSpaceParts(parts)
  {
    if parts != [] {
      var init, last := parts[..|parts| - 1], parts[|parts| - 1];
      NonBlankZeroIff(init);
      StripEmptyIff(last);
      assert NonBlankCount(parts) == NonBlankCount(init) + (if Strip(last) != "" then 1 else 0);
      AllSpacePartsSnoc(parts);
    }
  }

  lemma AllSpaceSnoc(s: string)
    requires s != []
    ensures AllSpace(s) <==> AllSpace(s[..|s| - 1]) && IsSpace(s[|s| - 1])
  {
  }

  lemma MarksAndSpacesSnoc(s: string)
    requires s != []
    ensures MarksAndSpaces(s) <==> MarksAndSpaces(s[..|s| - 1]) && (s[|s| - 1] in SentenceMarks || IsSpace(s[|s| - 1]))
  {
  }

  /** Every fragment of the split is whitespace exactly when the text is all marks and whitespace. */
  lemma {:induction false} SplitBlankIff(s: string)
    ensures AllSpaceParts(SplitOn(s, SentenceMarks)) <==> MarksAndSpaces(s)
    decreases |s|
  {
    if s != [] {
      var init, c := s[..|s| - 1], s[|s| - 1];
      SplitBlankIff(init);
      MarksAndSpacesSnoc(s);
      var rest := SplitOn(init, SentenceMarks);
      var last := rest[|rest| - 1];
      AllSpacePartsSnoc(rest);
      if c in SentenceMarks {
        var r := rest + [""];
        assert SplitOn(s, SentenceMarks) == r;
        AllSpacePartsSnoc(r);
        assert r[..|r| - 1] == rest;
      } else {
        var lc := last + [c];
        var r := rest[..|rest| - 1] + [lc];
        assert SplitOn(s, SentenceMarks) == r;
        AllSpacePartsSnoc(r);
        assert r[..|r| - 1] == rest[..|rest| - 1];
        AllSpaceSnoc(lc);
        assert lc[..|lc| - 1] == last;
      }
    }
  }

  /** A text holds no sentence exactly when every character is a sentence mark or whitespace. */
  lemma SentenceCountZeroIff(s: string)
    ensures SentenceCount(s) == 0 <==> MarksAndSpaces(s)
  {
    NonBlankZeroIff(SplitOn(s, SentenceMarks));
    SplitBlankIff(s);
  }

  // ---------------------------------------------------------------- split and join

  /** Putting the marks back between the fragments of a split gives the text back. */
  lemma {:induction false} SplitOnRoundTrip(s: string, marks: set<char>)
    ensures |SplitOn(s, marks)| == |MarksOf(s, marks)| + 1
    ensures Interleave(SplitOn(s, marks), MarksOf(s, marks)) == s
    decreases |s|
  {
    if s != [] {
      var init, c := s[..|s| - 1], s[|s| - 1];
      SplitOnRoundTrip(init, marks);
      var rest, ms := SplitOn(init, marks), MarksOf(init, marks);
      if c in marks {
        var r := rest + [""];
        assert r[..|r| - 1] == rest;
        assert (ms + [c])[..|ms|] == ms;
        assert Interleave(r, ms + [c]) == Interleave(rest, ms) + [c] + "";
        assert init + [c] == s;
      } else {
        assert SplitOn(s, marks) == rest[..|rest| - 1] + [rest[|rest| - 1] + [c]];
        assert MarksOf(s, marks) == ms;
        InterleaveExtendLast(rest, ms, c);
        assert init + [c] == s;
      }
    }
  }

  /** Extending the last fragment by a character extends the interleaving by it. */
  lemma InterleaveExtendLast(parts: seq<string>, ms: seq<char>, c: char)
    requires |parts| == |ms| + 1
    ensures Interleave(parts[..|parts| - 1] + [parts[|parts| - 1] + [c]], ms) == Interleave(parts, ms) + [c]
  {
    var q := parts[..|parts| - 1] + [parts[|parts| - 1] + [c]];
    if ms != [] {
      assert q[..|q| - 1] == parts[..|parts| - 1];
    }
  }

  /** A text without marks splits into itself alone. */
  lemma {:induction false} SplitOnFree(p: string, marks: set<char>)
    requires NoMarks(p, marks)
    ensures SplitOn(p, marks) == [p]
    decreases |p|
  {
    if p != [] {
      var init := p[..|p| - 1];
      assert NoMarks(init, marks) by { assert forall j :: 0 <= j < |init| ==> init[j] == p[j]; }
      SplitOnFree(init, marks);
      assert init + [p[|p| - 1]] == p;
    }
  }

  /** A mark followed by a mark-free text closes the fragments before it and opens that text as the last one. */
  lemma {:induction false} SplitOnMarkThen(x: string, m: char, p: string, marks: set<char>)
    requires m in marks
    requires NoMarks(p, marks)
    ensures SplitOn(x + [m] + p, marks) == SplitOn(x, marks) + [p]
    decreases |p|
  {
    if p == [] {
      SplitOnSnoc(x, m, marks);
      assert x + [m] + p == x + [m];
    } else {
      var init, d := p[..|p| - 1], p[|p| - 1];
      assert NoMarks(init, marks) by { assert forall j :: 0 <= j < |init| ==> init[j] == p[j]; }
      SplitOnMarkThen(x, m, init, marks);
      SplitOnSnoc(x + [m] + init, d, marks);
      assert x + [m] + init + [d] == x + [m] + p;
      var rest := SplitOn(x, marks) + [init];
      assert rest[..|rest| - 1] == SplitOn(x, marks);
      assert init + [d] == p;
    }
  }

  /** Splitting a text with one more character: a mark opens an empty fragment, any other character extends the last one. */
  lemma SplitOnSnoc(t: string, d: char, marks: set<char>)
    ensures var r := SplitOn(t, marks);
      SplitOn(t + [d], marks) == if d in marks then r + [""] else r[..|r| - 1] + [r[|r| - 1] + [d]]
  {
    assert (t + [d])[..|t|] == t;
  }

  /** Joining parts free of a one-character separator, then splitting on it, gives the parts back. */
  lemma {:induction false} JoinSplitRoundTrip(parts: seq<string>, c: char)
    requires parts != []
    requires forall k :: 0 <= k < |parts| ==> NoMarks(parts[k], {c})
    ensures SplitOn(JoinWith(parts, [c]), {c}) == parts
    decreases |parts|
  {
    if |parts| == 1 {
      SplitOnFree(parts[0], {c});
    } else {
      var init, last := parts[..|parts| - 1], parts[|parts| - 1];
      assert forall k :: 0 <= k < |init| ==> init[k] == parts[k];
      JoinSplitRoundTrip(init, c);
      var joined := JoinWith(init, [c]);
      assert JoinWith(parts, [c]) == joined + [c] + last;
      SplitOnMarkThen(joined, c, last, {c});
      assert parts == init + [last];
    }
  }
}
