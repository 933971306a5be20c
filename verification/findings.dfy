/**
 * The findings a validation run collects: one record per outcome, in generation order,
 * and the counting and filtering by severity that the summary and the display apply.
 */
module Findings {

  /** The four severities; the source spells them エラー, 警告, 情報 and 成功. */
  datatype Severity = Error | Warning | Info | Success

  /** The string each severity is recorded with. */
  function SeverityText(s: Severity): string {
    match s
    case Error => "エラー"
    case Warning => "警告"
    case Info => "情報"
    case Success => "成功"
  }

  /**
   * The four strings are pairwise distinct, so comparing recorded severity strings, as the
   * counting and grouping code does, is comparing severities.
   */
  lemma SeverityTextInjective(a: Severity, b: Severity)
    ensures SeverityText(a) == SeverityText(b) <==> a == b
  {
    if a != b {
      assert SeverityText(a)[0] != SeverityText(b)[0];
    }
  }

  /** One recorded finding: item, type, severity, detail. */
  datatype Finding = Finding(item: string, kind: string, severity: Severity, detail: string)

  /** Which of the four validator families a run performs. */
  datatype Checks = Checks(scores: bool, textLength: bool, spelling: bool, content: bool)

  /** Number of findings of one severity. */
  function CountOf(rs: seq<Finding>, sev: Severity): nat {
    if rs == [] then 0 else CountOf(rs[..|rs| - 1], sev) + (if rs[|rs| - 1].severity == sev then 1 else 0)
  }

  /** Number of findings of one type. */
  function CountKind(rs: seq<Finding>, kind: string): nat {
    if rs == [] then 0 else CountKind(rs[..|rs| - 1], kind) + (if rs[|rs| - 1].kind == kind then 1 else 0)
  }

  /** The findings of one severity, keeping generation order. */
  function OfSeverity(rs: seq<Finding>, sev: Severity): seq<Finding> {
    if rs == [] then []
    else OfSeverity(rs[..|rs| - 1], sev) + (if rs[|rs| - 1].severity == sev then [rs[|rs| - 1]] else [])
  }

  /** Counts the findings of one severity, one record at a time. */
  method CountSeverity(rs: seq<Finding>, sev: Severity) returns (n: nat)
    ensures n == CountOf(rs, sev)
    ensures n == |OfSeverity(rs, sev)|
  {
    n := 0;
    for i := 0 to |rs|
      invariant n == CountOf(rs[..i], sev)
    {
      assert rs[..i + 1][..i] == rs[..i];
      if rs[i].severity == sev {
        n := n + 1;
      }
    }
    assert rs[..|rs|] == rs;
    OfSeverityCounts(rs, sev);
  }

  // ---------------------------------------------------------------- lemmas

  lemma {:induction false} CountOfAppend(a: seq<Finding>, b: seq<Finding>, sev: Severity)
    ensures CountOf(a + b, sev) == CountOf(a, sev) + CountOf(b, sev)
    decreases |b|
  {
    if b != [] {
      assert (a + b)[..|a + b| - 1] == a + b[..|b| - 1];
      CountOfAppend(a, b[..|b| - 1], sev);
    } else {
      assert a + b == a;
    }
  }

  lemma {:induction false} CountKindAppend(a: seq<Finding>, b: seq<Finding>, kind: string)
    ensures CountKind(a + b, kind) == CountKind(a, kind) + CountKind(b, kind)
    decreases |b|
  {
    if b != [] {
      assert (a + b)[..|a + b| - 1] == a + b[..|b| - 1];
      CountKindAppend(a, b[..|b| - 1], kind);
    } else {
      assert a + b == a;
    }
  }

  /**
   * Filtering by severity distributes over concatenation: each group keeps the
   * findings of every stretch of the run in the order they were generated.
   */
  lemma {:induction false} OfSeverityAppend(a: seq<Finding>, b: seq<Finding>, sev: Severity)
    ensures OfSeverity(a + b, sev) == OfSeverity(a, sev) + OfSeverity(b, sev)
    decreases |b|
  {
    if b != [] {
      assert (a + b)[..|a + b| - 1] == a + b[..|b| - 1];
      OfSeverityAppend(a, b[..|b| - 1], sev);
    } else {
      assert a + b == a;
    }
  }

  /** The group of a severity holds exactly the findings of that severity, as many as the count says. */
  lemma {:induction false} OfSeverityCounts(rs: seq<Finding>, sev: Severity)
    ensures |OfSeverity(rs, sev)| == CountOf(rs, sev)
    ensures forall f :: f in OfSeverity(rs, sev) <==> f in rs && f.severity == sev
  {
    if rs != [] {
      var init := rs[..|rs| - 1];
      OfSeverityCounts(init, sev);
      assert rs == init + [rs[|rs| - 1]];
    }
  }

  /** Every finding has one of the four severities. */
  lemma {:induction false} SeveritiesPartition(rs: seq<Finding>)
    ensures CountOf(rs, Error) + CountOf(rs, Warning) + CountOf(rs, Info) + CountOf(rs, Success) == |rs|
  {
    if rs != [] {
      SeveritiesPartition(rs[..|rs| - 1]);
    }
  }

  /** Findings that all share one type and one severity are counted under that type and severity only. */
  lemma {:induction false} UniformCounts(rs: seq<Finding>, kind: string, sev: Severity)
    requires forall f :: f in rs ==> f.kind == kind && f.severity == sev
    ensures forall k :: CountKind(rs, k) == if k == kind then |rs| else 0
    ensures forall s :: CountOf(rs, s) == if s == sev then |rs| else 0
  {
    if rs != [] {
      var init := rs[..|rs| - 1];
      assert forall f :: f in init ==> f in rs;
      UniformCounts(init, kind, sev);
    }
  }

  /** Counting distributes over a run made of three stretches. */
  lemma Counts3(a: seq<Finding>, b: seq<Finding>, c: seq<Finding>)
    ensures forall k :: CountKind(a + b + c, k) == CountKind(a, k) + CountKind(b, k) + CountKind(c, k)
    ensures forall s :: CountOf(a + b + c, s) == CountOf(a, s) + CountOf(b, s) + CountOf(c, s)
  {
    forall k ensures CountKind(a + b + c, k) == CountKind(a, k) + CountKind(b, k) + CountKind(c, k) {
      CountKindAppend(a, b, k);
      CountKindAppend(a + b, c, k);
    }
    forall s ensures CountOf(a + b + c, s) == CountOf(a, s) + CountOf(b, s) + CountOf(c, s) {
      CountOfAppend(a, b, s);
      CountOfAppend(a + b, c, s);
    }
  }

  /** Counting distributes over a run made of four stretches. */
  lemma Counts4(a: seq<Finding>, b: seq<Finding>, c: seq<Finding>, d: seq<Finding>)
    ensures forall k :: CountKind(a + b + c + d, k) == CountKind(a, k) + CountKind(b, k) + CountKind(c, k) + CountKind(d, k)
    ensures forall s :: CountOf(a + b + c + d, s) == CountOf(a, s) + CountOf(b, s) + CountOf(c, s) + CountOf(d, s)
  {
    Counts3(a, b, c);
    forall k ensures CountKind(a + b + c + d, k) == CountKind(a + b + c, k) + CountKind(d, k) {
      CountKindAppend(a + b + c, d, k);
    }
    forall s ensures CountOf(a + b + c + d, s) == CountOf(a + b + c, s) + CountOf(d, s) {
      CountOfAppend(a + b + c, d, s);
    }
  }

  /** A run none of whose findings has a severity counts none of it. */
  lemma {:induction false} NoneOf(rs: seq<Finding>, sev: Severity)
    requires forall f :: f in rs ==> f.severity != sev
    ensures CountOf(rs, sev) == 0
  {
    if rs != [] {
      var init := rs[..|rs| - 1];
      assert forall f :: f in init ==> f in rs;
      NoneOf(init, sev);
    }
  }

  /** Appending four stretches one after the other is appending the last three to the first. */
  lemma AppendAssoc(a: seq<Finding>, b: seq<Finding>, c: seq<Finding>, d: seq<Finding>)
    ensures a + b + c + d == a + (b + c + d)
  {
  }
}
