/** Splicing placeholders over matched spans (SecretSanitizer.sanitize in detectors/builtin.py), for any matches. */
module Sanitizer {
  import opened Ordering
  import CanonicalJson

  /** A match of one pattern: a half-open range of the content and the kind of text found. */
  datatype Span = Span(start: nat, end: nat, kind: string)

  predicate Within(found: seq<Span>, content: string) {
    forall m <- found :: m.start <= m.end <= |content|
  }

  /** Earlier first, then longer, then by kind. */
  predicate SpanLe(a: Span, b: Span) {
    a.start < b.start
    || (a.start == b.start && (a.end > b.end || (a.end == b.end && StringLe(a.kind, b.kind))))
  }

  /** The greedy choice: a span that starts before the end of the last one kept is dropped. */
  function Select(sorted: seq<Span>, cursor: int): seq<Span> {
    if sorted == [] then []
    else if sorted[0].start < cursor then Select(sorted[1..], cursor)
    else [sorted[0]] + Select(sorted[1..], sorted[0].end)
  }

  function Kept(found: seq<Span>): seq<Span> {
    Select(Sort(found, SpanLe), -1)
  }

  predicate Apart(kept: seq<Span>) {
    forall i, j :: 0 <= i < j < |kept| ==> kept[i].end <= kept[j].start
  }

  predicate Covered(pos: int, kept: seq<Span>) {
    exists k <- kept :: k.start <= pos < k.end
  }

  /* ---------- The text, as gaps of content woven with placeholders ---------- */

  function CountKind(kept: seq<Span>, kind: string): nat {
    if kept == [] then 0 else CountKind(kept[..|kept| - 1], kind) + if kept[|kept| - 1].kind == kind then 1 else 0
  }

  function Placeholder(kept: seq<Span>, i: nat): string
    requires i < |kept|
  {
    Mark(kept[i].kind, CountKind(kept[..i + 1], kept[i].kind))
  }

  function Placeholders(kept: seq<Span>): (r: seq<string>)
    ensures |r| == |kept|
  {
    seq(|kept|, i requires 0 <= i < |kept| => Placeholder(kept, i))
  }

  /** The content before each kept span, and after the last. */
  function Gaps(content: string, kept: seq<Span>, cursor: nat): (r: seq<string>)
    requires cursor <= |content| && Within(kept, content) && Apart(kept) && (kept != [] ==> cursor <= kept[0].start)
    ensures |r| == |kept| + 1
  {
    if kept == [] then [content[cursor..]]
    else
      assert Apart(kept[1..]);
      [content[cursor..kept[0].start]] + Gaps(content, kept[1..], kept[0].end)
  }

  function Originals(content: string, kept: seq<Span>): (r: seq<string>)
    requires Within(kept, content)
    ensures |r| == |kept|
  {
    seq(|kept|, i requires 0 <= i < |kept| => content[kept[i].start..kept[i].end])
  }

  /** Gaps and fillings in turn, a gap first and last. */
  function Weave(gaps: seq<string>, fillings: seq<string>): string
    requires |gaps| == |fillings| + 1
  {
    if fillings == [] then gaps[0] else gaps[0] + fillings[0] + Weave(gaps[1..], fillings[1..])
  }

  function Flatten(parts: seq<string>): string {
    if parts == [] then "" else parts[0] + Flatten(parts[1..])
  }

  /** The characters that no kept span covers, in order. */
  function Uncovered(content: string, kept: seq<Span>, from: nat): (r: string)
    requires from <= |content|
    decreases |content| - from
  {
    if from == |content| then ""
    else (if Covered(from, kept) then "" else [content[from]]) + Uncovered(content, kept, from + 1)
  }

  /* ---------- The method ---------- */

  method Sanitize(content: string, found: seq<Span>)
    returns (text: string, containsSecrets: bool, redactionCount: nat, types: seq<string>)
    requires Within(found, content)
    ensures Within(Kept(found), content) && Apart(Kept(found))
    ensures text == Weave(Gaps(content, Kept(found), 0), Placeholders(Kept(found)))
    ensures containsSecrets == (found != [])
    ensures redactionCount == |Kept(found)| == |types|
    ensures forall i :: 0 <= i < |types| ==> types[i] == Kept(found)[i].kind
  {
    hide Kept, Weave, Gaps, Placeholders;
    var selected := SelectSpans(found);
    KeptSpans(found, content);
    KeptEmpty(found);
    if selected == [] {
      NothingKept(content);
      return content, false, 0, [];
    }
    text := Splice(content, selected);
    containsSecrets, redactionCount := true, |selected|;
    types := seq(|selected|, i requires 0 <= i < |selected| => selected[i].kind);
  }

  lemma NothingKept(content: string)
    ensures Weave(Gaps(content, [], 0), Placeholders([])) == content
  {
  }

  method SelectSpans(found: seq<Span>) returns (selected: seq<Span>)
    ensures selected == Kept(found)
  {
    var matches := Sort(found, SpanLe);
    selected := [];
    var cursor: int := -1;
    for i := 0 to |matches|
      invariant selected + Select(matches[i..], cursor) == Select(matches, -1)
    {
      var m := matches[i];
      assert matches[i..] == [m] + matches[i + 1..];
      if m.start < cursor {
        continue;
      }
      selected := selected + [m];
      cursor := m.end;
    }
  }

  method Splice(content: string, selected: seq<Span>) returns (text: string)
    requires Within(selected, content) && Apart(selected)
    ensures text == Weave(Gaps(content, selected, 0), Placeholders(selected))
  {
    hide Weave, Gaps, CountKind, Mark;
    var counters: map<string, nat> := map[];
    var chunks := "";
    var cursor: nat := 0;
    SpliceStart(content, selected);
    for i := 0 to |selected|
      invariant 0 <= cursor <= |content| && (i < |selected| ==> cursor <= selected[i].start)
      invariant Apart(selected[i..])
      invariant forall t :: (if t in counters then counters[t] else 0) == CountKind(selected[..i], t)
      invariant chunks + Remaining(content, selected, i, cursor) == Remaining(content, selected, 0, 0)
    {
      var m := selected[i];
      ghost var before := counters;
      counters := counters[m.kind := (if m.kind in counters then counters[m.kind] else 0) + 1];
      CountNext(selected, i, before, counters);
      RemainingNext(content, selected, i, cursor, chunks);
      chunks := chunks + content[cursor..m.start] + Mark(m.kind, counters[m.kind]);
      cursor := m.end;
    }
    SpliceEnd(content, selected, cursor);
    text := chunks + content[cursor..];
  }

  /** The text still to be written after the first i spans. */
  ghost function Remaining(content: string, kept: seq<Span>, i: nat, cursor: nat): string
    requires i <= |kept| && cursor <= |content| && Within(kept, content) && Apart(kept[i..])
    requires i < |kept| ==> cursor <= kept[i].start
  {
    Weave(Gaps(content, kept[i..], cursor), Placeholders(kept)[i..])
  }

  lemma SpliceStart(content: string, kept: seq<Span>)
    requires Within(kept, content) && Apart(kept)
    ensures kept[0..] == kept && forall t :: CountKind(kept[..0], t) == 0
    ensures Remaining(content, kept, 0, 0) == Weave(Gaps(content, kept, 0), Placeholders(kept))
  {
    assert Placeholders(kept)[0..] == Placeholders(kept);
  }

  lemma SpliceEnd(content: string, kept: seq<Span>, cursor: nat)
    requires cursor <= |content| && Within(kept, content)
    ensures Remaining(content, kept, |kept|, cursor) == content[cursor..]
  {
    assert kept[|kept|..] == [];
  }

  lemma RemainingNext(content: string, kept: seq<Span>, i: nat, cursor: nat, chunks: string)
    requires i < |kept| && Within(kept, content) && Apart(kept) && cursor <= kept[i].start
    ensures Apart(kept[i..]) && Apart(kept[i + 1..])
    ensures chunks + Remaining(content, kept, i, cursor)
         == chunks + content[cursor..kept[i].start] + Placeholder(kept, i) + Remaining(content, kept, i + 1, kept[i].end)
  {
    hide Placeholder, Weave, Gaps;
    WeaveNext(content, kept, i, cursor);
    var gap, mark, rest := content[cursor..kept[i].start], Placeholder(kept, i), Remaining(content, kept, i + 1, kept[i].end);
    assert chunks + (gap + mark + rest) == chunks + gap + mark + rest;
  }

  lemma CountNext(kept: seq<Span>, i: nat, before: map<string, nat>, after: map<string, nat>)
    requires i < |kept|
    requires forall t :: (if t in before then before[t] else 0) == CountKind(kept[..i], t)
    requires after == before[kept[i].kind := (if kept[i].kind in before then before[kept[i].kind] else 0) + 1]
    ensures forall t :: (if t in after then after[t] else 0) == CountKind(kept[..i + 1], t)
  {
    assert kept[..i + 1][..i] == kept[..i];
  }

  lemma WeaveNext(content: string, kept: seq<Span>, i: nat, cursor: nat)
    requires i < |kept| && Within(kept, content) && Apart(kept) && cursor <= kept[i].start
    ensures Apart(kept[i..]) && Apart(kept[i + 1..])
    ensures Weave(Gaps(content, kept[i..], cursor), Placeholders(kept)[i..])
         == content[cursor..kept[i].start] + Placeholders(kept)[i]
            + Weave(Gaps(content, kept[i + 1..], kept[i].end), Placeholders(kept)[i + 1..])
  {
    assert kept[i..][0] == kept[i] && kept[i..][1..] == kept[i + 1..];
    assert Placeholders(kept)[i..][1..] == Placeholders(kept)[i + 1..];
    var gaps := Gaps(content, kept[i..], cursor);
    assert gaps[1..] == Gaps(content, kept[i + 1..], kept[i].end);
  }

  /* ---------- The greedy choice ---------- */

  lemma SpanOrder()
    ensures TotalOrder(SpanLe)
    ensures forall a, b :: SpanLe(a, b) && SpanLe(b, a) ==> a == b
  {
    forall a: Span, b: Span ensures (SpanLe(a, b) || SpanLe(b, a)) && (SpanLe(a, b) && SpanLe(b, a) ==> a == b) {
      StringTotal(a.kind, b.kind);
    }
    forall a: Span, b: Span, c: Span | SpanLe(a, b) && SpanLe(b, c) ensures SpanLe(a, c) {
      if a.kind != b.kind || b.kind != c.kind {
        StringTotal(a.kind, b.kind);
        StringTotal(b.kind, c.kind);
      }
      if StringLe(a.kind, b.kind) && StringLe(b.kind, c.kind) {
        StringTransitive(a.kind, b.kind, c.kind);
      }
    }
  }

  lemma {:induction false} SelectShape(sorted: seq<Span>, cursor: int)
    requires Sorted(sorted, SpanLe) && forall m <- sorted :: m.start <= m.end
    ensures Apart(Select(sorted, cursor))
    ensures forall k <- Select(sorted, cursor) :: k in sorted && cursor <= k.start
    ensures forall m <- sorted :: m in Select(sorted, cursor) || m.start < cursor || Covered(m.start, Select(sorted, cursor))
  {
    if sorted != [] {
      var first, rest := sorted[0], sorted[1..];
      assert forall m <- rest :: SpanLe(first, m);
      assert sorted == [first] + rest;
      if first.start < cursor {
        SelectShape(rest, cursor);
      } else {
        SelectShape(rest, first.end);
        var more := Select(rest, first.end);
        var all := [first] + more;
        forall m | m in sorted
          ensures m in all || m.start < cursor || Covered(m.start, all)
        {
          if m in rest && m !in more && !(m.start < first.end) {
            assert Covered(m.start, more);
          } else if m in rest && m.start < first.end {
            assert first in all && first.start <= m.start;
          }
        }
      }
    }
  }

  lemma {:induction false} SelectLongest(sorted: seq<Span>, cursor: int, m: Span)
    requires Sorted(sorted, SpanLe) && (forall n <- sorted :: n.start <= n.end) && m in sorted
    ensures forall k <- Select(sorted, cursor) :: m.start == k.start ==> m.end <= k.end
  {
    var first, rest := sorted[0], sorted[1..];
    assert sorted == [first] + rest;
    assert forall n <- rest :: SpanLe(first, n);
    var next := if first.start < cursor then cursor else first.end;
    if m in rest {
      SelectLongest(rest, next, m);
    } else {
      SelectShape(rest, next);
    }
  }

  /** Kept spans are matches, in order and apart; every other match starts inside one of them; the longest match at a
      place wins. */
  lemma KeptSpans(found: seq<Span>, content: string)
    requires Within(found, content)
    ensures Within(Kept(found), content) && Apart(Kept(found))
    ensures forall k <- Kept(found) :: k in found
    ensures forall m <- found :: m in Kept(found) || Covered(m.start, Kept(found))
    ensures forall m <- found, k <- Kept(found) :: m.start == k.start ==> m.end <= k.end
  {
    SpanOrder();
    var sorted := Sort(found, SpanLe);
    SortSorts(found, SpanLe);
    assert forall m :: m in found <==> m in sorted by {
      assert forall m :: m in multiset(found) <==> m in found;
      assert forall m :: m in multiset(sorted) <==> m in sorted;
    }
    SelectShape(sorted, -1);
    forall m | m in found
      ensures forall k <- Kept(found) :: m.start == k.start ==> m.end <= k.end
    {
      SelectLongest(sorted, -1, m);
    }
  }

  lemma KeptEmpty(found: seq<Span>)
    ensures Kept(found) == [] <==> found == []
  {
    SpanOrder();
    SortSorts(found, SpanLe);
    var sorted := Sort(found, SpanLe);
    assert |multiset(found)| == |found| && |multiset(sorted)| == |sorted|;
  }

  /** The order in which the patterns report their matches does not matter. */
  lemma KeptIgnoresOrder(a: seq<Span>, b: seq<Span>)
    requires multiset(a) == multiset(b)
    ensures Kept(a) == Kept(b)
  {
    SpanOrder();
    SortIgnoresOrder(a, b, SpanLe);
  }

  /* ---------- What the text keeps of the content ---------- */

  /** Weaving the original spans back gives the content, and the gaps are exactly its uncovered characters in order. */
  lemma {:induction false} OutsideReproduced(content: string, kept: seq<Span>, cursor: nat)
    requires cursor <= |content| && Within(kept, content) && Apart(kept) && (kept != [] ==> cursor <= kept[0].start)
    ensures Weave(Gaps(content, kept, cursor), Originals(content, kept)) == content[cursor..]
    ensures Flatten(Gaps(content, kept, cursor)) == Uncovered(content, kept, cursor)
    decreases |kept|
  {
    if kept == [] {
      UncoveredPlain(content, kept, cursor, |content|);
      assert content[cursor..|content|] == content[cursor..];
      assert Flatten([content[cursor..]]) == content[cursor..];
    } else {
      hide Weave, Uncovered, Originals;
      var k, rest := kept[0], kept[1..];
      assert Apart(rest);
      OutsideReproduced(content, rest, k.end);
      WeaveOriginals(content, kept, cursor);
      assert content[cursor..k.start] + content[k.start..k.end] + content[k.end..] == content[cursor..];
      UncoveredFirst(content, kept, cursor);
      assert Gaps(content, kept, cursor)[1..] == Gaps(content, rest, k.end);
    }
  }

  lemma UncoveredFirst(content: string, kept: seq<Span>, cursor: nat)
    requires cursor <= |content| && Within(kept, content) && Apart(kept) && kept != [] && cursor <= kept[0].start
    ensures Uncovered(content, kept, cursor)
         == content[cursor..kept[0].start] + Uncovered(content, kept[1..], kept[0].end)
  {
    hide Uncovered;
    UncoveredPlain(content, kept, cursor, kept[0].start);
    UncoveredSpan(content, kept, kept[0].start);
    UncoveredRest(content, kept, kept[0].end);
  }

  lemma WeaveOriginals(content: string, kept: seq<Span>, cursor: nat)
    requires kept != [] && Within(kept, content) && Apart(kept) && cursor <= kept[0].start
    ensures Apart(kept[1..])
    ensures Weave(Gaps(content, kept, cursor), Originals(content, kept))
         == content[cursor..kept[0].start] + content[kept[0].start..kept[0].end]
            + Weave(Gaps(content, kept[1..], kept[0].end), Originals(content, kept[1..]))
  {
    assert Originals(content, kept)[1..] == Originals(content, kept[1..]);
    assert Gaps(content, kept, cursor)[1..] == Gaps(content, kept[1..], kept[0].end);
  }

  lemma {:induction false} UncoveredPlain(content: string, kept: seq<Span>, from: nat, to: nat)
    requires from <= to <= |content| && forall k <- kept :: to <= k.start
    ensures Uncovered(content, kept, from) == content[from..to] + Uncovered(content, kept, to)
    decreases |content| - from
  {
    if from < to {
      UncoveredPlain(content, kept, from + 1, to);
      var tail := Uncovered(content, kept, to);
      assert !Covered(from, kept);
      assert Uncovered(content, kept, from) == [content[from]] + (content[from + 1..to] + tail);
      assert content[from..to] + tail == [content[from]] + (content[from + 1..to] + tail);
    } else {
      assert content[from..to] == "";
    }
  }

  lemma {:induction false} UncoveredSpan(content: string, kept: seq<Span>, from: nat)
    requires kept != [] && kept[0].start <= from <= kept[0].end <= |content|
    ensures Uncovered(content, kept, from) == Uncovered(content, kept, kept[0].end)
    decreases kept[0].end - from
  {
    if from < kept[0].end {
      assert Covered(from, kept);
      UncoveredSpan(content, kept, from + 1);
    }
  }

  lemma {:induction false} UncoveredRest(content: string, kept: seq<Span>, from: nat)
    requires kept != [] && kept[0].end <= from <= |content|
    ensures Uncovered(content, kept, from) == Uncovered(content, kept[1..], from)
    decreases |content| - from
  {
    if from < |content| {
      assert kept == [kept[0]] + kept[1..];
      assert Covered(from, kept) == Covered(from, kept[1..]);
      UncoveredRest(content, kept, from + 1);
    }
  }

  /** Some matched text survives exactly when a match runs past the end of a kept span and no match starts there. */
  lemma MatchedTextSurvives(found: seq<Span>, content: string)
    requires Within(found, content) && forall m <- found :: m.start < m.end
    ensures (exists m <- found, pos | m.start <= pos < m.end :: !Covered(pos, Kept(found)))
       <==> exists m <- found, k <- Kept(found) :: m.start < k.end < m.end && forall n <- found :: n.start != k.end
  {
    KeptSpans(found, content);
    var kept := Kept(found);
    if m, k :| m in found && k in kept && m.start < k.end < m.end && forall n <- found :: n.start != k.end {
      EndUncovered(kept, k);
      assert m.start <= k.end < m.end && !Covered(k.end, kept);
    }
    if m, pos :| m in found && m.start <= pos < m.end && !Covered(pos, kept) {
      StartCovered(found, content, m);
      var k := FirstUncovered(kept, m.start, pos);
      if n :| n in found && n.start == k.end {
        StartCovered(found, content, n);
      }
    }
  }

  /** Two matches that overlap: the second is dropped, and its last character stays in the text. */
  lemma LastCharacterSurvives()
    ensures var found := [Span(0, 2, "A"), Span(1, 3, "B")];
            Within(found, "abc") && Kept(found) == [Span(0, 2, "A")] && !Covered(2, Kept(found))
  {
    var a, b := Span(0, 2, "A"), Span(1, 3, "B");
    var found := [a, b];
    assert found[..1] == [a] && found[..1][..0] == [];
    assert Sort([a], SpanLe) == [a] by {
      assert [a][..0] == [];
    }
    assert Insert(b, [a], SpanLe) == [a, b] by {
      assert [a][1..] == [];
    }
    assert Sort(found, SpanLe) == found;
    assert found[1..] == [b] && [b][1..] == [];
    assert Select([b], 2) == [];
    assert Select(found, -1) == [a] + Select([b], 2);
  }

  lemma StartCovered(found: seq<Span>, content: string, m: Span)
    requires Within(found, content) && m in found && m.start < m.end
    ensures Covered(m.start, Kept(found))
  {
    KeptSpans(found, content);
  }

  lemma EndUncovered(kept: seq<Span>, k: Span)
    requires Apart(kept) && k in kept && forall n <- kept :: n.start < n.end && n.start != k.end
    ensures !Covered(k.end, kept)
  {
  }

  /** Between a covered and an uncovered position there is a kept span that ends at an uncovered one. */
  lemma {:induction false} FirstUncovered(kept: seq<Span>, from: int, pos: int) returns (k: Span)
    requires from <= pos && Covered(from, kept) && !Covered(pos, kept)
    ensures k in kept && from < k.end <= pos && !Covered(k.end, kept)
    decreases pos - from
  {
    k :| k in kept && k.start <= from < k.end;
    assert !(k.start <= pos < k.end);
    if Covered(k.end, kept) {
      k := FirstUncovered(kept, k.end, pos);
    }
  }

  /* ---------- Placeholders ---------- */

  lemma {:induction false} CountGrows(kept: seq<Span>, i: nat, j: nat, kind: string)
    requires i <= j <= |kept|
    ensures CountKind(kept[..i], kind) <= CountKind(kept[..j], kind)
    decreases j
  {
    if i < j {
      CountGrows(kept, i, j - 1, kind);
      assert kept[..j][..j - 1] == kept[..j - 1];
    }
  }

  lemma SplitAtUnderscore(a: string, b: string, m: string, n: string)
    requires a + "_" + m == b + "_" + n && '_' !in m && '_' !in n
    ensures a == b && m == n
  {
    var s := a + "_" + m;
    assert s == b + "_" + n;
    assert s[|a|] == '_' && s[|b|] == '_';
    assert forall i :: |a| < i < |s| ==> s[i] == m[i - |a| - 1];
    assert forall i :: |b| < i < |s| ==> s[i] == n[i - |b| - 1];
    assert |a| == |b|;
    assert s[..|a|] == a && s[..|b|] == b;
    assert s[|a| + 1..] == m && s[|b| + 1..] == n;
  }

  function Mark(kind: string, n: nat): string {
    "<REDACTED:" + kind + "_" + CanonicalJson.Digits(n) + ">"
  }

  lemma MarkInjective(a: string, m: nat, b: string, n: nat)
    requires Mark(a, m) == Mark(b, n)
    ensures a == b && m == n
  {
    hide CanonicalJson.Digits;
    CanonicalJson.DigitsRead(m);
    CanonicalJson.DigitsRead(n);
    var d, e := CanonicalJson.Digits(m), CanonicalJson.Digits(n);
    var s, t := Mark(a, m), Mark(b, n);
    assert s[10..|s| - 1] == a + "_" + d;
    assert t[10..|t| - 1] == b + "_" + e;
    assert '_' !in d && '_' !in e;
    SplitAtUnderscore(a, b, d, e);
  }

  /** No two placeholders of one text are the same. */
  lemma PlaceholdersDistinct(kept: seq<Span>, i: nat, j: nat)
    requires i < j < |kept|
    ensures Placeholder(kept, i) != Placeholder(kept, j)
  {
    hide Mark;
    var m, n := CountKind(kept[..i + 1], kept[i].kind), CountKind(kept[..j + 1], kept[j].kind);
    assert kept[..j + 1][..j] == kept[..j];
    CountGrows(kept, i + 1, j, kept[j].kind);
    if Placeholder(kept, i) == Placeholder(kept, j) {
      MarkInjective(kept[i].kind, m, kept[j].kind, n);
    }
  }
}
