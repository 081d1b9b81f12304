/** The capped excerpt of a listing page: windows around keyword hits, merged, and assembled after the page head. */
module Excerpt {
  import opened Prelude

  const HEAD := 1500
  const BEFORE := 600
  const AFTER := 1400
  const STRIDE := 2000
  const MAX_HITS := 20
  const SEPARATOR := "\n\U{2014}n"
  const KEYWORDS := [
    "$", "laundry", "washer", "dryer", "floor plan", "floorplan", "amenit", "broker fee", "no fee", "per month", "/mo",
    "available"]

  /** A half-open window [start, end); empty when `end <= start`. */
  datatype Span = Span(start: nat, end: nat)

  // ---------------------------------------------------------------- keyword hits

  predicate Occurs(text: string, keyword: string, at: nat) {
    at + |keyword| <= |text| && text[at..at + |keyword|] == keyword
  }

  /** str.find: the first occurrence at or after `from`. */
  function First(text: string, keyword: string, from: nat): (at: Option<nat>)
    ensures at.Some? ==> from <= at.value && Occurs(text, keyword, at.value)
    ensures at.Some? ==> forall p: nat :: from <= p < at.value ==> !Occurs(text, keyword, p)
    ensures at.None? ==> forall p: nat :: from <= p ==> !Occurs(text, keyword, p)
    decreases |text| - from
  {
    if from + |keyword| > |text| then None
    else if Occurs(text, keyword, from) then Some(from)
    else First(text, keyword, from + 1)
  }

  /** The hits of one keyword: at most `left`, each the first at least STRIDE after the one before. */
  function Hits(text: string, keyword: string, from: nat, left: nat): seq<nat>
    decreases left
  {
    if left == 0 then
      []
    else
      var at := First(text, keyword, from);
      if at.None? then [] else [at.value] + Hits(text, keyword, at.value + STRIDE, left - 1)
  }

  function Window(text: string, at: nat): Span {
    Span(Max(0, at - BEFORE), Min(|text|, at + AFTER))
  }

  function Windows(text: string, hits: seq<nat>): seq<Span> {
    seq(|hits|, k requires 0 <= k < |hits| => Window(text, hits[k]))
  }

  function Collected(text: string, lowered: string, keywords: seq<string>): seq<Span> {
    if keywords == [] then
      []
    else
      var last := |keywords| - 1;
      Collected(text, lowered, keywords[..last]) + Windows(text, Hits(lowered, keywords[last], 0, MAX_HITS))
  }

  predicate Covered(spans: seq<Span>, x: nat) {
    exists k :: 0 <= k < |spans| && spans[k].start <= x < spans[k].end
  }

  /** Hits are occurrences, in order and at least STRIDE apart. */
  lemma {:induction false} HitsAreSpaced(text: string, keyword: string, from: nat, left: nat)
    ensures |Hits(text, keyword, from, left)| <= left
    ensures forall h :: h in Hits(text, keyword, from, left) ==> from <= h && Occurs(text, keyword, h)
    ensures Spaced(Hits(text, keyword, from, left))
    decreases left
  {
    hide Occurs, First;
    if left > 0 && First(text, keyword, from).Some? {
      var at := First(text, keyword, from).value;
      var rest := Hits(text, keyword, at + STRIDE, left - 1);
      HitsAreSpaced(text, keyword, at + STRIDE, left - 1);
      var hits := Hits(text, keyword, from, left);
      assert hits == [at] + rest;
      forall k: nat, n: nat | k < n < |hits| ensures hits[k] + STRIDE <= hits[n] {
        assert hits[n] == rest[n - 1] && rest[n - 1] in rest;
        assert k > 0 ==> hits[k] == rest[k - 1];
      }
    }
  }

  predicate Spaced(hits: seq<nat>) {
    forall k: nat, n: nat | k < n < |hits| :: hits[k] + 2000 <= hits[n]
  }

  /** Position `p` lies in the stride that follows one of the hits. */
  predicate InStride(hits: seq<nat>, p: nat) {
    exists k: nat :: k < |hits| && hits[k] <= p < hits[k] + 2000
  }

  /** Until a keyword's hits run out, every occurrence falls into the stride of one. */
  lemma {:induction false} HitsReachEveryOccurrence(text: string, keyword: string, from: nat, left: nat, p: nat)
    requires from <= p && Occurs(text, keyword, p)
    ensures
      var hits := Hits(text, keyword, from, left);
      InStride(hits, p) || (|hits| == left && (left > 0 ==> hits[left - 1] + STRIDE <= p))
    decreases left
  {
    hide Occurs;
    if left > 0 && First(text, keyword, from).Some? {
      var at := First(text, keyword, from).value;
      var hits := Hits(text, keyword, from, left);
      var rest := Hits(text, keyword, at + STRIDE, left - 1);
      if p < at + STRIDE {
        assert hits[0] <= p < hits[0] + STRIDE;
      } else {
        HitsReachEveryOccurrence(text, keyword, at + STRIDE, left - 1, p);
        if InStride(rest, p) {
          var k: nat :| k < |rest| && rest[k] <= p < rest[k] + STRIDE;
          assert hits[k + 1] == rest[k];
        }
      }
    }
  }

  lemma StrideCoveredIff(text: string, hits: seq<nat>, p: nat, k: nat)
    requires p < |text| && Spaced(hits) && k < |hits| && hits[k] <= p < hits[k] + STRIDE
    ensures Covered(Windows(text, hits), p) <==>
              p < hits[k] + AFTER || (k + 1 < |hits| && hits[k + 1] <= p + BEFORE)
  {
    var windows := Windows(text, hits);
    if p < hits[k] + AFTER {
      assert windows[k].start <= p < windows[k].end;
    } else if k + 1 < |hits| && hits[k + 1] <= p + BEFORE {
      assert windows[k + 1].start <= p < windows[k + 1].end;
    }
    if Covered(windows, p) {
      var n: nat :| n < |windows| && windows[n].start <= p < windows[n].end;
      if n < k {
        assert hits[n] + STRIDE <= hits[k];
      } else if n > k + 1 {
        assert hits[k] + STRIDE <= hits[k + 1] && hits[k + 1] + STRIDE <= hits[n];
      }
    }
  }

  /**
   * Unless the keyword's hits ran out before it, an occurrence is inside the keyword's own windows exactly when it
   * starts within AFTER characters of the hit at or before it, or within BEFORE characters of the next hit: the rest of
   * the stride is never looked at.
   */
  lemma OccurrenceCoveredIff(text: string, lowered: string, keyword: string, p: nat) returns (k: nat)
    requires p < |text| && Occurs(lowered, keyword, p)
    ensures
      var hits := Hits(lowered, keyword, 0, 20);
      || (|hits| == 20 && hits[19] + 2000 <= p)
      || (k < |hits| && hits[k] <= p < hits[k] + 2000
          && (Covered(Windows(text, hits), p) <==>
                p < hits[k] + 1400 || (k + 1 < |hits| && hits[k + 1] <= p + 600)))
  {
    hide Occurs, Hits, Covered, Windows;
    var hits := Hits(lowered, keyword, 0, MAX_HITS);
    HitsAreSpaced(lowered, keyword, 0, MAX_HITS);
    HitsReachEveryOccurrence(lowered, keyword, 0, MAX_HITS, p);
    k := 0;
    if InStride(hits, p) {
      k :| k < |hits| && hits[k] <= p < hits[k] + STRIDE;
      StrideCoveredIff(text, hits, p, k);
    }
  }

  // ---------------------------------------------------------------- sorting and merging

  /** The order of two-element lists. */
  predicate LessEq(a: Span, b: Span) {
    a.start < b.start || (a.start == b.start && a.end <= b.end)
  }

  predicate Sorted(spans: seq<Span>) {
    forall a, b :: 0 <= a < b < |spans| ==> LessEq(spans[a], spans[b])
  }

  /** Any two windows leave a gap between them. */
  predicate Separated(spans: seq<Span>) {
    forall a, b :: 0 <= a < b < |spans| ==> spans[a].end < spans[b].start && spans[a].start <= spans[b].start
  }

  function Inserted(sorted: seq<Span>, span: Span): (r: seq<Span>)
    requires Sorted(sorted)
    ensures Sorted(r) && multiset(r) == multiset(sorted) + multiset{span}
    ensures forall x :: x in r ==> x in sorted || x == span
  {
    if sorted == [] then
      [span]
    else
      var front, last := sorted[..|sorted| - 1], sorted[|sorted| - 1];
      assert sorted == front + [last];
      assert forall x :: x in front ==> LessEq(x, last);
      if LessEq(last, span) then
        SortedSnoc(sorted, span);
        sorted + [span]
      else
        SortedSnoc(Inserted(front, span), last);
        Inserted(front, span) + [last]
  }

  lemma SortedSnoc(front: seq<Span>, last: Span)
    requires Sorted(front) && forall x :: x in front ==> LessEq(x, last)
    ensures Sorted(front + [last])
  {
  }

  /** list.sort() on the windows. */
  function InOrder(spans: seq<Span>): (r: seq<Span>)
    ensures Sorted(r) && multiset(r) == multiset(spans)
  {
    if spans == [] then
      []
    else
      assert spans == spans[..|spans| - 1] + [spans[|spans| - 1]];
      Inserted(InOrder(spans[..|spans| - 1]), spans[|spans| - 1])
  }

  lemma CoveredSnoc(spans: seq<Span>, span: Span, x: nat)
    ensures Covered(spans + [span], x) <==> Covered(spans, x) || span.start <= x < span.end
  {
    var more := spans + [span];
    assert more[|spans|] == span;
    if Covered(spans, x) {
      var k :| 0 <= k < |spans| && spans[k].start <= x < spans[k].end;
      assert more[k] == spans[k];
    }
  }

  lemma NothingCovered()
    ensures Separated([]) && forall x: nat :: !Covered([], x)
  {
  }

  lemma CoveredByMultiset(a: seq<Span>, b: seq<Span>)
    requires multiset(a) == multiset(b)
    ensures forall x: nat :: Covered(a, x) <==> Covered(b, x)
  {
    forall x: nat ensures Covered(a, x) <==> Covered(b, x) {
      if Covered(a, x) {
        var k :| 0 <= k < |a| && a[k].start <= x < a[k].end;
        assert a[k] in multiset(b);
        var n :| 0 <= n < |b| && b[n] == a[k];
      }
      if Covered(b, x) {
        var k :| 0 <= k < |b| && b[k].start <= x < b[k].end;
        assert b[k] in multiset(a);
        var n :| 0 <= n < |a| && a[n] == b[k];
      }
    }
  }

  /** One step of the merge loop: extend the last window, or open a new one. */
  function Absorb(merged: seq<Span>, span: Span): seq<Span> {
    if merged != [] && span.start <= merged[|merged| - 1].end then
      var last := merged[|merged| - 1];
      merged[..|merged| - 1] + [last.(end := Max(last.end, span.end))]
    else
      merged + [span]
  }

  lemma AbsorbKeepsSeparated(merged: seq<Span>, span: Span)
    requires Separated(merged) && (merged != [] ==> merged[|merged| - 1].start <= span.start)
    ensures Separated(Absorb(merged, span)) && Absorb(merged, span) != []
    ensures Absorb(merged, span)[|Absorb(merged, span)| - 1].start <= span.start
  {
    var r := Absorb(merged, span);
    forall a, b | 0 <= a < b < |r| ensures r[a].end < r[b].start && r[a].start <= r[b].start {
      assert r[a] == merged[a];
      if b < |merged| {
        assert r[b].start == merged[b].start;
      } else {
        assert r[b] == span;
        assert a < |merged| - 1 ==> merged[a].end < merged[|merged| - 1].start;
      }
    }
  }

  lemma AbsorbCovers(merged: seq<Span>, span: Span, x: nat)
    requires merged != [] ==> merged[|merged| - 1].start <= span.start
    ensures Covered(Absorb(merged, span), x) <==> Covered(merged, x) || span.start <= x < span.end
  {
    hide Covered;
    if merged != [] && span.start <= merged[|merged| - 1].end {
      var front, last := merged[..|merged| - 1], merged[|merged| - 1];
      assert merged == front + [last];
      CoveredSnoc(front, last, x);
      CoveredSnoc(front, last.(end := Max(last.end, span.end)), x);
    } else {
      CoveredSnoc(merged, span, x);
    }
  }

  /** Sorted windows become separated ones that cover exactly the same characters. */
  method MergeSpans(sorted: seq<Span>) returns (merged: seq<Span>)
    requires Sorted(sorted)
    ensures Separated(merged)
    ensures forall x: nat :: Covered(merged, x) <==> Covered(sorted, x)
    ensures merged == [] <==> sorted == []
  {
    hide Covered, Separated, LessEq;
    merged := [];
    assert Separated([]) by { NothingCovered(); }
    for n := 0 to |sorted|
      invariant Separated(merged)
      invariant forall x: nat :: Covered(merged, x) <==> Covered(sorted[..n], x)
      invariant merged == [] <==> n == 0
      invariant merged != [] ==> n > 0 && merged[|merged| - 1].start <= sorted[n - 1].start
    {
      var span := sorted[n];
      ghost var before := merged;
      assert n > 0 ==> sorted[n - 1].start <= span.start by { InStartOrder(sorted, n); }
      if merged != [] && span.start <= merged[|merged| - 1].end {
        var last := merged[|merged| - 1];
        merged := merged[|merged| - 1 := last.(end := Max(last.end, span.end))];
      } else {
        merged := merged + [span];
      }
      assert merged == Absorb(before, span);
      AbsorbKeepsSeparated(before, span);
      assert sorted[..n + 1] == sorted[..n] + [span];
      forall x: nat ensures Covered(merged, x) <==> Covered(sorted[..n + 1], x) {
        AbsorbCovers(before, span, x);
        CoveredSnoc(sorted[..n], span, x);
      }
    }
    assert sorted[..|sorted|] == sorted;
  }

  lemma InStartOrder(sorted: seq<Span>, n: nat)
    requires Sorted(sorted) && n < |sorted|
    ensures n > 0 ==> sorted[n - 1].start <= sorted[n].start
  {
  }

  // ---------------------------------------------------------------- assembly

  /** text[start:end], empty when the bounds cross or lie outside. */
  function Slice(text: string, start: nat, end: nat): string {
    var to := Min(end, |text|);
    if start <= to then text[start..to] else ""
  }

  function Take(s: string, n: int): string {
    if n <= 0 then "" else if n >= |s| then s else s[..n]
  }

  function Flatten(pieces: seq<string>): string {
    if pieces == [] then "" else Flatten(pieces[..|pieces| - 1]) + pieces[|pieces| - 1]
  }

  function Join(pieces: seq<string>): string {
    if pieces == [] then ""
    else if |pieces| == 1 then pieces[0]
    else Join(pieces[..|pieces| - 1]) + SEPARATOR + pieces[|pieces| - 1]
  }

  function Texts(text: string, windows: seq<Span>): seq<string> {
    seq(|windows|, k requires 0 <= k < |windows| => Slice(text, windows[k].start, windows[k].end))
  }

  lemma {:induction false} FlattenPrefix(pieces: seq<string>, n: nat)
    requires n <= |pieces|
    ensures |Flatten(pieces[..n])| <= |Flatten(pieces)|
    ensures Flatten(pieces[..n]) == Flatten(pieces)[..|Flatten(pieces[..n])|]
  {
    if n == |pieces| {
      assert pieces[..n] == pieces;
    } else {
      var front := pieces[..|pieces| - 1];
      assert front[..n] == pieces[..n];
      FlattenPrefix(front, n);
    }
  }

  lemma FlattenSnoc(pieces: seq<string>, chunk: string)
    ensures Flatten(pieces + [chunk]) == Flatten(pieces) + chunk
  {
    assert (pieces + [chunk])[..|pieces|] == pieces;
  }

  lemma TakeMore(flat: string, more: string, room: int)
    requires |flat| < room
    ensures Take(flat + more, room) == flat + Take(more, room - |flat|)
  {
  }

  lemma TakeEnough(flat: string, all: string, room: int)
    requires |flat| <= |all| && flat == all[..|flat|] && (|flat| < room ==> flat == all)
    ensures Take(all, room) == Take(flat, room)
  {
  }

  lemma ChunkIsTaken(text: string, span: Span, room: nat)
    ensures Slice(text, span.start, Min(span.end, span.start + room)) == Take(Slice(text, span.start, span.end), room)
  {
    var whole := Slice(text, span.start, span.end);
    var chunk := Slice(text, span.start, Min(span.end, span.start + room));
    if room < |whole| {
      assert whole == text[span.start..Min(span.end, |text|)];
      assert chunk == text[span.start..span.start + room] == whole[..room];
    } else {
      assert chunk == whole;
    }
  }

  /** A cut keeps the beginning, as much of it as there is room for. */
  lemma TakeIsPrefix(s: string, n: int)
    ensures |Take(s, n)| == (if n < 0 then 0 else if n < |s| then n else |s|)
    ensures Take(s, n) == s[..|Take(s, n)|]
  {
  }

  /** The text of a window is what stands there, as far as the page goes. */
  lemma WindowText(text: string, windows: seq<Span>, k: nat, x: nat)
    requires k < |windows| && windows[k].start <= x < windows[k].end && x < |text|
    ensures x - windows[k].start < |Texts(text, windows)[k]|
    ensures Texts(text, windows)[k][x - windows[k].start] == text[x]
    ensures |Texts(text, windows)[k]| <= windows[k].end - windows[k].start
  {
  }

  /** The first position of the window around a hit, and the one after its last. */
  lemma WindowBounds(text: string, at: nat)
    requires at < |text|
    ensures Window(text, at).start == (if at < 600 then 0 else at - 600)
    ensures Window(text, at).end == (if at + 1400 < |text| then at + 1400 else |text|)
  {
  }

  /** Pieces are joined by a line break, a dash and the letter n. */
  lemma {:induction false} JoinedBy(pieces: seq<string>, last: string)
    requires pieces != []
    ensures Join(pieces + [last]) == Join(pieces) + ("\n\U{2014}n" + last)
  {
    var all := pieces + [last];
    assert |all| == |pieces| + 1 && all[|pieces|] == last && all[..|pieces|] == pieces;
    assert Join(all) == Join(pieces) + SEPARATOR + last;
    assert Join(pieces) + SEPARATOR + last == Join(pieces) + (SEPARATOR + last);
  }

  /** The page head, then as much of the windows' text, in order, as the cap leaves room for. */
  method Assemble(text: string, merged: seq<Span>, cap: nat) returns (pieces: seq<string>)
    ensures pieces != [] && pieces[0] == Take(text, HEAD)
    ensures Flatten(pieces[1..]) == Take(Flatten(Texts(text, merged)), cap - |pieces[0]|)
  {
    hide Flatten, Take, Slice;
    ghost var texts := Texts(text, merged);
    var head := Slice(text, 0, HEAD);
    assert head == Take(text, HEAD) by { HeadIsTaken(text); }
    pieces := [head];
    var total := |head|;
    ghost var room := cap - |head|;
    ghost var kept := "";
    var n := 0;
    assert texts[..0] == [] && pieces[1..] == [];
    assert Flatten([]) == "" && Take("", room) == "" by { NothingTaken(room); }
    while n < |merged| && total < cap
      invariant 0 <= n <= |merged|
      invariant pieces != [] && pieces[0] == head
      invariant kept == Flatten(pieces[1..]) == Take(Flatten(texts[..n]), room)
      invariant total < cap ==> kept == Flatten(texts[..n])
      invariant total == |head| + |kept|
    {
      var span := merged[n];
      var chunk := Slice(text, span.start, Min(span.end, span.start + (cap - total)));
      ChunkIsTaken(text, span, cap - total);
      FlattenSnoc(texts[..n], texts[n]);
      assert texts[..n + 1] == texts[..n] + [texts[n]];
      TakeMore(kept, texts[n], room);
      FlattenSnoc(pieces[1..], chunk);
      assert (pieces + [chunk])[1..] == pieces[1..] + [chunk];
      assert total + |chunk| < cap ==> chunk == texts[n] by { TakenShort(texts[n], cap - total); }
      pieces := pieces + [chunk];
      total := total + |chunk|;
      kept := kept + chunk;
      n := n + 1;
    }
    FlattenPrefix(texts, n);
    assert texts[..|merged|] == texts;
    TakeEnough(Flatten(texts[..n]), Flatten(texts), room) by { EnoughKept(Flatten(texts[..n]), kept, room); }
  }

  lemma HeadIsTaken(text: string)
    ensures Slice(text, 0, HEAD) == Take(text, HEAD)
  {
  }

  lemma NothingTaken(room: int)
    ensures Flatten([]) == "" && Take("", room) == ""
  {
  }

  lemma TakenShort(s: string, room: nat)
    ensures |Take(s, room)| < room ==> Take(s, room) == s
  {
  }

  lemma EnoughKept(flat: string, kept: string, room: int)
    requires kept == Take(flat, room)
    ensures |flat| < room ==> |kept| < room
  {
  }

  // ---------------------------------------------------------------- the excerpt

  /** The windows of one keyword. */
  method KeywordSpans(text: string, lowered: string, keyword: string) returns (spans: seq<Span>)
    ensures spans == Windows(text, Hits(lowered, keyword, 0, 20))
  {
    hide First, Window, Hits, Windows;
    ghost var hits := Hits(lowered, keyword, 0, MAX_HITS);
    ghost var found: seq<nat> := [];
    spans := [];
    assert Windows(text, []) == [] by { WindowsSnoc(text, [], 0); }
    var start: nat, left: nat := 0, MAX_HITS;
    while left > 0
      invariant hits == found + Hits(lowered, keyword, start, left)
      invariant spans == Windows(text, found)
    {
      HitsUnfold(lowered, keyword, start, left);
      var at := First(lowered, keyword, start);
      if at.None? {
        assert hits == found;
        return;
      }
      WindowsSnoc(text, found, at.value);
      spans := spans + [Window(text, at.value)];
      found := found + [at.value];
      start := at.value + STRIDE;
      left := left - 1;
    }
    HitsUnfold(lowered, keyword, start, left);
    assert hits == found;
  }

  lemma WindowsSnoc(text: string, hits: seq<nat>, at: nat)
    ensures Windows(text, []) == [] && Windows(text, hits + [at]) == Windows(text, hits) + [Window(text, at)]
  {
  }

  lemma HitsUnfold(text: string, keyword: string, from: nat, left: nat)
    ensures left == 0 || First(text, keyword, from).None? ==> Hits(text, keyword, from, left) == []
    ensures left > 0 && First(text, keyword, from).Some? ==>
      var at := First(text, keyword, from).value;
      Hits(text, keyword, from, left) == [at] + Hits(text, keyword, at + STRIDE, left - 1)
  {
  }

  method CollectSpans(text: string, lowered: string, keywords: seq<string>) returns (spans: seq<Span>)
    ensures spans == Collected(text, lowered, keywords)
  {
    hide Windows, Hits;
    spans := [];
    for n := 0 to |keywords|
      invariant spans == Collected(text, lowered, keywords[..n])
    {
      var found := KeywordSpans(text, lowered, keywords[n]);
      assert keywords[..n + 1][..n] == keywords[..n];
      spans := spans + found;
    }
    assert keywords[..|keywords|] == keywords;
  }

  /** `lowered` is text.lower(); nothing is assumed of it, not even its length. */
  method RelevantExcerpt(text: string, lowered: string, cap: nat)
    returns (excerpt: string, ghost windows: seq<Span>, ghost pieces: seq<string>)
    ensures |excerpt| <= cap && (|text| <= cap ==> excerpt == text)
    ensures |text| > cap && Collected(text, lowered, KEYWORDS) == [] ==> excerpt == text[..cap]
    ensures |text| > cap && Collected(text, lowered, KEYWORDS) != [] ==>
      && Separated(windows)
      && (forall x: nat :: Covered(windows, x) <==> Covered(Collected(text, lowered, KEYWORDS), x))
      && pieces != [] && pieces[0] == Take(text, 1500)
      && Flatten(pieces[1..]) == Take(Flatten(Texts(text, windows)), cap - |pieces[0]|)
      && excerpt == Take(Join(pieces), cap)
  {
    windows, pieces := [], [];
    if |text| <= cap {
      return text, [], [];
    }
    var spans := CollectSpans(text, lowered, KEYWORDS);
    if spans == [] {
      return text[..cap], [], [];
    }
    var sorted := InOrder(spans);
    CoveredByMultiset(spans, sorted);
    var merged := MergeSpans(sorted);
    var chunks := Assemble(text, merged, cap);
    windows, pieces := merged, chunks;
    excerpt := Take(Join(chunks), cap);
  }
}
