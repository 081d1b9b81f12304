/** A page whose excerpt leaves a price out because it follows another one too closely. */
module ExcerptWitness {
  import opened Prelude
  import opened Excerpt

  const MAX_PAGE_CHARS := 14000

  /** A page of 15000 characters: a dollar sign at its start, and the price $9 at position 1500. */
  function TwoPrices(): (text: string)
    ensures |text| == 15000
  {
    seq(15000, i => if i == 0 || i == 1500 then '$' else if i == 1501 then '9' else 'x')
  }

  lemma PricesOnly(at: nat)
    requires at < 15000
    ensures TwoPrices()[at] == if at == 0 || at == 1500 then '$' else if at == 1501 then '9' else 'x'
  {
  }

  /** A keyword whose first character is nowhere from `from` on is not found. */
  lemma NotFound(keyword: string, from: nat)
    requires keyword != [] && forall p: nat :: from <= p < 15000 ==> TwoPrices()[p] != keyword[0]
    ensures First(TwoPrices(), keyword, from) == None
  {
    hide TwoPrices, First, Occurs;
    var at := First(TwoPrices(), keyword, from);
    if at.Some? {
      OccurrenceStarts(TwoPrices(), keyword, at.value);
    }
  }

  lemma OccurrenceStarts(text: string, keyword: string, p: nat)
    requires keyword != [] && Occurs(text, keyword, p)
    ensures p < |text| && text[p] == keyword[0]
  {
    assert text[p..p + |keyword|][0] == keyword[0];
  }

  lemma NoOccurrence(keyword: string)
    requires keyword != [] && keyword[0] != '$' && keyword[0] != 'x' && keyword[0] != '9'
    ensures Hits(TwoPrices(), keyword, 0, MAX_HITS) == []
  {
    hide TwoPrices, First;
    forall p: nat | p < 15000 ensures TwoPrices()[p] != keyword[0] {
      PricesOnly(p);
    }
    NotFound(keyword, 0);
  }

  lemma Starts(text: string, keyword: string)
    requires Occurs(text, keyword, 0)
    ensures First(text, keyword, 0) == Some(0)
  {
  }

  /** The search for dollar signs finds the first, strides over the second, and ends. */
  lemma OneHit()
    ensures Hits(TwoPrices(), "$", 0, MAX_HITS) == [0]
  {
    hide TwoPrices, Hits, First, Occurs;
    var text := TwoPrices();
    assert Occurs(text, "$", 0) by { PriceAtStart(); }
    Starts(text, "$");
    forall p: nat | STRIDE <= p < 15000 ensures text[p] != '$' {
      PricesOnly(p);
    }
    NotFound("$", STRIDE);
    HitsUnfold(text, "$", 0, MAX_HITS);
    HitsUnfold(text, "$", STRIDE, MAX_HITS - 1);
  }

  lemma PriceAtStart()
    ensures Occurs(TwoPrices(), "$", 0)
  {
    hide TwoPrices;
    PricesOnly(0);
    assert TwoPrices()[0..1] == "$";
  }

  lemma PriceLater()
    ensures Occurs(TwoPrices(), "$9", 1500)
  {
    hide TwoPrices;
    PricesOnly(1500);
    PricesOnly(1501);
    assert TwoPrices()[1500..1502] == "$9";
  }

  lemma {:induction false} CollectedCovers(text: string, lowered: string, keywords: seq<string>, x: nat)
    requires forall n :: 0 <= n < |keywords| ==> !Covered(Windows(text, Hits(lowered, keywords[n], 0, MAX_HITS)), x)
    ensures !Covered(Collected(text, lowered, keywords), x)
  {
    hide Windows, Hits;
    if keywords != [] {
      var last := |keywords| - 1;
      CollectedCovers(text, lowered, keywords[..last], x);
      CoveredConcat(
        Collected(text, lowered, keywords[..last]), Windows(text, Hits(lowered, keywords[last], 0, MAX_HITS)), x);
    }
  }

  lemma CoveredConcat(a: seq<Span>, b: seq<Span>, x: nat)
    requires !Covered(a, x) && !Covered(b, x)
    ensures !Covered(a + b, x)
  {
    forall k | 0 <= k < |a + b| ensures !((a + b)[k].start <= x < (a + b)[k].end) {
      assert (a + b)[k] == if k < |a| then a[k] else b[k - |a|];
    }
  }

  lemma KeywordHeads(n: nat)
    requires n < |KEYWORDS|
    ensures KEYWORDS[n] == "$" || (KEYWORDS[n] != [] && KEYWORDS[n][0] !in "$x9")
  {
    if n == 0 { assert KEYWORDS[n] == "$"; }
    else if n == 1 { assert KEYWORDS[n] == "laundry"; }
    else if n == 2 { assert KEYWORDS[n] == "washer"; }
    else if n == 3 { assert KEYWORDS[n] == "dryer"; }
    else if n == 4 { assert KEYWORDS[n] == "floor plan"; }
    else if n == 5 { assert KEYWORDS[n] == "floorplan"; }
    else if n == 6 { assert KEYWORDS[n] == "amenit"; }
    else if n == 7 { assert KEYWORDS[n] == "broker fee"; }
    else if n == 8 { assert KEYWORDS[n] == "no fee"; }
    else if n == 9 { assert KEYWORDS[n] == "per month"; }
    else if n == 10 { assert KEYWORDS[n] == "/mo"; }
    else { assert KEYWORDS[n] == "available"; }
  }

  /** No keyword's windows reach beyond the first 1400 characters. */
  lemma WindowsEndEarly(x: nat)
    requires x >= AFTER
    ensures !Covered(Collected(TwoPrices(), TwoPrices(), KEYWORDS), x)
    ensures Collected(TwoPrices(), TwoPrices(), KEYWORDS) != []
  {
    hide TwoPrices, Hits, Windows, Covered, Collected;
    var text := TwoPrices();
    OneHit();
    forall n | 0 <= n < |KEYWORDS| ensures !Covered(Windows(text, Hits(text, KEYWORDS[n], 0, MAX_HITS)), x) {
      KeywordHeads(n);
      if KEYWORDS[n] == "$" {
        OneWindow(text, x);
      } else {
        NoOccurrence(KEYWORDS[n]);
        NoWindow(text, x);
      }
    }
    CollectedCovers(text, text, KEYWORDS, x);
    FirstKeywordCollects(text);
  }

  lemma OneWindow(text: string, x: nat)
    requires x >= AFTER
    ensures !Covered(Windows(text, [0]), x)
  {
  }

  lemma NoWindow(text: string, x: nat)
    ensures !Covered(Windows(text, []), x)
  {
  }

  lemma FirstKeywordCollects(text: string)
    requires Hits(text, "$", 0, MAX_HITS) == [0]
    ensures Collected(text, text, KEYWORDS) != []
  {
    assert KEYWORDS[0] == "$";
    CollectsSome(text, KEYWORDS, 0);
  }

  lemma {:induction false} CollectsSome(text: string, keywords: seq<string>, n: nat)
    requires n < |keywords| && Hits(text, keywords[n], 0, MAX_HITS) != []
    ensures Collected(text, text, keywords) != []
  {
    hide Hits;
    var last := |keywords| - 1;
    if n < last {
      CollectsSome(text, keywords[..last], n);
    } else {
      assert |Windows(text, Hits(text, keywords[last], 0, MAX_HITS))| > 0;
    }
  }

  // ---------------------------------------------------------------- what the excerpt is made of

  lemma {:induction false} FlattenLacks(pieces: seq<string>, c: char)
    ensures c !in Flatten(pieces) <==> forall n :: 0 <= n < |pieces| ==> c !in pieces[n]
  {
    if pieces != [] {
      FlattenLacks(pieces[..|pieces| - 1], c);
    }
  }

  lemma {:induction false} JoinLacks(pieces: seq<string>, c: char)
    requires c !in SEPARATOR && forall n :: 0 <= n < |pieces| ==> c !in pieces[n]
    ensures c !in Join(pieces)
  {
    if |pieces| > 1 {
      JoinLacks(pieces[..|pieces| - 1], c);
    }
  }

  lemma TakeLacks(s: string, n: int, c: char)
    requires c !in s
    ensures c !in Take(s, n)
  {
  }

  /** Nothing of the second price is in text that stops before it. */
  lemma SliceLacks(start: nat, end: nat)
    requires start < end ==> end <= 1500
    ensures '9' !in Slice(TwoPrices(), start, end)
  {
    hide TwoPrices;
    var slice := Slice(TwoPrices(), start, end);
    forall n | 0 <= n < |slice| ensures slice[n] != '9' {
      PricesOnly(start + n);
    }
  }

  lemma WindowLacks(windows: seq<Span>, k: nat)
    requires k < |windows| && forall x: nat :: x >= AFTER ==> !Covered(windows, x)
    ensures '9' !in Texts(TwoPrices(), windows)[k]
  {
    hide TwoPrices, Slice;
    var span := windows[k];
    if span.start < span.end {
      assert span.start <= span.end - 1 < span.end;
      assert Covered(windows, span.end - 1);
    }
    SliceLacks(span.start, span.end);
  }

  /** The price $9 stands on the page, and the excerpt holds nothing of it. */
  method PriceLeftOut() returns (excerpt: string)
    ensures Occurs(TwoPrices(), "$9", 1500) && '9' !in excerpt
  {
    hide TwoPrices, Occurs, Covered, Collected, Flatten, Join, Take, Texts, Slice;
    var text := TwoPrices();
    PriceLater();
    ghost var windows, pieces;
    excerpt, windows, pieces := RelevantExcerpt(text, text, MAX_PAGE_CHARS);
    forall x: nat | x >= AFTER ensures !Covered(windows, x) {
      WindowsEndEarly(x);
    }
    WindowsEndEarly(AFTER);
    ExcerptLacks(windows, pieces);
  }

  lemma ExcerptLacks(windows: seq<Span>, pieces: seq<string>)
    requires forall x: nat :: x >= AFTER ==> !Covered(windows, x)
    requires pieces != [] && pieces[0] == Take(TwoPrices(), HEAD)
    requires Flatten(pieces[1..]) == Take(Flatten(Texts(TwoPrices(), windows)), MAX_PAGE_CHARS - |pieces[0]|)
    ensures '9' !in Take(Join(pieces), MAX_PAGE_CHARS)
  {
    hide TwoPrices, Covered, Flatten, Join, Take, Slice;
    var texts := Texts(TwoPrices(), windows);
    forall k | 0 <= k < |texts| ensures '9' !in texts[k] {
      WindowLacks(windows, k);
    }
    FlattenLacks(texts, '9');
    TakeLacks(Flatten(texts), MAX_PAGE_CHARS - |pieces[0]|, '9');
    FlattenLacks(pieces[1..], '9');
    HeadIsTaken(TwoPrices());
    SliceLacks(0, HEAD);
    forall n | 0 <= n < |pieces| ensures '9' !in pieces[n] {
      assert n > 0 ==> pieces[n] == pieces[1..][n - 1];
    }
    JoinLacks(pieces, '9');
    TakeLacks(Join(pieces), MAX_PAGE_CHARS, '9');
  }
}
