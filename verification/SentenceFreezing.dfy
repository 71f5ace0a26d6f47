/** TranslatorPython/translator/assembler.py: which text an update freezes, read
    off the characters. A sentence ends at a strong mark that follows no digit,
    with its closing quotes and brackets, then whitespace; what follows the last
    sentence stays in the tail until it ends one or outgrows the budget. */
module SentenceFreezing {
  import opened Options
  import opened Text
  import opened Sequences
  import opened Assembler

  // ------------------------------------------------------ the two expressions

  /** A strong mark at i that follows no digit, and closers from there to j. */
  ghost predicate MarkAndClosers(s: string, from: nat, i: nat, j: nat) {
    && from <= i < j <= |s|
    && IsStrong(s[i]) && (i == from || !IsDigit(s[i - 1]))
    && forall k :: i < k < j ==> IsCloser(s[k])
  }

  /** s[from..] ends a sentence: nothing but whitespace follows the closers. */
  ghost predicate SentenceEnds(s: string, from: nat) {
    exists i: nat, j: nat :: MarkAndClosers(s, from, i, j) && BlankRange(s, j, |s|)
  }

  /** A sentence ends inside s[base..] and the next one may begin at k. */
  ghost predicate Boundary(s: string, base: nat, i: nat, k: nat) {
    k <= |s| && (k < |s| ==> !Space(s[k])) &&
    exists j: nat :: MarkAndClosers(s, base, i, j) && j < k && BlankRange(s, j, k)
  }

  lemma {:induction false} ClosersSkipped(s: string, i: nat)
    requires i <= |s|
    ensures forall k :: i <= k < SkipClosers(s, i) ==> IsCloser(s[k])
    ensures SkipClosers(s, i) < |s| ==> !IsCloser(s[SkipClosers(s, i)])
    decreases |s| - i
  {
    if i < |s| && IsCloser(s[i]) { ClosersSkipped(s, i + 1); }
  }

  lemma {:induction false} SpacesSkipped(s: string, i: nat)
    requires i <= |s|
    ensures BlankRange(s, i, SkipSpaces(s, i))
    ensures SkipSpaces(s, i) < |s| ==> !Space(s[SkipSpaces(s, i)])
    decreases |s| - i
  {
    hide Space;
    if i < |s| && Space(s[i]) { SpacesSkipped(s, i + 1); }
  }

  lemma ClosersAreVisible(c: char)
    ensures IsCloser(c) || IsStrong(c) ==> !Space(c)
    ensures !(IsCloser(c) && IsStrong(c))
  {
  }

  /** Closers followed by whitespace or the end are all the closers there are. */
  lemma ClosersStop(s: string, i: nat, j: nat)
    requires i <= j <= |s| && (forall k :: i <= k < j ==> IsCloser(s[k])) && (j < |s| ==> Space(s[j]))
    ensures SkipClosers(s, i) == j
  {
    hide Space, IsCloser;
    ClosersSkipped(s, i);
    var n := SkipClosers(s, i);
    if j < n { ClosersAreVisible(s[j]); }
  }

  lemma SpacesStop(s: string, i: nat, k: nat)
    requires i <= k <= |s| && BlankRange(s, i, k) && (k < |s| ==> !Space(s[k]))
    ensures SkipSpaces(s, i) == k
  {
    hide Space;
    SpacesSkipped(s, i);
  }

  /** The expression for a complete tail matches exactly when the text ends a sentence. */
  lemma EndsSentenceIs(s: string, from: nat)
    requires from <= |s|
    ensures EndsSentence(s, from) <==> SentenceEnds(s, from)
  {
    hide Space, IsCloser, IsStrong, IsDigit;
    if EndsSentence(s, from) {
      var i: nat :| from <= i < |s| && EndsAt(s, from, i);
      ClosersSkipped(s, i + 1);
      SpacesSkipped(s, SkipClosers(s, i + 1));
      assert MarkAndClosers(s, from, i, SkipClosers(s, i + 1));
    }
    if SentenceEnds(s, from) {
      var i: nat, j: nat :| MarkAndClosers(s, from, i, j) && BlankRange(s, j, |s|);
      ClosersStop(s, i + 1, j);
      SpacesStop(s, j, |s|);
      assert EndsAt(s, from, i);
    }
  }

  /** The expression for a boundary matches exactly at one, and takes all the whitespace. */
  lemma BoundaryIs(s: string, base: nat, i: nat, k: nat)
    requires base <= |s|
    ensures BoundaryAt(s, base, i) && BoundaryEnd(s, base, i) == k <==> Boundary(s, base, i, k)
  {
    hide Space, IsCloser, IsStrong, IsDigit;
    if BoundaryAt(s, base, i) && BoundaryEnd(s, base, i) == k {
      var j := SkipClosers(s, i + 1);
      ClosersSkipped(s, i + 1);
      SpacesSkipped(s, j);
      assert MarkAndClosers(s, base, i, j) && j < k && BlankRange(s, j, k);
    }
    if Boundary(s, base, i, k) {
      var j: nat :| MarkAndClosers(s, base, i, j) && j < k && BlankRange(s, j, k);
      ClosersStop(s, i + 1, j);
      SpacesStop(s, j, k);
    }
  }

  // ------------------------------------------------------ the regex fallback

  /** An inner end of the spans. */
  ghost predicate EndsSpan(spans: seq<Span>, k: nat) {
    exists m :: 0 <= m < |spans| - 1 && spans[m].end == k
  }

  ghost predicate BoundaryFrom(s: string, base: nat, i: nat, k: nat) {
    exists h: nat :: i <= h && Boundary(s, base, h, k)
  }

  lemma NoBoundaryInside(s: string, base: nat, i: nat, h: nat)
    requires base <= |s| && BoundaryAt(s, base, i) && i < h < BoundaryEnd(s, base, i)
    ensures !StrongAt(s, base, h)
  {
    hide Space, IsCloser, IsStrong, IsDigit;
    ClosersSkipped(s, i + 1);
    SpacesSkipped(s, SkipClosers(s, i + 1));
    ClosersAreVisible(s[h]);
  }

  /** The fallback cuts after every boundary and nowhere else. */
  lemma {:induction false} FallbackCutsAtBoundaries(s: string, base: nat, start: nat, i: nat, k: nat)
    requires base <= start <= i <= |s|
    ensures EndsSpan(FallbackSpans(s, base, start, i), k) <==> BoundaryFrom(s, base, i, k)
    decreases |s| - i
  {
    hide BoundaryAt, Space, Boundary;
    BoundaryIs(s, base, i, k);
    if i == |s| {
      NoBoundaryPast(s, base, i, k);
    } else if BoundaryAt(s, base, i) {
      var e := BoundaryEnd(s, base, i);
      var rest := FallbackSpans(s, base, e, e);
      FallbackCutsAtBoundaries(s, base, e, e, k);
      SpansAfterFirst(Span(start, e), rest, k);
      BoundariesAfter(s, base, i, k);
    } else {
      FallbackCutsAtBoundaries(s, base, start, i + 1, k);
      assert BoundaryFrom(s, base, i, k) <==> BoundaryFrom(s, base, i + 1, k) by {
        if h: nat :| i <= h && Boundary(s, base, h, k) { assert h != i; }
      }
    }
  }

  lemma NoBoundaryPast(s: string, base: nat, i: nat, k: nat)
    requires base <= |s| <= i
    ensures !BoundaryFrom(s, base, i, k)
  {
  }

  lemma SpansAfterFirst(first: Span, rest: seq<Span>, k: nat)
    requires rest != []
    ensures EndsSpan([first] + rest, k) <==> k == first.end || EndsSpan(rest, k)
  {
    var spans := [first] + rest;
    if k == first.end { assert spans[0].end == k; }
    if EndsSpan(rest, k) {
      var m :| 0 <= m < |rest| - 1 && rest[m].end == k;
      assert spans[m + 1].end == k;
    }
    if EndsSpan(spans, k) && k != first.end {
      var m :| 0 <= m < |spans| - 1 && spans[m].end == k;
      assert rest[m - 1].end == k;
    }
  }

  lemma BoundariesAfter(s: string, base: nat, i: nat, k: nat)
    requires base <= i < |s| && BoundaryAt(s, base, i)
    ensures var e := BoundaryEnd(s, base, i); BoundaryFrom(s, base, i, k) <==> k == e || BoundaryFrom(s, base, e, k)
  {
    hide BoundaryAt, Space, Boundary;
    var e := BoundaryEnd(s, base, i);
    BoundaryIs(s, base, i, e);
    BoundaryIs(s, base, i, k);
    if BoundaryFrom(s, base, i, k) && k != e {
      var h: nat :| i <= h && Boundary(s, base, h, k);
      if h < e && h != i {
        BoundaryStarts(s, base, h, k);
        NoBoundaryInside(s, base, i, h);
      }
    }
  }

  lemma BoundaryStarts(s: string, base: nat, i: nat, k: nat)
    requires Boundary(s, base, i, k)
    ensures StrongAt(s, base, i)
  {
    hide Space, IsCloser, IsStrong, IsDigit;
  }

  // ------------------------------------------------------ sentences and chunks

  /** The frozen sentences are the spans that are not blank, in order, each
      stripped, one sentence a span. */
  lemma {:induction false} SentencesAreSpans(s: string, base: nat, spans: seq<Span>, n: nat) returns (at: seq<nat>)
    requires Inside(s, base, spans) && n <= |spans|
    ensures Picks(s, base, spans, n, at)
    ensures |at| == |Sentences(s, base, spans, n)|
    ensures forall i :: 0 <= i < |at| ==> Sentences(s, base, spans, n)[i] == SpanText(s, base, spans, at[i])
  {
    hide Strip, Space, Picks;
    at := [];
    if n == 0 {
      PicksNone(s, base, spans);
    } else {
      at := SentencesAreSpans(s, base, spans, n - 1);
      BlankIsStripped(s, spans[n - 1].start, spans[n - 1].end);
      PicksOneMore(s, base, spans, n - 1, at);
      if !BlankRange(s, spans[n - 1].start, spans[n - 1].end) { at := at + [n - 1]; }
    }
  }

  function SpanText(s: string, base: nat, spans: seq<Span>, m: nat): string
    requires Inside(s, base, spans)
  {
    if m < |spans| then Strip(Python, s[spans[m].start..spans[m].end]) else ""
  }

  /** The numbers of the first n spans that are not blank, in order. */
  ghost predicate Picks(s: string, base: nat, spans: seq<Span>, n: nat, at: seq<nat>)
    requires Inside(s, base, spans) && n <= |spans|
  {
    && Increasing(at)
    && (forall m :: m in at ==> m < n && !BlankRange(s, spans[m].start, spans[m].end))
    && (forall m :: 0 <= m < n && !BlankRange(s, spans[m].start, spans[m].end) ==> m in at)
  }

  lemma PicksNone(s: string, base: nat, spans: seq<Span>)
    requires Inside(s, base, spans)
    ensures Picks(s, base, spans, 0, [])
  {
  }

  lemma PicksOneMore(s: string, base: nat, spans: seq<Span>, n: nat, at: seq<nat>)
    requires Inside(s, base, spans) && n < |spans| && Picks(s, base, spans, n, at)
    ensures Picks(s, base, spans, n + 1, if BlankRange(s, spans[n].start, spans[n].end) then at else at + [n])
  {
    hide BlankRange;
    forall i | 0 <= i < |at| ensures at[i] < n { assert at[i] in at; }
  }

  lemma BlankIsStripped(s: string, i: nat, j: nat)
    requires i <= j <= |s|
    ensures BlankRange(s, i, j) <==> Strip(Python, s[i..j]) == ""
  {
    hide Strip, IsSpace;
    EraseStrip(Python, s[i..j]);
    if BlankRange(s, i, j) { assert forall k :: 0 <= k < j - i ==> s[i..j][k] == s[i + k]; }
    if Blank(Python, s[i..j]) { assert forall k :: i <= k < j ==> s[k] == s[i..j][k - i]; }
  }

  lemma {:induction false} LastWeak(s: string, from: nat, stop: nat)
    requires from <= stop <= |s|
    ensures var c := WeakCut(s, from, stop);
            && (c > from ==> from + 2 <= c && WeakAt(s, c - 2))
            && forall i :: from <= i < stop - 1 && i > c - 2 ==> !WeakAt(s, i)
    decreases stop
  {
    hide WeakAt;
    if stop >= from + 2 && !WeakAt(s, stop - 2) { LastWeak(s, from, stop - 1); }
  }

  lemma {:induction false} LastSpace(s: string, from: nat, stop: nat)
    requires from <= stop <= |s|
    ensures forall i :: SpaceCut(s, from, stop) <= i < stop ==> s[i] != ' '
    decreases stop
  {
    if stop > from && s[stop - 1] != ' ' { LastSpace(s, from, stop - 1); }
  }

  /** A window is cut after its last weak separator; without one, after its last
      space; without either, nowhere. */
  lemma CutIsLast(s: string, from: nat, stop: nat)
    requires from <= stop <= |s|
    ensures var c := Cut(s, from, stop);
            if exists i :: from <= i < stop - 1 && WeakAt(s, i) then
              from + 2 <= c <= stop && WeakAt(s, c - 2) && forall i :: c - 2 < i < stop - 1 ==> !WeakAt(s, i)
            else if exists i :: from <= i < stop && s[i] == ' ' then
              from < c <= stop && s[c - 1] == ' ' && forall i :: c <= i < stop ==> s[i] != ' '
            else c == from
  {
    hide WeakAt;
    NoCut(s, from, stop);
    LastWeak(s, from, stop);
    LastSpace(s, from, stop);
  }

  /** A long tail is cut inside its first `soft` characters, as `tail[:soft]` has them:
      for a negative budget, as the slice does, inside all but its last ones. */
  lemma CutIsInsideTheBudget(s: string, from: nat, soft: int)
    requires from <= |s|
    ensures |s| - from <= soft ==> SoftCut(s, from, soft) == from
    ensures |s| - from > soft >= 0 ==> SoftCut(s, from, soft) == Cut(s, from, from + soft)
    ensures soft < 0 ==> SoftCut(s, from, soft) == if |s| + soft > from then Cut(s, from, |s| + soft) else from
  {
    hide WeakCut, SpaceCut;
    NoCut(s, from, from);
  }

  // ------------------------------------------------------ what an update freezes

  /** The spans an update works on. */
  function SpansOf(pysbd: Segmentation, text: string, base: nat): seq<Span>
    requires base <= |text|
  {
    if pysbd.Some? then pysbd.value else FallbackSpans(text, base, base, base)
  }

  /** What is left is always the rest of the text, stripped. */
  lemma TailIsRest(pysbd: Segmentation, soft: int, a: Frozen, text: string)
    requires Sound(pysbd, text, Base(a, text))
    ensures var (b, out) := Updated(pysbd, soft, a, text);
            b.consumed <= text && out.tail == Strip(Python, text[|b.consumed|..])
  {
    hide Strip, Freeze, Space, Sound;
    var base := Base(a, text);
    var end := Freeze(pysbd, soft, text, base).1;
    if BlankRange(text, base, |text|) {
      BlankIsStripped(text, end, |text|);
      assert text[end..|text|] == text[end..];
    }
  }

  /** For every text and every sound segmentation of a rest that is not blank. A
      last span that ends a sentence is frozen with the others: everything is
      consumed and no tail is left. A last span that does not is not frozen: the
      others are, then only the soft chunks of the span, and within the budget
      there is none, so that the text is consumed up to the span and the tail is
      the span, stripped. */
  lemma UnfinishedSentenceStays(pysbd: Segmentation, soft: int, a: Frozen, text: string)
    requires Sound(pysbd, text, Base(a, text)) && !BlankRange(text, Base(a, text), |text|)
    ensures var spans := SpansOf(pysbd, text, Base(a, text));
            Covers(text, Base(a, text), spans) && spans != [] &&
            var kept, last := (if a.consumed <= text then a.sentences else []), spans[|spans| - 1].start;
            var (b, out) := Updated(pysbd, soft, a, text);
            if SentenceEnds(text, last) then
              && b.consumed == text && out.tail == ""
              && b.sentences == kept + Sentences(text, Base(a, text), spans, |spans|)
            else
              && last <= |b.consumed|
              && b.sentences == kept + Sentences(text, Base(a, text), spans, |spans| - 1) +
                   SoftChunks(text, last, soft).0
              && (|text| - last <= soft ==>
                   && b.consumed == text[..last] && out.tail == Strip(Python, text[last..])
                   && b.sentences == kept + Sentences(text, Base(a, text), spans, |spans| - 1))
  {
    hide Strip, Space, BlankRange, Covers, FallbackSpans, Sentences, SentenceEnds, EndsSentence, SoftChunks;
    var base := Base(a, text);
    var spans := SpansOf(pysbd, text, base);
    assert spans == SegmentSpans(pysbd, text, base);
    CoversInside(text, base, spans);
    CoversSome(text, base, spans);
    var last := spans[|spans| - 1].start;
    EndsSentenceIs(text, last);
    UpdatedByLoops(pysbd, soft, a, text);
    TailIsRest(pysbd, soft, a, text);
    WithinBudget(text, last, soft);
    WithinBudget(text, |text|, soft);
  }

  lemma CoversSome(s: string, base: nat, spans: seq<Span>)
    requires base <= |s| && Covers(s, base, spans)
    ensures spans != []
  {
  }

  lemma WithinBudget(s: string, from: nat, soft: int)
    requires from <= |s|
    ensures |s| - from <= soft ==> SoftChunks(s, from, soft) == ([], from)
    ensures from == |s| ==> SoftChunks(s, from, soft) == ([], from)
    ensures Strip(Python, s[|s|..]) == ""
  {
  }

  /** The chunks a long tail is cut into: from `last` on, each cut is that of the
      window at the previous one, and the chunks are the stretches between the
      cuts that are not blank, stripped. */
  lemma {:induction false} ChunksAreStretches(s: string, from: nat, soft: int) returns (cuts: seq<nat>)
    requires from <= |s|
    ensures |cuts| > 0 && cuts[0] == from && cuts[|cuts| - 1] == SoftChunks(s, from, soft).1
    ensures forall i :: 0 <= i < |cuts| ==> cuts[i] <= |s|
    ensures forall i :: 0 <= i < |cuts| - 1 ==>
              && |s| - cuts[i] > soft && cuts[i] < cuts[i + 1]
              && cuts[i + 1] == Cut(s, cuts[i], WindowEnd(s, cuts[i], soft))
    ensures SoftChunks(s, from, soft).0 == Stretches(s, cuts)
    decreases |s| - from
  {
    hide Strip, Cut, Space, WindowEnd, Kept;
    cuts := [from];
    var c := SoftCut(s, from, soft);
    if c > from {
      cuts := ChunksAreStretches(s, c, soft);
      var rest := cuts;
      cuts := [from] + rest;
      assert cuts[1..] == rest;
      forall i | 0 <= i < |cuts| - 1
        ensures |s| - cuts[i] > soft && cuts[i] < cuts[i + 1]
        ensures cuts[i + 1] == Cut(s, cuts[i], WindowEnd(s, cuts[i], soft))
      {
        if i > 0 { assert cuts[i] == rest[i - 1] && cuts[i + 1] == rest[i]; }
      }
    }
  }

  /** The stretches of s between consecutive positions that are not blank, stripped. */
  function Stretches(s: string, cuts: seq<nat>): seq<string>
    requires forall i :: 0 <= i < |cuts| ==> cuts[i] <= |s|
    requires forall i :: 0 <= i < |cuts| - 1 ==> cuts[i] <= cuts[i + 1]
  {
    if |cuts| <= 1 then [] else Kept(s, cuts[0], cuts[1]) + Stretches(s, cuts[1..])
  }

  /** On the fallback path, while the unfinished sentence is within the budget: an
      update consumes up to the end of the text when that ends a sentence, and
      else exactly up to the last boundary after what was already consumed. */
  lemma FallbackConsumesSentences(soft: int, a: Frozen, text: string)
    requires var spans := FallbackSpans(text, Base(a, text), Base(a, text), Base(a, text));
             |text| - spans[|spans| - 1].start <= soft
    ensures var base, n := Base(a, text), |Updated(None, soft, a, text).0.consumed|;
            && base <= n <= |text|
            && (n == base || n == |text| || exists i: nat :: Boundary(text, base, i, n))
            && (n == |text| || forall i: nat, k: nat :: Boundary(text, base, i, k) ==> k <= n)
  {
    hide Strip, Space, Covers, FallbackSpans, Sentences, SentenceEnds, Boundary, Updated, SoftChunks;
    var base, n := Base(a, text), |Updated(None, soft, a, text).0.consumed|;
    if BlankRange(text, base, |text|) {
      UpdatedBlank(None, soft, a, text);
      forall i: nat, k: nat | Boundary(text, base, i, k) ensures false {
        BoundaryStarts(text, base, i, k);
        ClosersAreVisible(text[i]);
      }
    } else {
      var spans := FallbackSpans(text, base, base, base);
      UnfinishedSentenceStays(None, soft, a, text);
      FallbackTiles(text, base, base, base);
      forall k: nat ensures EndsSpan(spans, k) <==> BoundaryFrom(text, base, base, k) {
        FallbackCutsAtBoundaries(text, base, base, base, k);
      }
      LastEndIsLast(text, base, spans);
      if n == spans[|spans| - 1].start && n != base {
        assert EndsSpan(spans, n);
      }
      forall i: nat, k: nat | n != |text| && Boundary(text, base, i, k) ensures k <= n {
        BoundaryStarts(text, base, i, k);
        assert BoundaryFrom(text, base, base, k);
      }
    }
  }

  /** The fallback spans tile the text: each starts where the last one ends. */
  lemma {:induction false} FallbackTiles(s: string, base: nat, start: nat, i: nat)
    requires base <= start <= i <= |s|
    ensures var spans := FallbackSpans(s, base, start, i);
            && spans[0].start == start
            && forall m :: 0 <= m < |spans| - 1 ==> start <= spans[m].start < spans[m].end == spans[m + 1].start
    decreases |s| - i
  {
    hide BoundaryAt, Space;
    if i < |s| {
      if BoundaryAt(s, base, i) {
        var k := BoundaryEnd(s, base, i);
        FallbackTiles(s, base, k, k);
        var rest := FallbackSpans(s, base, k, k);
        var spans := [Span(start, k)] + rest;
        forall m | 0 <= m < |spans| - 1
          ensures start <= spans[m].start < spans[m].end == spans[m + 1].start
        {
          if m > 0 { assert spans[m] == rest[m - 1] && spans[m + 1] == rest[m]; }
        }
      } else {
        FallbackTiles(s, base, start, i + 1);
      }
    }
  }

  lemma {:induction false} EndsGrow(spans: seq<Span>, m: nat)
    requires forall i :: 0 <= i < |spans| - 1 ==> spans[i].start < spans[i].end == spans[i + 1].start
    requires m < |spans| - 1
    ensures spans[m].end <= spans[|spans| - 1].start
    decreases |spans| - m
  {
    if m + 1 < |spans| - 1 { EndsGrow(spans, m + 1); }
  }

  lemma LastEndIsLast(s: string, base: nat, spans: seq<Span>)
    requires spans != [] && spans[0].start == base
    requires forall i :: 0 <= i < |spans| - 1 ==> spans[i].start < spans[i].end == spans[i + 1].start
    ensures forall k: nat :: EndsSpan(spans, k) ==> k <= spans[|spans| - 1].start
    ensures spans[|spans| - 1].start == base || EndsSpan(spans, spans[|spans| - 1].start)
  {
    forall k: nat | EndsSpan(spans, k) ensures k <= spans[|spans| - 1].start {
      var m :| 0 <= m < |spans| - 1 && spans[m].end == k;
      EndsGrow(spans, m);
    }
    if |spans| > 1 { assert spans[|spans| - 2].end == spans[|spans| - 1].start; }
  }
}
