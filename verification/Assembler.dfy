/** TranslatorPython/translator/assembler.py: the decomposition of a cumulative
    text into frozen sentences and a tail.

    Positions are absolute in the cumulative text; `base` is where the
    unconsumed part starts. pySBD's answer for that part is a parameter:
    ordered spans whose gaps are whitespace, or `None` for an unsupported
    language, an empty answer or an exception, all of which select the regex
    fallback. */
module Assembler {
  import opened Options
  import opened Text

  datatype Span = Span(start: nat, end: nat)

  type Segmentation = Option<seq<Span>>

  /** Consumed prefix of the cumulative text and the sentences frozen from it. */
  datatype Frozen = Frozen(sentences: seq<string>, consumed: string)

  datatype Outcome = Outcome(newlyFrozen: seq<(nat, string)>, tail: string, reset: bool)

  const Empty := Frozen([], "")

  predicate Space(c: char) { IsSpace(Python, c) }

  /** `s[i:j].strip()`, kept only when not empty. */
  function Kept(s: string, i: nat, j: nat): seq<string>
    requires i <= j <= |s|
  {
    var t := Strip(Python, s[i..j]);
    if t == "" then [] else [t]
  }

  /** The visible characters of s[i..j]. */
  function Visible(s: string, i: nat, j: nat): string
    requires i <= j <= |s|
    decreases j - i
  {
    if i == j then "" else if Space(s[i]) then Visible(s, i + 1, j) else [s[i]] + Visible(s, i + 1, j)
  }

  predicate BlankRange(s: string, i: nat, j: nat)
    requires i <= j <= |s|
  {
    forall k :: i <= k < j ==> Space(s[k])
  }

  // ------------------------------------------------------ regular expressions

  predicate IsStrong(c: char) { c == '.' || c == '!' || c == '?' || c == '\U{2026}' }

  predicate IsCloser(c: char) {
    c == '\'' || c == '"' || c == '\U{BB}' || c == '\U{201D}' || c == '\U{2019}' || c == ')' || c == ']'
  }

  predicate IsDigit(c: char) { '0' <= c <= '9' }

  /** `(?<![0-9])[.!?...]` at i in the text that starts at base. */
  predicate StrongAt(s: string, base: nat, i: nat) {
    base <= i < |s| && IsStrong(s[i]) && (i == base || !IsDigit(s[i - 1]))
  }

  function SkipClosers(s: string, i: nat): (j: nat)
    requires i <= |s|
    ensures i <= j <= |s|
    decreases |s| - i
  {
    if i < |s| && IsCloser(s[i]) then SkipClosers(s, i + 1) else i
  }

  function SkipSpaces(s: string, i: nat): (j: nat)
    requires i <= |s|
    ensures i <= j <= |s|
    ensures i < j ==> Space(s[j - 1])
    decreases |s| - i
  {
    if i < |s| && Space(s[i]) then SkipSpaces(s, i + 1) else i
  }

  /** A match of the sentence-boundary expression starts at i: strong
      punctuation, closers, then at least one whitespace. */
  predicate BoundaryAt(s: string, base: nat, i: nat) {
    StrongAt(s, base, i) && SkipClosers(s, i + 1) < |s| && Space(s[SkipClosers(s, i + 1)])
  }

  function BoundaryEnd(s: string, base: nat, i: nat): (k: nat)
    requires BoundaryAt(s, base, i)
    ensures i < k <= |s| && Space(s[k - 1])
  {
    SkipSpaces(s, SkipClosers(s, i + 1))
  }

  predicate EndsAt(s: string, from: nat, i: nat) {
    StrongAt(s, from, i) && SkipSpaces(s, SkipClosers(s, i + 1)) == |s|
  }

  /** `_TAIL_COMPLETE_RE.search(s[from:])` */
  predicate EndsSentence(s: string, from: nat) {
    exists i :: from <= i < |s| && EndsAt(s, from, i)
  }

  /** `[,;:]\s` at i. */
  predicate WeakAt(s: string, i: nat) {
    i + 1 < |s| && (s[i] == ',' || s[i] == ';' || s[i] == ':') && Space(s[i + 1])
  }

  /** End of the last weak separator inside s[from..stop], `from` for none. */
  function WeakCut(s: string, from: nat, stop: nat): (c: nat)
    requires from <= stop <= |s|
    ensures from <= c <= stop
    ensures c > from ==> Space(s[c - 1])
    decreases stop
  {
    if stop < from + 2 then from else if WeakAt(s, stop - 2) then stop else WeakCut(s, from, stop - 1)
  }

  /** End of the last space inside s[from..stop], `from` for none. */
  function SpaceCut(s: string, from: nat, stop: nat): (c: nat)
    requires from <= stop <= |s|
    ensures from <= c <= stop
    ensures c > from ==> s[c - 1] == ' '
    decreases stop
  {
    if stop == from then from else if s[stop - 1] == ' ' then stop else SpaceCut(s, from, stop - 1)
  }

  /** Where the window s[from..stop] is cut, `from` for nowhere. */
  function Cut(s: string, from: nat, stop: nat): (c: nat)
    requires from <= stop <= |s|
    ensures from <= c <= stop
    ensures c > from ==> Space(s[c - 1])
  {
    if WeakCut(s, from, stop) > from then WeakCut(s, from, stop) else SpaceCut(s, from, stop)
  }

  /** End of the window `tail[:soft]` of the tail s[from..], including Python's
      reading of a negative bound. */
  function WindowEnd(s: string, from: nat, soft: int): (stop: nat)
    requires from <= |s|
    ensures from <= stop <= |s|
  {
    if soft < 0 then (if |s| + soft <= from then from else |s| + soft)
    else if from + soft <= |s| then from + soft else |s|
  }

  // ------------------------------------------------------ segmentation

  predicate Inside(s: string, base: nat, spans: seq<Span>) {
    forall i :: 0 <= i < |spans| ==> base <= spans[i].start <= spans[i].end <= |s|
  }

  /** Span i starts after span i-1 ends, with only whitespace between them. */
  predicate Gap(s: string, base: nat, spans: seq<Span>, i: nat)
    requires Inside(s, base, spans) && 0 < i < |spans|
  {
    spans[i - 1].end <= spans[i].start && BlankRange(s, spans[i - 1].end, spans[i].start)
  }

  /** Ordered spans of s[base..] whose gaps are whitespace. */
  predicate Covers(s: string, base: nat, spans: seq<Span>)
    requires base <= |s|
  {
    && spans != []
    && Inside(s, base, spans)
    && (forall i :: 0 < i < |spans| ==> Gap(s, base, spans, i))
    && BlankRange(s, base, spans[0].start)
    && BlankRange(s, spans[|spans| - 1].end, |s|)
  }

  /** What the pySBD call promises about the text it was given. */
  predicate Sound(pysbd: Segmentation, s: string, base: nat)
    requires base <= |s|
  {
    pysbd.Some? ==> Covers(s, base, pysbd.value)
  }

  /** The regex fallback from position i on, the open span having begun at start. */
  function FallbackSpans(s: string, base: nat, start: nat, i: nat): (spans: seq<Span>)
    requires base <= start <= i <= |s|
    ensures spans != []
    decreases |s| - i
  {
    if i == |s| then [Span(start, |s|)]
    else if BoundaryAt(s, base, i) then
      [Span(start, BoundaryEnd(s, base, i))] + FallbackSpans(s, base, BoundaryEnd(s, base, i), BoundaryEnd(s, base, i))
    else FallbackSpans(s, base, start, i + 1)
  }

  function SegmentSpans(pysbd: Segmentation, s: string, base: nat): (spans: seq<Span>)
    requires base <= |s| && Sound(pysbd, s, base)
    ensures Covers(s, base, spans)
  {
    if pysbd.Some? then pysbd.value else FallbackCovers(s, base, base, base); FallbackSpans(s, base, base, base)
  }

  lemma {:induction false} FallbackCovers(s: string, base: nat, start: nat, i: nat)
    requires base <= start <= i <= |s|
    ensures var spans := FallbackSpans(s, base, start, i);
            && spans[0].start == start && spans[|spans| - 1].end == |s|
            && Inside(s, base, spans)
            && (forall j :: 0 < j < |spans| ==> Gap(s, base, spans, j))
    decreases |s| - i
  {
    hide BoundaryAt, Space;
    if i < |s| {
      if BoundaryAt(s, base, i) {
        var k := BoundaryEnd(s, base, i);
        FallbackCovers(s, base, k, k);
        var rest := FallbackSpans(s, base, k, k);
        var spans := [Span(start, k)] + rest;
        assert forall j :: 0 < j < |spans| ==> spans[j] == rest[j - 1];
        forall j | 0 < j < |spans| ensures Gap(s, base, spans, j) {
          if j > 1 { assert Gap(s, base, rest, j - 1); }
        }
      } else {
        FallbackCovers(s, base, start, i + 1);
      }
    }
  }

  /** The stripped, non-empty texts of the first n spans. */
  function Sentences(s: string, base: nat, spans: seq<Span>, n: nat): seq<string>
    requires Inside(s, base, spans) && n <= |spans|
  {
    if n == 0 then [] else Sentences(s, base, spans, n - 1) + Kept(s, spans[n - 1].start, spans[n - 1].end)
  }

  /** Where the soft-chunk loop cuts the tail s[from..]; `from` when it stops. */
  function SoftCut(s: string, from: nat, soft: int): (c: nat)
    requires from <= |s|
    ensures from <= c <= |s|
    ensures c > from ==> Space(s[c - 1])
  {
    if |s| - from <= soft then from else Cut(s, from, WindowEnd(s, from, soft))
  }

  /** The soft-chunk loop from `from`: chunks frozen and where it stops. */
  function SoftChunks(s: string, from: nat, soft: int): (r: (seq<string>, nat))
    requires from <= |s|
    ensures from <= r.1 <= |s|
    decreases |s| - from
  {
    var c := SoftCut(s, from, soft);
    if c == from then ([], from) else
    var (chunks, end) := SoftChunks(s, c, soft);
    (Kept(s, from, c) + chunks, end)
  }

  // ------------------------------------------------------ update

  function AfterReset(a: Frozen, text: string): (b: Frozen)
    ensures b.consumed <= text
  {
    if a.consumed <= text then a else Empty
  }

  function Base(a: Frozen, text: string): (base: nat)
    ensures base <= |text|
  {
    |AfterReset(a, text).consumed|
  }

  /** How many spans are complete sentences: the last one only if it ends one. */
  function Complete(s: string, base: nat, spans: seq<Span>): (n: nat)
    requires base <= |s| && Covers(s, base, spans)
    ensures |spans| - 1 <= n <= |spans|
  {
    if EndsSentence(s, spans[|spans| - 1].start) then |spans| else |spans| - 1
  }

  /** Where the raw tail starts, before soft-chunking. */
  function TailStart(s: string, base: nat, spans: seq<Span>): (start: nat)
    requires base <= |s| && Covers(s, base, spans)
    ensures base <= start <= |s|
  {
    if Complete(s, base, spans) == |spans| then |s| else spans[|spans| - 1].start
  }

  /** What an update freezes from s[base..] and where it stops. */
  function Freeze(pysbd: Segmentation, soft: int, s: string, base: nat): (r: (seq<string>, nat))
    requires base <= |s| && Sound(pysbd, s, base)
    ensures base <= r.1 <= |s|
  {
    if BlankRange(s, base, |s|) then ([], base) else
    var spans := SegmentSpans(pysbd, s, base);
    var (chunks, end) := SoftChunks(s, TailStart(s, base, spans), soft);
    (Sentences(s, base, spans, Complete(s, base, spans)) + chunks, end)
  }

  function TailText(s: string, base: nat, end: nat): string
    requires base <= end <= |s|
  {
    if BlankRange(s, base, |s|) then "" else Strip(Python, s[end..])
  }

  function Numbered(from: nat, sentences: seq<string>): (r: seq<(nat, string)>)
    ensures |r| == |sentences|
    ensures forall i :: 0 <= i < |r| ==> r[i] == (from + i, sentences[i])
  {
    seq(|sentences|, i requires 0 <= i < |sentences| => (from + i, sentences[i]))
  }

  function Seconds(news: seq<(nat, string)>): (r: seq<string>)
    ensures |r| == |news|
    ensures forall i :: 0 <= i < |r| ==> r[i] == news[i].1
  {
    seq(|news|, i requires 0 <= i < |news| => news[i].1)
  }

  function Updated(pysbd: Segmentation, soft: int, a: Frozen, text: string): (r: (Frozen, Outcome))
    requires Sound(pysbd, text, Base(a, text))
  {
    var b := AfterReset(a, text);
    var (sentences, end) := Freeze(pysbd, soft, text, Base(a, text));
    (Frozen(b.sentences + sentences, text[..end]),
     Outcome(Numbered(|b.sentences|, sentences), TailText(text, Base(a, text), end), b != a))
  }

  // ------------------------------------------------------ conservation

  /** Frozen sentences spell exactly the consumed prefix, whitespace aside. */
  predicate Spells(a: Frozen) {
    EraseAll(Python, a.sentences) == Erase(Python, a.consumed)
  }

  lemma {:induction false} VisibleErase(s: string, i: nat, j: nat)
    requires i <= j <= |s|
    ensures Visible(s, i, j) == Erase(Python, s[i..j])
    decreases j - i
  {
    if i < j {
      VisibleErase(s, i + 1, j);
      assert s[i..j][1..] == s[i + 1..j];
    }
  }

  lemma {:induction false} VisibleSum(s: string, i: nat, j: nat, k: nat)
    requires i <= j <= k <= |s|
    ensures Visible(s, i, k) == Visible(s, i, j) + Visible(s, j, k)
    decreases j - i
  {
    if i < j {
      VisibleSum(s, i + 1, j, k);
    }
  }

  lemma {:induction false} VisibleBlank(s: string, i: nat, j: nat)
    requires i <= j <= |s| && BlankRange(s, i, j)
    ensures Visible(s, i, j) == ""
    decreases j - i
  {
    if i < j {
      VisibleBlank(s, i + 1, j);
    }
  }

  lemma EraseKept(s: string, i: nat, j: nat)
    requires i <= j <= |s|
    ensures EraseAll(Python, Kept(s, i, j)) == Visible(s, i, j)
  {
    EraseStrip(Python, s[i..j]);
    VisibleErase(s, i, j);
    EraseAllOne(Python, Strip(Python, s[i..j]));
  }

  lemma EraseNothing()
    ensures EraseAll(Python, []) == ""
  {
  }

  lemma {:induction false} EraseSentences(s: string, base: nat, spans: seq<Span>, n: nat)
    requires base <= |s| && Covers(s, base, spans) && 0 < n <= |spans|
    ensures EraseAll(Python, Sentences(s, base, spans, n)) == Visible(s, base, spans[n - 1].end)
  {
    hide Space, Strip, BlankRange, Kept, EraseAll, Visible, Erase;
    EraseNothing();
    var last := spans[n - 1];
    EraseKept(s, last.start, last.end);
    EraseAllSum(Python, Sentences(s, base, spans, n - 1), Kept(s, last.start, last.end));
    VisibleSum(s, base, last.start, last.end);
    if n > 1 {
      assert Gap(s, base, spans, n - 1);
      EraseSentences(s, base, spans, n - 1);
      VisibleSum(s, base, spans[n - 2].end, last.start);
      VisibleBlank(s, spans[n - 2].end, last.start);
    } else {
      VisibleBlank(s, base, last.start);
    }
  }

  lemma {:induction false} EraseSoftChunks(s: string, from: nat, soft: int)
    requires from <= |s|
    ensures EraseAll(Python, SoftChunks(s, from, soft).0) == Visible(s, from, SoftChunks(s, from, soft).1)
    decreases |s| - from
  {
    hide Space, Kept, SoftCut;
    var c := SoftCut(s, from, soft);
    if c > from {
      var (chunks, end) := SoftChunks(s, c, soft);
      EraseSoftChunks(s, c, soft);
      EraseKept(s, from, c);
      EraseAllSum(Python, Kept(s, from, c), chunks);
      VisibleSum(s, from, c, end);
    }
  }

  /** The complete spans spell the text up to where the raw tail starts. */
  lemma EraseComplete(s: string, base: nat, spans: seq<Span>)
    requires base <= |s| && Covers(s, base, spans)
    ensures EraseAll(Python, Sentences(s, base, spans, Complete(s, base, spans))) ==
      Visible(s, base, TailStart(s, base, spans))
  {
    hide EndsSentence, Space;
    var n, start := Complete(s, base, spans), TailStart(s, base, spans);
    if n == 0 {
      VisibleBlank(s, base, start);
    } else {
      EraseSentences(s, base, spans, n);
      if n < |spans| { assert Gap(s, base, spans, n); }
      VisibleSum(s, base, spans[n - 1].end, start);
      VisibleBlank(s, spans[n - 1].end, start);
    }
  }

  lemma EraseFreeze(pysbd: Segmentation, soft: int, s: string, base: nat)
    requires base <= |s| && Sound(pysbd, s, base)
    ensures EraseAll(Python, Freeze(pysbd, soft, s, base).0) == Visible(s, base, Freeze(pysbd, soft, s, base).1)
  {
    hide Covers, SegmentSpans, Sentences, SoftChunks, Complete, TailStart, BlankRange;
    if !BlankRange(s, base, |s|) {
      var spans := SegmentSpans(pysbd, s, base);
      CoversInside(s, base, spans);
      var start := TailStart(s, base, spans);
      var (chunks, end) := SoftChunks(s, start, soft);
      EraseComplete(s, base, spans);
      EraseSoftChunks(s, start, soft);
      EraseAllSum(Python, Sentences(s, base, spans, Complete(s, base, spans)), chunks);
      VisibleSum(s, base, start, end);
    }
  }

  lemma EraseTail(s: string, base: nat, end: nat)
    requires base <= end <= |s|
    ensures Erase(Python, TailText(s, base, end)) == Visible(s, end, |s|)
  {
    hide Space, Strip;
    if BlankRange(s, base, |s|) {
      VisibleBlank(s, end, |s|);
    } else {
      EraseStrip(Python, s[end..]);
      VisibleErase(s, end, |s|);
      assert s[end..|s|] == s[end..];
    }
  }

  /** What an update leaves, given what it froze from text[base..end]. */
  lemma SpellUpdate(c: Frozen, text: string, sentences: seq<string>, end: nat, tail: string)
    requires Spells(c) && c.consumed <= text && |c.consumed| <= end <= |text|
    requires EraseAll(Python, sentences) == Visible(text, |c.consumed|, end)
    requires Erase(Python, tail) == Visible(text, end, |text|)
    ensures Spells(Frozen(c.sentences + sentences, text[..end]))
    ensures EraseAll(Python, c.sentences + sentences + [tail]) == Erase(Python, text)
  {
    hide Erase, EraseAll, Visible;
    var base := |c.consumed|;
    VisibleErase(text, 0, base);
    VisibleErase(text, 0, end);
    VisibleErase(text, 0, |text|);
    assert text[0..base] == c.consumed && text[0..end] == text[..end] && text[0..|text|] == text;
    VisibleSum(text, 0, base, end);
    VisibleSum(text, 0, end, |text|);
    EraseAllSum(Python, c.sentences, sentences);
    EraseAllSum(Python, c.sentences + sentences, [tail]);
    EraseAllOne(Python, tail);
  }

  /** Every update consumes a prefix of the current text, and the frozen
      sentences followed by the tail spell that text, whatever the text is. */
  lemma UpdateConserves(pysbd: Segmentation, soft: int, a: Frozen, text: string)
    requires Sound(pysbd, text, Base(a, text)) && Spells(a)
    ensures var (b, out) := Updated(pysbd, soft, a, text);
            && Spells(b)
            && b.consumed <= text
            && EraseAll(Python, b.sentences + [out.tail]) == Erase(Python, text)
  {
    hide Freeze, TailText, Numbered, Sound;
    var c, base := AfterReset(a, text), Base(a, text);
    var (sentences, end) := Freeze(pysbd, soft, text, base);
    EraseFreeze(pysbd, soft, text, base);
    EraseTail(text, base, end);
    SpellUpdate(c, text, sentences, end, TailText(text, base, end));
  }

  /** Frozen sentences are append-only except at a reset, which happens exactly
      when the text no longer starts with the consumed prefix; the sentences an
      update reports are the appended ones, numbered contiguously. */
  lemma UpdateAppends(pysbd: Segmentation, soft: int, a: Frozen, text: string)
    requires Sound(pysbd, text, Base(a, text))
    ensures var (b, out) := Updated(pysbd, soft, a, text);
            && (out.reset <==> !(a.consumed <= text))
            && var kept := if out.reset then [] else a.sentences;
            && b.sentences == kept + Seconds(out.newlyFrozen)
            && (!out.reset ==> a.consumed <= b.consumed)
            && forall i :: 0 <= i < |out.newlyFrozen| ==> out.newlyFrozen[i].0 == |kept| + i
  {
    hide Freeze, TailText, Sound;
    var sentences := Freeze(pysbd, soft, text, Base(a, text)).0;
    assert Seconds(Numbered(|AfterReset(a, text).sentences|, sentences)) == sentences;
  }

  /** One update of a run, with whatever sound segmentation it was given. */
  ghost predicate Step(soft: int, a: Frozen, text: string, b: Frozen) {
    exists pysbd: Segmentation :: Sound(pysbd, text, Base(a, text)) && Updated(pysbd, soft, a, text).0 == b
  }

  ghost predicate IsRun(soft: int, texts: seq<string>, states: seq<Frozen>) {
    && |states| == |texts| + 1
    && states[0] == Empty
    && forall i :: 0 <= i < |texts| ==> Step(soft, states[i], texts[i], states[i + 1])
  }

  /** Over any run, on arbitrary texts, the frozen sentences spell a prefix of the latest text. */
  lemma {:induction false} RunSpells(soft: int, texts: seq<string>, states: seq<Frozen>, n: nat)
    requires IsRun(soft, texts, states) && n <= |texts|
    ensures Spells(states[n])
    ensures n > 0 ==> states[n].consumed <= texts[n - 1]
  {
    hide Updated, Sound;
    if n > 0 {
      RunSpells(soft, texts, states, n - 1);
      assert Step(soft, states[n - 1], texts[n - 1], states[n - 1 + 1]);
      var a, text := states[n - 1], texts[n - 1];
      var pysbd :| Sound(pysbd, text, Base(a, text)) && Updated(pysbd, soft, a, text).0 == states[n];
      UpdateConserves(pysbd, soft, a, text);
    }
  }

  // ------------------------------------------------------ soft chunks and idempotence

  /** The raw tail s[from..] is within the budget, or its window holds no cut point. */
  predicate Settled(s: string, from: nat, soft: int)
    requires from <= |s|
  {
    || |s| - from <= soft
    || var stop := WindowEnd(s, from, soft);
       && (forall i :: from <= i < stop ==> s[i] != ' ')
       && (forall i :: from <= i < stop - 1 ==> !WeakAt(s, i))
  }

  lemma {:induction false} NoCut(s: string, from: nat, stop: nat)
    requires from <= stop <= |s|
    ensures WeakCut(s, from, stop) == from <==> forall i :: from <= i < stop - 1 ==> !WeakAt(s, i)
    ensures SpaceCut(s, from, stop) == from <==> forall i :: from <= i < stop ==> s[i] != ' '
    decreases stop
  {
    hide WeakAt;
    if from < stop { NoCut(s, from, stop - 1); }
  }

  lemma SettledStops(s: string, from: nat, soft: int)
    requires from <= |s|
    ensures Settled(s, from, soft) <==> SoftCut(s, from, soft) == from
  {
    NoCut(s, from, WindowEnd(s, from, soft));
  }

  /** The soft-chunk loop leaves a raw tail that is within the budget or has no
      cut point in its window; if it cut at all, the tail follows whitespace. */
  lemma {:induction false} SoftChunksSettle(s: string, from: nat, soft: int)
    requires from <= |s|
    ensures var end := SoftChunks(s, from, soft).1;
            Settled(s, end, soft) && (end == from || Space(s[end - 1]))
    decreases |s| - from
  {
    hide Settled, Space, SoftCut, Kept;
    var c := SoftCut(s, from, soft);
    SettledStops(s, from, soft);
    if c > from { SoftChunksSettle(s, c, soft); }
  }

  /** No frozen chunk is empty or over the budget. */
  lemma {:induction false} SoftChunksBounded(s: string, from: nat, soft: nat)
    requires from <= |s|
    ensures forall chunk :: chunk in SoftChunks(s, from, soft).0 ==> chunk != "" && |chunk| <= soft
    decreases |s| - from
  {
    hide Strip, Cut;
    var c := SoftCut(s, from, soft);
    if c > from {
      SoftChunksBounded(s, c, soft);
      EraseStrip(Python, s[from..c]);
    }
  }

  /** Matches in a later text are matches in the earlier one when whitespace precedes it. */
  lemma LaterMatches(s: string, base: nat, later: nat, i: nat)
    requires base <= later <= |s| && (later == base || later == |s| || Space(s[later - 1]))
    ensures BoundaryAt(s, later, i) ==> BoundaryAt(s, base, i)
    ensures EndsAt(s, later, i) ==> EndsAt(s, base, i)
  {
  }

  lemma LaterEndsNoSentence(s: string, from: nat, later: nat)
    requires from <= later <= |s| && (later == from || later == |s| || Space(s[later - 1]))
    requires !EndsSentence(s, from)
    ensures !EndsSentence(s, later)
  {
    hide EndsAt, Space;
    if i :| later <= i < |s| && EndsAt(s, later, i) {
      LaterMatches(s, from, later, i);
    }
  }

  /** After the last fallback span starts there is no further boundary. */
  lemma {:induction false} LastFallbackSpan(s: string, base: nat, start: nat, i: nat)
    requires base <= start <= i <= |s| && (start == base || Space(s[start - 1]))
    requires forall j :: start <= j < i ==> !BoundaryAt(s, base, j)
    ensures var spans := FallbackSpans(s, base, start, i);
            var p := spans[|spans| - 1].start;
            && base <= p <= |s|
            && (p == base || Space(s[p - 1]))
            && forall j :: p <= j < |s| ==> !BoundaryAt(s, base, j)
    decreases |s| - i
  {
    hide BoundaryAt, Space;
    if i < |s| {
      if BoundaryAt(s, base, i) {
        LastFallbackSpan(s, base, BoundaryEnd(s, base, i), BoundaryEnd(s, base, i));
      } else {
        LastFallbackSpan(s, base, start, i + 1);
      }
    }
  }

  lemma {:induction false} OneFallbackSpan(s: string, base: nat, i: nat)
    requires base <= i <= |s| && forall j :: i <= j < |s| ==> !BoundaryAt(s, base, j)
    ensures FallbackSpans(s, base, base, i) == [Span(base, |s|)]
    decreases |s| - i
  {
    hide BoundaryAt;
    if i < |s| {
      OneFallbackSpan(s, base, i + 1);
    }
  }

  /** A text with no boundary and no sentence end, whose raw tail is settled, freezes nothing. */
  lemma NothingToFreeze(soft: int, s: string, base: nat)
    requires base <= |s|
    requires forall j :: base <= j < |s| ==> !BoundaryAt(s, base, j)
    requires !EndsSentence(s, base)
    requires Settled(s, base, soft)
    ensures Freeze(None, soft, s, base) == ([], base)
  {
    hide BoundaryAt, EndsSentence, Settled, SoftCut, Space;
    OneFallbackSpan(s, base, base);
    SettledStops(s, base, soft);
    assert SegmentSpans(None, s, base) == [Span(base, |s|)];
    assert Complete(s, base, [Span(base, |s|)]) == 0;
    assert SoftChunks(s, base, soft) == ([], base);
    assert Sentences(s, base, [Span(base, |s|)], 0) + SoftChunks(s, base, soft).0 == [];
  }

  /** On the fallback path the raw tail left by an update freezes nothing more. */
  lemma FallbackTailIsFinal(soft: int, s: string, base: nat)
    requires base <= |s|
    ensures var end := Freeze(None, soft, s, base).1;
            Freeze(None, soft, s, end) == ([], end)
  {
    hide BoundaryAt, EndsSentence, Settled, Space, SoftChunks, Sentences;
    if !BlankRange(s, base, |s|) {
      var spans := SegmentSpans(None, s, base);
      var p, start := spans[|spans| - 1].start, TailStart(s, base, spans);
      LastFallbackSpan(s, base, base, base);
      var end := SoftChunks(s, start, soft).1;
      SoftChunksSettle(s, start, soft);
      forall j | end <= j < |s| ensures !BoundaryAt(s, end, j) {
        LaterMatches(s, base, end, j);
      }
      assert !EndsSentence(s, end) by {
        if start == |s| { NoSentenceLeft(s); } else { LaterEndsNoSentence(s, p, end); }
      }
      NothingToFreeze(soft, s, end);
    }
  }

  lemma NoSentenceLeft(s: string)
    ensures !EndsSentence(s, |s|)
  {
  }

  /** On the fallback path a second update with the same text freezes nothing,
      does not reset, and returns the same tail. */
  lemma FallbackIdempotent(soft: int, a: Frozen, text: string)
    ensures var (b, first) := Updated(None, soft, a, text);
            Updated(None, soft, b, text) == (b, Outcome([], first.tail, false))
  {
    hide Freeze, Strip, IsSpace;
    var base := Base(a, text);
    var end := Freeze(None, soft, text, base).1;
    var b := Updated(None, soft, a, text).0;
    FallbackTailIsFinal(soft, text, base);
    assert AfterReset(b, text) == b && Base(b, text) == end;
    assert b.sentences + [] == b.sentences;
    EraseStrip(Python, text[end..]);
    if BlankRange(text, end, |text|) {
      assert Blank(Python, text[end..]);
    }
  }

  // ------------------------------------------------------ the object

  /** `for m in _WEAK_CUT_RE.finditer(window): cut = m.end()`, then `rfind`. */
  method FindCut(s: string, from: nat, stop: nat) returns (cut: nat)
    requires from <= stop <= |s|
    ensures cut == Cut(s, from, stop)
  {
    hide WeakAt;
    cut := from;
    var i := from;
    while i + 1 < stop
      invariant from <= i <= stop
      invariant cut == WeakCut(s, from, if i + 1 < stop then i + 1 else stop)
    {
      if WeakAt(s, i) { cut := i + 2; }
      i := i + 1;
    }
    if cut == from {
      cut := stop;
      while cut > from && s[cut - 1] != ' '
        invariant from <= cut <= stop
        invariant SpaceCut(s, from, stop) == SpaceCut(s, from, cut)
      {
        cut := cut - 1;
      }
    }
  }

  /** The regex fallback of `_segment_spans`, as its loop builds the list. */
  method FallbackSegments(s: string, base: nat) returns (spans: seq<Span>)
    requires base <= |s|
    ensures spans == FallbackSpans(s, base, base, base)
  {
    hide BoundaryAt, Space;
    spans := [];
    var start: nat, i: nat := base, base;
    while i < |s|
      invariant base <= start <= i <= |s|
      invariant spans + FallbackSpans(s, base, start, i) == FallbackSpans(s, base, base, base)
    {
      if BoundaryAt(s, base, i) {
        var end := BoundaryEnd(s, base, i);
        assert spans + ([Span(start, end)] + FallbackSpans(s, base, end, end)) ==
          (spans + [Span(start, end)]) + FallbackSpans(s, base, end, end);
        spans := spans + [Span(start, end)];
        start, i := end, end;
      } else {
        i := i + 1;
      }
    }
    spans := spans + [Span(start, |s|)];
  }

  class SegmentAssembler {
    const softChunkChars: int
    var frozenSrc: seq<string>
    var resets: nat
    var consumedText: string

    constructor (soft: int)
      ensures softChunkChars == soft && View() == Empty && resets == 0
    {
      softChunkChars := soft;
      frozenSrc, resets, consumedText := [], 0, "";
    }

    ghost function View(): Frozen reads this { Frozen(frozenSrc, consumedText) }

    /** The loop over the complete spans. */
    method FreezeComplete(text: string, base: nat, spans: seq<Span>, n: nat) returns (newlyFrozen: seq<(nat, string)>)
      requires Inside(text, base, spans) && n <= |spans|
      modifies this`frozenSrc
      ensures frozenSrc == old(frozenSrc) + Sentences(text, base, spans, n)
      ensures newlyFrozen == Numbered(|old(frozenSrc)|, Sentences(text, base, spans, n))
    {
      hide Strip, Sentences, Numbered, Kept;
      newlyFrozen := [];
      var i := 0;
      NoSentences(text, base, spans, |frozenSrc|);
      while i < n
        invariant i <= n
        invariant frozenSrc == old(frozenSrc) + Sentences(text, base, spans, i)
        invariant newlyFrozen == Numbered(|old(frozenSrc)|, Sentences(text, base, spans, i))
      {
        var sentence := Strip(Python, text[spans[i].start..spans[i].end]);
        OneMoreSentence(text, base, spans, i, |old(frozenSrc)|);
        if sentence != "" {
          newlyFrozen := newlyFrozen + [(|frozenSrc|, sentence)];
          frozenSrc := frozenSrc + [sentence];
        }
        i := i + 1;
      }
    }

    /** The soft-chunk loop over the raw tail. */
    method SoftChunk(text: string, start: nat) returns (newlyFrozen: seq<(nat, string)>, tailStart: nat)
      requires start <= |text|
      modifies this`frozenSrc
      ensures (frozenSrc, tailStart) ==
        (old(frozenSrc) + SoftChunks(text, start, softChunkChars).0, SoftChunks(text, start, softChunkChars).1)
      ensures newlyFrozen == Numbered(|old(frozenSrc)|, SoftChunks(text, start, softChunkChars).0)
    {
      hide Strip, Cut, Space, SoftChunks, WindowEnd;
      newlyFrozen, tailStart := [], start;
      ghost var chunks: seq<string> := [];
      while |text| - tailStart > softChunkChars
        invariant start <= tailStart <= |text|
        invariant chunks + SoftChunks(text, tailStart, softChunkChars).0 == SoftChunks(text, start, softChunkChars).0
        invariant SoftChunks(text, tailStart, softChunkChars).1 == SoftChunks(text, start, softChunkChars).1
        invariant frozenSrc == old(frozenSrc) + chunks
        invariant newlyFrozen == Numbered(|old(frozenSrc)|, chunks)
        decreases |text| - tailStart
      {
        var cut := FindCut(text, tailStart, WindowEnd(text, tailStart, softChunkChars));
        SoftChunksStep(text, tailStart, softChunkChars, chunks);
        if cut <= tailStart { break; }
        var chunk := Strip(Python, text[tailStart..cut]);
        if chunk != "" {
          newlyFrozen := newlyFrozen + [(|frozenSrc|, chunk)];
          frozenSrc := frozenSrc + [chunk];
          chunks := chunks + [chunk];
        }
        tailStart := cut;
      }
      SoftChunksStep(text, tailStart, softChunkChars, chunks);
    }

    method Update(pysbd: Segmentation, text: string)
      returns (newlyFrozen: seq<(nat, string)>, tail: string, reset: bool)
      requires Sound(pysbd, text, Base(View(), text))
      modifies this
      ensures (View(), Outcome(newlyFrozen, tail, reset)) == Updated(pysbd, softChunkChars, old(View()), text)
      ensures resets == old(resets) + (if reset then 1 else 0)
    {
      hide Strip, Covers, Space, BlankRange, Complete, TailStart, FallbackSpans, SoftChunks, Sentences, Sound, Freeze,
        Updated, Numbered;
      ghost var b := AfterReset(View(), text);
      newlyFrozen, tail, reset := [], "", false;
      if consumedText != "" && !(consumedText <= text) {
        resets := resets + 1;
        frozenSrc := [];
        consumedText := "";
        reset := true;
      }
      var base := |consumedText|;
      if BlankRange(text, base, |text|) {
        UpdatedBlank(pysbd, softChunkChars, old(View()), text);
        return;
      }
      var spans;
      if pysbd.Some? {
        spans := pysbd.value;
      } else {
        spans := FallbackSegments(text, base);
      }
      assert spans == SegmentSpans(pysbd, text, base);
      var n, start := Complete(text, base, spans), TailStart(text, base, spans);
      UpdatedByLoops(pysbd, softChunkChars, old(View()), text);
      var sentences := FreezeComplete(text, base, spans, n);
      var chunks, tailStart := SoftChunk(text, start);
      newlyFrozen := sentences + chunks;
      consumedText := text[..tailStart];
      tail := Strip(Python, text[tailStart..]);
    }
  }

  lemma NoSentences(s: string, base: nat, spans: seq<Span>, from: nat)
    requires Inside(s, base, spans)
    ensures Sentences(s, base, spans, 0) == [] && Numbered(from, []) == []
  {
  }

  /** One turn of the loop over the complete spans. */
  lemma OneMoreSentence(s: string, base: nat, spans: seq<Span>, i: nat, from: nat)
    requires Inside(s, base, spans) && i < |spans|
    ensures var t := Strip(Python, s[spans[i].start..spans[i].end]);
            var before, after := Sentences(s, base, spans, i), Sentences(s, base, spans, i + 1);
            && after == (if t == "" then before else before + [t])
            && Numbered(from, after) ==
               (if t == "" then Numbered(from, before) else Numbered(from, before) + [(from + |before|, t)])
  {
    hide Strip;
    var t := Strip(Python, s[spans[i].start..spans[i].end]);
    var before := Sentences(s, base, spans, i);
    assert before + [] == before;
    assert Numbered(from, before + [t]) == Numbered(from, before) + [(from + |before|, t)];
  }

  /** One turn of the loop, after `chunks` were frozen. */
  lemma SoftChunksStep(s: string, from: nat, soft: int, chunks: seq<string>)
    requires from <= |s|
    ensures var c := SoftCut(s, from, soft);
            if c == from then
              SoftChunks(s, from, soft) == ([], from) && chunks + [] == chunks
            else
              && SoftChunks(s, from, soft).1 == SoftChunks(s, c, soft).1
              && chunks + SoftChunks(s, from, soft).0 == chunks + Kept(s, from, c) + SoftChunks(s, c, soft).0
              && chunks + Kept(s, from, c) == if Strip(Python, s[from..c]) == "" then chunks
                 else chunks + [Strip(Python, s[from..c])]
  {
    hide SoftCut, Strip;
  }

  /** `Updated` when nothing visible is left to segment. */
  lemma UpdatedBlank(pysbd: Segmentation, soft: int, a: Frozen, text: string)
    requires Sound(pysbd, text, Base(a, text)) && BlankRange(text, Base(a, text), |text|)
    ensures var b := AfterReset(a, text);
            Updated(pysbd, soft, a, text) == (b, Outcome([], "", b != a))
  {
    hide Strip, Space, BlankRange;
    var b := AfterReset(a, text);
    assert b.sentences + [] == b.sentences && text[..Base(a, text)] == b.consumed;
  }

  /** `Updated` as the two loops produce it. */
  lemma UpdatedByLoops(pysbd: Segmentation, soft: int, a: Frozen, text: string)
    requires Sound(pysbd, text, Base(a, text)) && !BlankRange(text, Base(a, text), |text|)
    ensures var b, base := AfterReset(a, text), Base(a, text);
            var spans := SegmentSpans(pysbd, text, base);
            Inside(text, base, spans) &&
            var sentences := Sentences(text, base, spans, Complete(text, base, spans));
            var (chunks, end) := SoftChunks(text, TailStart(text, base, spans), soft);
            Updated(pysbd, soft, a, text) ==
              (Frozen(b.sentences + sentences + chunks, text[..end]),
               Outcome(Numbered(|b.sentences|, sentences) + Numbered(|b.sentences + sentences|, chunks),
                 Strip(Python, text[end..]), b != a))
  {
    hide Strip, Covers, Space, BlankRange, Complete, TailStart, FallbackSpans, SoftChunks, Sentences, Sound,
      SegmentSpans, AfterReset;
    var b, base := AfterReset(a, text), Base(a, text);
    var spans := SegmentSpans(pysbd, text, base);
    CoversInside(text, base, spans);
    var sentences := Sentences(text, base, spans, Complete(text, base, spans));
    var (chunks, end) := SoftChunks(text, TailStart(text, base, spans), soft);
    assert b.sentences + sentences + chunks == b.sentences + (sentences + chunks);
    assert Numbered(|b.sentences|, sentences) + Numbered(|b.sentences + sentences|, chunks) ==
      Numbered(|b.sentences|, sentences + chunks);
  }

  lemma CoversInside(s: string, base: nat, spans: seq<Span>)
    requires base <= |s| && Covers(s, base, spans)
    ensures Inside(s, base, spans)
  {
  }
}
