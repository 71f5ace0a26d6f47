/** Transcriber/ASR/openai_streaming/index.js: cutting a stream of text deltas
    into final segments, for a protocol without server-side finals.

    Times are milliseconds and 0 is "unset", as JavaScript's falsiness has it.
    Segment bounds are kept in milliseconds where the source divides by 1000. */
module Segmentation {
  import opened Options
  import opened Text

  datatype Config = Config(minWords: int, softMaxWords: int, hardMaxWords: int, silenceMs: int, punctSilenceMs: int,
    hardSilenceMs: int)

  const DrainGraceMs := 750

  datatype Segment = Segment(text: string, start: int, end: int)

  datatype Stream = Stream(
    accumulated: string,
    lastDelta: nat,
    start: nat,
    lastEnd: int,
    draining: bool,
    drainStart: nat,
    emitted: seq<Segment>,
    fed: string)                   // history: the deltas that were not discarded

  const Init := Stream("", 0, 0, 0, false, 0, [], "")

  datatype Event = Delta(text: string, now: nat) | Tick(now: nat) | Stop(now: nat)

  predicate Space(c: char) { IsSpace(JavaScript, c) }

  function WordCount(text: string): nat { |Words(JavaScript, text)| }

  function Trim(text: string): string { Strip(JavaScript, text) }

  predicate IsEnd(c: char) { c == '.' || c == '!' || c == '?' || c == '\U{3002}' || c == '\U{FF01}' || c == '\U{FF1F}' }

  predicate IsUpper(c: char) {
    'A' <= c <= 'Z' || '\U{C0}' <= c <= '\U{D6}' || '\U{D8}' <= c <= '\U{DE}' || c == '\U{178}' || c == '\U{152}'
  }

  predicate IsOrphan(c: char) {
    IsEnd(c) || c == ',' || c == ';' || c == ':' || c == '\U{FF0C}' || c == '\U{FF1B}' || c == '\U{FF1A}' || Space(c)
  }

  predicate EndsSentence(t: string) { t != "" && IsEnd(t[|t| - 1]) }

  /** Punctuation that arrives after its segment was emitted. */
  predicate Discarded(accumulated: string, delta: string) {
    delta != "" && Trim(accumulated) == "" && forall i :: 0 <= i < |delta| ==> IsOrphan(delta[i])
  }

  // ------------------------------------------------------ where to cut

  function SkipSpaces(t: string, i: nat): (j: nat)
    requires i <= |t|
    ensures i <= j <= |t|
    decreases |t| - i
  {
    if i < |t| && Space(t[i]) then SkipSpaces(t, i + 1) else i
  }

  /** Sentence-ending punctuation, whitespace, then an upper-case letter. */
  predicate BoundaryAt(t: string, i: nat) {
    i + 1 < |t| && IsEnd(t[i]) && Space(t[i + 1]) && SkipSpaces(t, i + 1) < |t| && IsUpper(t[SkipSpaces(t, i + 1)])
  }

  /** The leftmost boundary from i on, |t| for none. */
  function FirstBoundary(t: string, i: nat): (b: nat)
    requires i <= |t|
    ensures i <= b <= |t|
    ensures b < |t| ==> BoundaryAt(t, b)
    ensures forall j :: i <= j < b ==> !BoundaryAt(t, j)
    decreases |t| - i
  {
    if i == |t| || BoundaryAt(t, i) then i else FirstBoundary(t, i + 1)
  }

  predicate BreakAt(t: string, i: nat) { i + 1 < |t| && IsEnd(t[i]) && Space(t[i + 1]) }

  /** `_findBestBreakPoint` over positions below n: the last one, None for -1. */
  function BestBreak(t: string, n: nat): (b: Option<nat>)
    requires n <= |t|
    ensures b.Some? ==> b.value < n && BreakAt(t, b.value) && forall j :: b.value < j < n ==> !BreakAt(t, j)
    ensures b.None? ==> forall j :: 0 <= j < n ==> !BreakAt(t, j)
  {
    if n == 0 then None else if BreakAt(t, n - 1) then Some(n - 1) else BestBreak(t, n - 1)
  }

  // ------------------------------------------------------ emitting

  function Elapsed(s: Stream, now: nat): int { if s.start != 0 then now - s.start else 0 }

  function Emit(s: Stream, text: string, now: nat): Stream {
    var end := s.lastEnd + Elapsed(s, now);
    s.(emitted := s.emitted + [Segment(text, s.lastEnd, end)], lastEnd := end)
  }

  /** Emit t up to position b, keep the rest. */
  function Split(s: Stream, t: string, b: nat, now: nat): Stream
    requires b < |t|
  {
    Emit(s, Trim(t[..b + 1]), now).(accumulated := " " + Trim(t[b + 1..]), start := now)
  }

  /** `_emitSegment` */
  function EmitAll(s: Stream, now: nat): Stream {
    if Trim(s.accumulated) == "" then s
    else Emit(s, Trim(s.accumulated), now).(accumulated := "", start := 0, draining := false)
  }

  // ------------------------------------------------------ steps

  /** `_checkInternalBoundary` */
  function CheckBoundary(cfg: Config, s: Stream, now: nat): Stream {
    var t := Trim(s.accumulated);
    var b := FirstBoundary(t, 0);
    if WordCount(t) < cfg.minWords || b == |t| || WordCount(Trim(t[..b + 1])) < cfg.minWords then s
    else Split(s, t, b, now).(draining := false)
  }

  /** `handlePartial` */
  function AfterDelta(cfg: Config, s: Stream, delta: string, now: nat): Stream {
    if delta == "" || Discarded(s.accumulated, delta) then s
    else
      var s1 := s.(accumulated := s.accumulated + delta, fed := s.fed + delta, lastDelta := now,
        start := if s.start == 0 then now else s.start);
      CheckBoundary(cfg, s1, now)
  }

  datatype Verdict = Nothing | CutAt(b: nat) | Everything | Drain | StopDraining

  /** What a tick decides, in the order of its priorities. */
  function Decide(cfg: Config, s: Stream, now: nat): (v: Verdict)
    ensures v.CutAt? ==> 0 < v.b < |Trim(s.accumulated)|
    ensures v.CutAt? ==> BestBreak(Trim(s.accumulated), |Trim(s.accumulated)|) == Some(v.b)
  {
    var t := Trim(s.accumulated);
    var silence := now - s.lastDelta;
    var words := WordCount(t);
    if t == "" || s.lastDelta == 0 || (words < cfg.minWords && silence < cfg.hardSilenceMs) then Nothing
    else if words >= cfg.hardMaxWords then
      var b := BestBreak(t, |t|);
      if b.Some? && b.value > 0 then CutAt(b.value) else Everything
    else if words >= cfg.softMaxWords && EndsSentence(t) then Everything
    else if silence > cfg.silenceMs && EndsSentence(t) && words >= cfg.minWords then Everything
    else if silence > cfg.punctSilenceMs && EndsSentence(t) && 2 * words >= cfg.softMaxWords then Everything
    else if words >= cfg.minWords && silence > cfg.hardSilenceMs then
      if !s.draining then Drain
      else if s.lastDelta > s.drainStart then StopDraining
      else if now - s.drainStart > DrainGraceMs then Everything
      else Nothing
    else Nothing
  }

  /** `_runSegmentationTick` */
  function AfterTick(cfg: Config, s: Stream, now: nat): Stream {
    match Decide(cfg, s, now)
    case Nothing => s
    case CutAt(b) => Split(s, Trim(s.accumulated), b, now)
    case Everything => EmitAll(s, now)
    case Drain => s.(draining := true, drainStart := now)
    case StopDraining => s.(draining := false)
  }

  function Next(cfg: Config, s: Stream, e: Event): Stream {
    match e
    case Delta(text, now) => AfterDelta(cfg, s, text, now)
    case Tick(now) => AfterTick(cfg, s, now)
    case Stop(now) => EmitAll(s, now)
  }

  function Run(cfg: Config, es: seq<Event>): Stream {
    if es == [] then Init else Next(cfg, Run(cfg, es[..|es| - 1]), es[|es| - 1])
  }

  // ------------------------------------------------------ conservation

  function TextsOf(segments: seq<Segment>): (r: seq<string>)
    ensures |r| == |segments|
    ensures forall i :: 0 <= i < |segments| ==> r[i] == segments[i].text
  {
    seq(|segments|, i requires 0 <= i < |segments| => segments[i].text)
  }

  function Visible(text: string): string { Erase(JavaScript, text) }

  /** The segments, then the accumulated text, spell the deltas. */
  ghost predicate Conserves(s: Stream) {
    EraseAll(JavaScript, TextsOf(s.emitted)) + Visible(s.accumulated) == Visible(s.fed)
  }

  /** Emitting some visible text off the front of the accumulated text. */
  lemma EmitConserves(s: Stream, n: Stream, segment: Segment)
    requires Conserves(s) && n.emitted == s.emitted + [segment] && n.fed == s.fed
    requires Visible(s.accumulated) == Visible(segment.text) + Visible(n.accumulated)
    ensures Conserves(n)
  {
    hide Erase, EraseAll;
    assert TextsOf(n.emitted) == TextsOf(s.emitted) + [segment.text];
    EraseAllSum(JavaScript, TextsOf(s.emitted), [segment.text]);
    EraseAllOne(JavaScript, segment.text);
  }

  /** A split keeps every visible character and leaves both sides visible when
      the text is trimmed and starts and ends the two sides. */
  lemma SplitVisible(s: Stream, b: nat, now: nat)
    requires var t := Trim(s.accumulated); b + 1 < |t| && !Space(t[b])
    ensures var t := Trim(s.accumulated); var n := Split(s, t, b, now);
            && Visible(s.accumulated) == Visible(Trim(t[..b + 1])) + Visible(n.accumulated)
            && Visible(Trim(t[..b + 1])) != "" && Visible(n.accumulated) != ""
  {
    hide Erase, Strip, IsSpace;
    var t := Trim(s.accumulated);
    EraseStrip(JavaScript, s.accumulated);
    EraseSplit(JavaScript, t, b + 1);
    EraseStrip(JavaScript, t[..b + 1]);
    EraseStrip(JavaScript, t[b + 1..]);
    EraseSum(JavaScript, " ", Trim(t[b + 1..]));
    EraseBlank(JavaScript, " ");
    EraseBlank(JavaScript, t[..b + 1]);
    EraseBlank(JavaScript, t[b + 1..]);
    BlankSpace();
    assert t[..b + 1][b] == t[b] && t[b + 1..][|t| - b - 2] == t[|t| - 1];
  }

  lemma BlankSpace()
    ensures Blank(JavaScript, " ")
  {
  }

  lemma EmitAllVisible(s: Stream, now: nat)
    requires Conserves(s)
    ensures Conserves(EmitAll(s, now)) && Visible(EmitAll(s, now).accumulated) == ""
  {
    hide Erase, Strip, EraseAll;
    EraseStrip(JavaScript, s.accumulated);
    EraseBlank(JavaScript, s.accumulated);
    EraseBlank(JavaScript, "");
    if Trim(s.accumulated) != "" {
      EmitConserves(s, EmitAll(s, now), Segment(Trim(s.accumulated), s.lastEnd, s.lastEnd + Elapsed(s, now)));
    }
  }

  lemma BoundaryConserves(cfg: Config, s: Stream, now: nat)
    requires Conserves(s)
    ensures Conserves(CheckBoundary(cfg, s, now))
  {
    hide Erase, Strip, EraseAll, Words;
    var t := Trim(s.accumulated);
    var b := FirstBoundary(t, 0);
    if CheckBoundary(cfg, s, now) != s {
      SplitVisible(s, b, now);
      EmitConserves(s, CheckBoundary(cfg, s, now), Segment(Trim(t[..b + 1]), s.lastEnd, s.lastEnd + Elapsed(s, now)));
    }
  }

  lemma DeltaConserves(cfg: Config, s: Stream, delta: string, now: nat)
    requires Conserves(s)
    ensures Conserves(AfterDelta(cfg, s, delta, now))
  {
    hide Erase, Strip, EraseAll, CheckBoundary, Discarded;
    if delta != "" && !Discarded(s.accumulated, delta) {
      EraseSum(JavaScript, s.accumulated, delta);
      EraseSum(JavaScript, s.fed, delta);
      var s1 := s.(accumulated := s.accumulated + delta, fed := s.fed + delta, lastDelta := now,
        start := if s.start == 0 then now else s.start);
      BoundaryConserves(cfg, s1, now);
    }
  }

  lemma TickConserves(cfg: Config, s: Stream, now: nat)
    requires Conserves(s)
    ensures Conserves(AfterTick(cfg, s, now))
  {
    hide Erase, Strip, EraseAll, Words, EmitAll;
    var t := Trim(s.accumulated);
    match Decide(cfg, s, now)
    case CutAt(b) =>
      SplitVisible(s, b, now);
      EmitConserves(s, AfterTick(cfg, s, now), Segment(Trim(t[..b + 1]), s.lastEnd, s.lastEnd + Elapsed(s, now)));
    case Everything => EmitAllVisible(s, now);
    case _ =>
  }

  /** Over every sequence of deltas, ticks and stops: the segments emitted,
      followed by the accumulated text, are the deltas that were not discarded,
      whitespace aside. */
  lemma {:induction false} RunConserves(cfg: Config, es: seq<Event>)
    ensures Conserves(Run(cfg, es))
  {
    hide Conserves, Next;
    if es == [] {
      InitConserves();
    } else {
      RunConserves(cfg, es[..|es| - 1]);
      NextConserves(cfg, Run(cfg, es[..|es| - 1]), es[|es| - 1]);
    }
  }

  lemma InitConserves()
    ensures Conserves(Init)
  {
    assert TextsOf([]) == [];
  }

  lemma NextConserves(cfg: Config, s: Stream, e: Event)
    requires Conserves(s)
    ensures Conserves(Next(cfg, s, e))
  {
    hide Conserves, AfterDelta, AfterTick, EmitAll;
    match e
    case Delta(text, now) => DeltaConserves(cfg, s, text, now);
    case Tick(now) => TickConserves(cfg, s, now);
    case Stop(now) => EmitAllVisible(s, now);
  }

  /** After a stop nothing is left: the segments alone are the deltas. */
  lemma StopLeavesNothing(cfg: Config, es: seq<Event>, now: nat)
    ensures var s := Run(cfg, es + [Stop(now)]);
            Visible(s.accumulated) == "" && EraseAll(JavaScript, TextsOf(s.emitted)) == Visible(s.fed)
  {
    hide Erase, EraseAll, EmitAll;
    assert (es + [Stop(now)])[..|es|] == es;
    RunConserves(cfg, es);
    EmitAllVisible(Run(cfg, es), now);
  }

  /** A delta is dropped exactly when it is only punctuation and whitespace and
      nothing visible is accumulated; any other one is kept and dated. */
  lemma DiscardsOrphansOnly(cfg: Config, s: Stream, delta: string, now: nat)
    ensures var n := AfterDelta(cfg, s, delta, now);
            if delta == "" || (Visible(s.accumulated) == "" && forall i :: 0 <= i < |delta| ==> IsOrphan(delta[i]))
            then n == s
            else n.fed == s.fed + delta && n.lastDelta == now && |n.fed| > |s.fed|
  {
    hide Erase, Strip, IsOrphan, CheckBoundary;
    EraseStrip(JavaScript, s.accumulated);
    EraseBlank(JavaScript, s.accumulated);
    FedByBoundary(cfg, s.(accumulated := s.accumulated + delta, fed := s.fed + delta, lastDelta := now,
      start := if s.start == 0 then now else s.start), now);
  }

  lemma FedByBoundary(cfg: Config, s: Stream, now: nat)
    ensures CheckBoundary(cfg, s, now).fed == s.fed && CheckBoundary(cfg, s, now).lastDelta == s.lastDelta
  {
  }

  // ------------------------------------------------------ progress

  /** Each emission strictly shrinks the visible content it is taken from. */
  lemma SplitShrinks(s: Stream, b: nat, now: nat)
    requires var t := Trim(s.accumulated); b + 1 < |t| && !Space(t[b])
    ensures |Visible(Split(s, Trim(s.accumulated), b, now).accumulated)| < |Visible(s.accumulated)|
  {
    hide Erase, Strip;
    SplitVisible(s, b, now);
  }

  lemma TickShrinks(cfg: Config, s: Stream, now: nat)
    ensures var n := AfterTick(cfg, s, now);
            if n.emitted == s.emitted then n.accumulated == s.accumulated
            else |n.emitted| == |s.emitted| + 1 && |Visible(n.accumulated)| < |Visible(s.accumulated)|
  {
    hide Erase, Strip, Words;
    EraseStrip(JavaScript, s.accumulated);
    EraseBlank(JavaScript, s.accumulated);
    EraseBlank(JavaScript, "");
    match Decide(cfg, s, now)
    case CutAt(b) => SplitShrinks(s, b, now);
    case _ =>
  }

  lemma DeltaShrinks(cfg: Config, s: Stream, delta: string, now: nat)
    ensures var n := AfterDelta(cfg, s, delta, now);
            n.emitted == s.emitted ||
            (|n.emitted| == |s.emitted| + 1 && |Visible(n.accumulated)| < |Visible(s.accumulated + delta)|)
  {
    hide Erase, Strip, Words, Discarded;
    var s1 := s.(accumulated := s.accumulated + delta, fed := s.fed + delta, lastDelta := now,
      start := if s.start == 0 then now else s.start);
    var t := Trim(s1.accumulated);
    var b := FirstBoundary(t, 0);
    if b < |t| { SplitShrinks(s1, b, now); }
  }

  /** Trimming keeps a contiguous piece, up to the end when the end is visible. */
  lemma {:induction false} TrimLeftIsSuffix(t: string) returns (k: nat)
    ensures k <= |t| && StripLeft(JavaScript, t) == t[k..]
  {
    if t != "" && Space(t[0]) {
      var m := TrimLeftIsSuffix(t[1..]);
      k := m + 1;
    } else {
      k := 0;
    }
  }

  lemma TrimIsSuffix(t: string) returns (k: nat)
    requires t != "" ==> !Space(t[|t| - 1])
    ensures k <= |t| && Trim(t) == t[k..]
  {
    k := TrimLeftIsSuffix(t);
    assert t[k..] != "" ==> t[k..][|t| - k - 1] == t[|t| - 1];
  }

  /** What is left of a hard split has no break point. */
  lemma RestHasNoBreak(t: string, b: nat)
    requires b + 1 < |t| && !Space(t[|t| - 1])
    requires forall j :: b < j < |t| ==> !BreakAt(t, j)
    ensures var r := Trim(t[b + 1..]); BestBreak(r, |r|) == None
  {
    hide Strip, IsEnd;
    var k := TrimIsSuffix(t[b + 1..]);
    var r := Trim(t[b + 1..]);
    assert forall j :: 0 <= j < |r| ==> r[j] == t[b + 1 + k + j];
    assert forall j :: 0 <= j < |r| && BreakAt(r, j) ==> BreakAt(t, b + 1 + k + j);
  }

  /** Trimming twice is trimming once. */
  lemma TrimTrimmed(r: string)
    ensures Trim(" " + Trim(r)) == Trim(r)
  {
    EraseStrip(JavaScript, r);
    var t := Trim(r);
    assert (" " + t)[1..] == t;
    assert StripLeft(JavaScript, " " + t) == StripLeft(JavaScript, t);
  }

  ghost predicate Timely(s: Stream) { Trim(s.accumulated) != "" ==> s.lastDelta > 0 }

  /** An accumulation of `hardMaxWords` words drops below that bound within two
      ticks without new deltas. */
  lemma TwoTicksDropBelowHardMax(cfg: Config, s: Stream, first: nat, second: nat)
    requires cfg.minWords <= cfg.hardMaxWords && 1 <= cfg.hardMaxWords && Timely(s)
    requires WordCount(Trim(s.accumulated)) >= cfg.hardMaxWords
    ensures var n := AfterTick(cfg, AfterTick(cfg, s, first), second);
            WordCount(Trim(n.accumulated)) < cfg.hardMaxWords
  {
    hide Strip, Words, BestBreak;
    var t := Trim(s.accumulated);
    NothingHasNoWords();
    EraseStrip(JavaScript, s.accumulated);
    var b := BestBreak(t, |t|);
    var n := AfterTick(cfg, s, first);
    if b.Some? && b.value > 0 {
      RestHasNoBreak(t, b.value);
      TrimTrimmed(t[b.value + 1..]);
      assert Trim(n.accumulated) == Trim(t[b.value + 1..]);
      if WordCount(Trim(n.accumulated)) >= cfg.hardMaxWords {
        assert Decide(cfg, n, second) == Everything;
      }
    } else {
      assert Decide(cfg, s, first) == Everything;
      assert n.accumulated == "";
      assert AfterTick(cfg, n, second) == n;
    }
  }

  lemma NothingHasNoWords()
    ensures Trim("") == "" && WordCount("") == 0
  {
  }

  /** The stream after its whole text was emitted as one segment at `now`. */
  ghost predicate EmittedWhole(s: Stream, now: nat, n: Stream) {
    var t, end := Trim(s.accumulated), if s.start == 0 then s.lastEnd else s.lastEnd + now - s.start;
    && n.emitted == s.emitted + [Segment(t, s.lastEnd, end)] && n.lastEnd == end
    && n.accumulated == "" && n.start == 0 && !n.draining && n.lastDelta == s.lastDelta
  }

  /** Under `minWords` words, silence alone never cuts: a tick emits exactly when
      the hard silence has passed and a complete sentence reaches a soft bound.
      (The comment on the minimum, lines 529-530, promises that hard silence
      lifts it; the priorities that follow all ask for `minWords` again.) */
  lemma ShortTextsWait(cfg: Config, s: Stream, now: nat)
    requires cfg.minWords <= cfg.hardMaxWords && Timely(s)
    requires var t := Trim(s.accumulated); t != "" && WordCount(t) < cfg.minWords
    ensures var t := Trim(s.accumulated);
            var silence := now - s.lastDelta;
            && (AfterTick(cfg, s, now).emitted != s.emitted <==>
                 && silence >= cfg.hardSilenceMs && EndsSentence(t)
                 && (WordCount(t) >= cfg.softMaxWords ||
                      (silence > cfg.punctSilenceMs && 2 * WordCount(t) >= cfg.softMaxWords)))
            && (EmittedWhole(s, now, AfterTick(cfg, s, now)) || AfterTick(cfg, s, now) == s)
  {
    hide Strip, Words, EndsSentence, BestBreak;
  }

  /** From `minWords` words on, and under the hard maximum, a tick emits the whole
      text exactly when one of two things holds. Either it ends a sentence and is
      long enough, or has been followed by the ordinary silence, or by the shorter
      one while half as long. Or the hard silence has passed on a draining stream
      that had no delta since, and the grace is over. Otherwise the tick only
      starts or gives up draining. */
  lemma OrdinaryTextIsEmittedWhen(cfg: Config, s: Stream, now: nat)
    requires Timely(s)
    requires var t := Trim(s.accumulated); t != "" && cfg.minWords <= WordCount(t) < cfg.hardMaxWords
    ensures var t, n := Trim(s.accumulated), AfterTick(cfg, s, now);
            var silence, words := now - s.lastDelta, WordCount(t);
            var sentence := EndsSentence(t) &&
              (words >= cfg.softMaxWords || silence > cfg.silenceMs ||
                (silence > cfg.punctSilenceMs && 2 * words >= cfg.softMaxWords));
            var drained := silence > cfg.hardSilenceMs && s.draining && s.lastDelta <= s.drainStart &&
              now - s.drainStart > DrainGraceMs;
            && (n.emitted != s.emitted <==> sentence || drained)
            && (sentence || drained ==> EmittedWhole(s, now, n))
            && (!(sentence || drained) ==>
                 if silence <= cfg.hardSilenceMs || (s.draining && s.lastDelta <= s.drainStart) then n == s
                 else if s.draining then n == s.(draining := false)
                 else n == s.(draining := true, drainStart := now))
  {
    hide Strip, Words, EndsSentence, BestBreak;
  }

  /** The last sentence end followed by whitespace. */
  ghost predicate LastBreak(t: string, b: nat) { BreakAt(t, b) && forall i: nat :: b < i ==> !BreakAt(t, i) }

  /** From the hard maximum on every tick emits: up to the last sentence end
      followed by whitespace, keeping the rest for the next segment, or all of it
      when there is none past the first character. */
  lemma HardMaxAlwaysEmits(cfg: Config, s: Stream, now: nat)
    requires cfg.minWords <= cfg.hardMaxWords && Timely(s)
    requires Trim(s.accumulated) != "" && WordCount(Trim(s.accumulated)) >= cfg.hardMaxWords
    ensures var t, n := Trim(s.accumulated), AfterTick(cfg, s, now);
            && (forall b: nat :: LastBreak(t, b) && b > 0 ==>
                 && n.emitted == s.emitted + [Segment(Trim(t[..b + 1]), s.lastEnd, n.lastEnd)]
                 && n.lastEnd == s.lastEnd + (if s.start == 0 then 0 else now - s.start)
                 && n.accumulated == " " + Trim(t[b + 1..]) && n.start == now)
            && ((forall b: nat :: LastBreak(t, b) ==> b == 0) ==> EmittedWhole(s, now, n))
  {
    hide Strip, Words;
    var t := Trim(s.accumulated);
    var b := BestBreak(t, |t|);
    BestIsLast(t);
  }

  lemma BestIsLast(t: string)
    ensures forall b: nat :: LastBreak(t, b) <==> BestBreak(t, |t|) == Some(b)
  {
    hide IsEnd, Space;
  }

  /** Inside t a sentence ends at i and the next begins: whitespace from i to k,
      then an upper-case letter. */
  ghost predicate NextSentence(t: string, i: nat) {
    i < |t| && IsEnd(t[i]) &&
    exists k: nat :: i + 1 < k < |t| && IsUpper(t[k]) && forall j :: i < j < k ==> Space(t[j])
  }

  lemma {:induction false} SpacesSkipped(t: string, i: nat)
    requires i <= |t|
    ensures forall j :: i <= j < SkipSpaces(t, i) ==> Space(t[j])
    ensures SkipSpaces(t, i) < |t| ==> !Space(t[SkipSpaces(t, i)])
    decreases |t| - i
  {
    hide Space;
    if i < |t| && Space(t[i]) { SpacesSkipped(t, i + 1); }
  }

  lemma BoundaryIs(t: string, i: nat)
    ensures BoundaryAt(t, i) <==> NextSentence(t, i)
  {
    hide IsEnd, Space, IsUpper;
    if BoundaryAt(t, i) { SpacesSkipped(t, i + 1); }
    if NextSentence(t, i) {
      var k: nat :| i + 1 < k < |t| && IsUpper(t[k]) && forall j :: i < j < k ==> Space(t[j]);
      SpacesSkipped(t, i + 1);
      UpperIsVisible(t[k]);
    }
  }

  lemma UpperIsVisible(c: char)
    ensures IsUpper(c) ==> !Space(c)
  {
  }

  /** A delta splits the text at its first inner sentence boundary when both the
      text and the part before the boundary have the minimum of words, and emits
      nothing otherwise. */
  lemma DeltaSplitsAtFirstBoundary(cfg: Config, s: Stream, delta: string, now: nat)
    requires AfterDelta(cfg, s, delta, now) != s
    ensures var t, n := Trim(s.accumulated + delta), AfterDelta(cfg, s, delta, now);
            && (forall b: nat :: b < |t| && NextSentence(t, b) && (forall i: nat :: i < b ==> !NextSentence(t, i)) ==>
                 if WordCount(t) >= cfg.minWords && WordCount(Trim(t[..b + 1])) >= cfg.minWords then
                   && n.emitted == s.emitted + [Segment(Trim(t[..b + 1]), s.lastEnd, n.lastEnd)]
                   && n.lastEnd == s.lastEnd + (if s.start == 0 then 0 else now - s.start)
                   && n.accumulated == " " + Trim(t[b + 1..]) && n.start == now && !n.draining
                 else n.emitted == s.emitted && n.accumulated == s.accumulated + delta)
            && ((forall i: nat :: !NextSentence(t, i)) ==>
                 n.emitted == s.emitted && n.accumulated == s.accumulated + delta)
            && (n.emitted == s.emitted ==>
                 n.start == (if s.start == 0 then now else s.start) && n.draining == s.draining)
  {
    hide Strip, Words, BoundaryAt, NextSentence, Discarded;
    var t := Trim(s.accumulated + delta);
    var first := FirstBoundary(t, 0);
    forall i: nat ensures BoundaryAt(t, i) <==> NextSentence(t, i) { BoundaryIs(t, i); }
  }

  /** The thresholds when the profile sets none. */
  const Defaults := Config(3, 80, 150, 1000, 500, 2500)
  const Held := Init.(accumulated := "Hi", lastDelta := 1, start := 1, fed := "Hi")

  lemma HeldIsTrimmed()
    ensures Trim("Hi") == "Hi" && WordCount("Hi") == 1 && !EndsSentence("Hi")
  {
    assert "Hi"[..2] == "Hi" && "Hi"[2..] == "";
    assert StripLeft(JavaScript, "Hi") == "Hi" && TokenLength(JavaScript, "Hi") == 2;
    assert Words(JavaScript, "") == [];
    assert Words(JavaScript, "Hi") == ["Hi"] + [];
  }

  /** So with the default thresholds one short delta is held however many ticks
      pass and however long the silence, the hard one included. */
  lemma {:induction false} ShortTextIsHeldForever(ticks: seq<Event>)
    requires forall i :: 0 <= i < |ticks| ==> ticks[i].Tick?
    ensures Run(Defaults, [Delta("Hi", 1)] + ticks) == Held
  {
    hide Strip, Words, EndsSentence, BestBreak;
    HeldIsTrimmed();
    var es := [Delta("Hi", 1)] + ticks;
    if ticks == [] {
      NothingHasNoWords();
      assert es[..0] == [] && es[0] == Delta("Hi", 1);
      assert !IsOrphan("Hi"[0]) && "" + "Hi" == "Hi";
      assert Next(Defaults, Init, Delta("Hi", 1)) == Held;
    } else {
      ShortTextIsHeldForever(ticks[..|ticks| - 1]);
      assert es[..|es| - 1] == [Delta("Hi", 1)] + ticks[..|ticks| - 1];
    }
  }

  /** From `minWords` words on, three ticks past the hard silence, the last two
      more than the grace apart, emit, whatever the drain state was. */
  lemma HardSilenceEmits(cfg: Config, s: Stream, first: nat, second: nat, third: nat)
    requires Timely(s) && Trim(s.accumulated) != "" && WordCount(Trim(s.accumulated)) >= cfg.minWords
    requires s.drainStart <= first <= second && second + DrainGraceMs < third
    requires first - s.lastDelta > cfg.hardSilenceMs
    requires cfg.hardSilenceMs >= 0
    ensures var n := AfterTick(cfg, AfterTick(cfg, AfterTick(cfg, s, first), second), third);
            |n.emitted| > |s.emitted|
  {
    hide Strip, Words, EndsSentence, BestBreak;
    var s1 := AfterTick(cfg, s, first);
    var s2 := AfterTick(cfg, s1, second);
    TickMonotone(cfg, s, first);
    TickMonotone(cfg, s1, second);
    TickMonotone(cfg, s2, third);
    if s2.emitted == s.emitted {
      assert s1.emitted == s.emitted;
      assert s2.accumulated == s.accumulated && s2.lastDelta == s.lastDelta;
    }
  }

  lemma TickMonotone(cfg: Config, s: Stream, now: nat)
    ensures s.emitted <= AfterTick(cfg, s, now).emitted
    ensures AfterTick(cfg, s, now).emitted == s.emitted ==>
      AfterTick(cfg, s, now).accumulated == s.accumulated && AfterTick(cfg, s, now).lastDelta == s.lastDelta
  {
    hide Strip, Words, EndsSentence, BestBreak;
  }

  // ------------------------------------------------------ the timeline

  /** Events happen at positive, non-decreasing times. */
  predicate Clocked(es: seq<Event>) {
    && (forall i :: 0 <= i < |es| ==> es[i].now > 0)
    && (forall i, j :: 0 <= i < j < |es| ==> es[i].now <= es[j].now)
  }

  /** Segment i starts where the previous one ends, the first at 0. */
  predicate Abuts(segments: seq<Segment>, i: nat)
    requires i < |segments|
  {
    segments[i].start <= segments[i].end && segments[i].start == if i == 0 then 0 else segments[i - 1].end
  }

  ghost predicate Tiles(segments: seq<Segment>, lastEnd: int) {
    && (forall i :: 0 <= i < |segments| ==> Abuts(segments, i))
    && lastEnd == if segments == [] then 0 else segments[|segments| - 1].end
  }

  ghost predicate Tiled(s: Stream, now: nat) {
    && Tiles(s.emitted, s.lastEnd)
    && s.start <= now && s.lastDelta <= now && s.drainStart <= now
    && (Trim(s.accumulated) != "" ==> s.lastDelta > 0)
  }

  lemma EmitTiles(s: Stream, text: string, before: nat, now: nat)
    requires Tiled(s, before) && before <= now
    ensures Tiled(Emit(s, text, now), now)
  {
    hide Strip;
    var n := Emit(s, text, now);
    forall i | 0 <= i < |n.emitted| ensures Abuts(n.emitted, i) {
      if i < |s.emitted| { assert Abuts(s.emitted, i); }
    }
  }

  lemma BoundaryTiles(cfg: Config, s: Stream, now: nat)
    requires Tiled(s, now) && s.lastDelta > 0
    ensures Tiled(CheckBoundary(cfg, s, now), now)
  {
    hide Strip, Words, FirstBoundary, Tiles;
    var t := Trim(s.accumulated);
    var b := FirstBoundary(t, 0);
    if b < |t| { EmitTiles(s, Trim(t[..b + 1]), now, now); }
  }

  lemma TickTiles(cfg: Config, s: Stream, before: nat, now: nat)
    requires Tiled(s, before) && before <= now
    ensures Tiled(AfterTick(cfg, s, now), now)
  {
    hide Strip, Words, BestBreak, EndsSentence, Tiles;
    var t := Trim(s.accumulated);
    match Decide(cfg, s, now)
    case CutAt(b) => EmitTiles(s, Trim(t[..b + 1]), before, now);
    case Everything => EmitAllTiles(s, before, now);
    case _ =>
  }

  lemma EmitAllTiles(s: Stream, before: nat, now: nat)
    requires Tiled(s, before) && before <= now
    ensures Tiled(EmitAll(s, now), now)
  {
    NothingHasNoWords();
    hide Strip, Tiles;
    EmitTiles(s, Trim(s.accumulated), before, now);
  }

  lemma NextTiles(cfg: Config, s: Stream, e: Event, before: nat)
    requires Tiled(s, before) && before <= e.now && 0 < e.now
    ensures Tiled(Next(cfg, s, e), e.now)
  {
    hide Strip, CheckBoundary, AfterTick, EmitAll, Discarded, Tiles;
    match e
    case Tick(now) => TickTiles(cfg, s, before, now);
    case Stop(now) => EmitAllTiles(s, before, now);
    case Delta(delta, now) =>
      if delta != "" && !Discarded(s.accumulated, delta) {
        var s1 := s.(accumulated := s.accumulated + delta, fed := s.fed + delta, lastDelta := now,
          start := if s.start == 0 then now else s.start);
        BoundaryTiles(cfg, s1, now);
      }
  }

  /** Over every run on a non-decreasing clock the segments tile the timeline,
      and whatever is accumulated has a delta time, so ticks look at it. */
  lemma {:induction false} RunTiles(cfg: Config, es: seq<Event>)
    requires Clocked(es)
    ensures Tiled(Run(cfg, es), if es == [] then 0 else es[|es| - 1].now)
    ensures Timely(Run(cfg, es))
  {
    hide Tiled, Next;
    if es == [] {
      InitTiled();
    } else {
      var before := es[..|es| - 1];
      RunTiles(cfg, before);
      NextTiles(cfg, Run(cfg, before), es[|es| - 1], if before == [] then 0 else before[|before| - 1].now);
    }
    TiledTimely(Run(cfg, es), if es == [] then 0 else es[|es| - 1].now);
  }

  lemma InitTiled()
    ensures Tiled(Init, 0)
  {
    NothingHasNoWords();
  }

  lemma TiledTimely(s: Stream, now: nat)
    requires Tiled(s, now)
    ensures Timely(s)
  {
  }

  // ------------------------------------------------------ the object

  /** `_findBestBreakPoint`: the loop from the end, -1 for none. */
  method FindBestBreakPoint(text: string) returns (best: int)
    ensures if BestBreak(text, |text|).None? then best == -1 else best == BestBreak(text, |text|).value
  {
    hide IsEnd, IsSpace;
    best := |text| - 2;
    assert |text| > 0 ==> !BreakAt(text, |text| - 1);
    while best >= 0
      invariant -1 <= best < |text| || text == ""
      invariant BestBreak(text, |text|) == if best < 0 then None else BestBreak(text, best + 1)
    {
      if IsEnd(text[best]) && Space(text[best + 1]) { return; }
      best := best - 1;
    }
    best := -1;
  }

  class StreamingTranscriber {
    const cfg: Config
    var accumulatedText: string
    var lastDeltaTime: nat
    var startTime: nat
    var lastEndTime: int
    var draining: bool
    var drainStartTime: nat
    var transcribed: seq<Segment>    // `transcribed` events
    ghost var fed: string

    ghost function View(): Stream reads this {
      Stream(accumulatedText, lastDeltaTime, startTime, lastEndTime, draining, drainStartTime, transcribed, fed)
    }

    constructor (config: Config)
      ensures cfg == config && View() == Init
    {
      cfg := config;
      accumulatedText, lastDeltaTime, startTime, lastEndTime := "", 0, 0, 0;
      draining, drainStartTime, transcribed, fed := false, 0, [], "";
    }

    /** `formatResult` and `emit('transcribed')` */
    method Transcribed(text: string, now: nat)
      modifies this`transcribed, this`lastEndTime
      ensures View() == Emit(old(View()), text, now)
    {
      var end := lastEndTime + (if startTime != 0 then now - startTime else 0);
      transcribed := transcribed + [Segment(text, lastEndTime, end)];
      lastEndTime := end;
    }

    method EmitSegment(now: nat)
      modifies this
      ensures View() == EmitAll(old(View()), now)
    {
      hide Strip;
      var trimmed := Trim(accumulatedText);
      if trimmed == "" { return; }
      if startTime == 0 { startTime := now; }
      Transcribed(trimmed, now);
      accumulatedText, startTime, draining := "", 0, false;
    }

    method CheckInternalBoundary(now: nat)
      modifies this
      ensures View() == CheckBoundary(cfg, old(View()), now)
    {
      hide Strip, Words, FirstBoundary, BoundaryAt;
      var trimmed := Trim(accumulatedText);
      if WordCount(trimmed) < cfg.minWords { return; }
      var b := FirstBoundary(trimmed, 0);
      if b == |trimmed| { return; }
      var text := Trim(trimmed[..b + 1]);
      if WordCount(text) < cfg.minWords { return; }
      Transcribed(text, now);
      accumulatedText, startTime, draining := " " + Trim(trimmed[b + 1..]), now, false;
    }

    method HandlePartial(delta: string, now: nat)
      modifies this
      ensures View() == AfterDelta(cfg, old(View()), delta, now)
    {
      hide Strip, CheckBoundary, IsOrphan;
      if delta != "" && Trim(accumulatedText) == "" && forall i :: 0 <= i < |delta| ==> IsOrphan(delta[i]) { return; }
      accumulatedText := accumulatedText + delta;
      assert delta == "" ==> accumulatedText == old(accumulatedText);
      if delta != "" {
        fed := fed + delta;
        lastDeltaTime := now;
        if startTime == 0 { startTime := now; }
        CheckInternalBoundary(now);
      }
    }

    method RunSegmentationTick(now: nat)
      modifies this
      ensures View() == AfterTick(cfg, old(View()), now)
    {
      hide Strip, Words, BestBreak, EmitAll, EndsSentence;
      var trimmed := Trim(accumulatedText);
      if trimmed == "" || lastDeltaTime == 0 { return; }
      var silence, words := now - lastDeltaTime, WordCount(trimmed);
      if words < cfg.minWords && silence < cfg.hardSilenceMs { return; }
      var shouldEmit := false;
      if words >= cfg.hardMaxWords {
        var b := FindBestBreakPoint(trimmed);
        if 0 < b < |trimmed| - 1 {
          if startTime == 0 { startTime := now; }
          Transcribed(Trim(trimmed[..b + 1]), now);
          accumulatedText, startTime := " " + Trim(trimmed[b + 1..]), now;
          return;
        }
        shouldEmit := true;
      }
      var ends := EndsSentence(trimmed);
      if !shouldEmit && words >= cfg.softMaxWords && ends { shouldEmit := true; }
      if !shouldEmit && silence > cfg.silenceMs && ends && words >= cfg.minWords { shouldEmit := true; }
      if !shouldEmit && silence > cfg.punctSilenceMs && ends && 2 * words >= cfg.softMaxWords { shouldEmit := true; }
      if !shouldEmit && words >= cfg.minWords && silence > cfg.hardSilenceMs {
        if !draining {
          draining, drainStartTime := true, now;
          return;
        }
        if lastDeltaTime > drainStartTime {
          draining := false;
          return;
        }
        if now - drainStartTime > DrainGraceMs { shouldEmit := true; }
      }
      if shouldEmit { EmitSegment(now); }
    }
  }
}
