/** TranslatorPython/translator/pipeline.py as a transition system, one event per
    stretch of code between two awaits, for one (session, channel), a constant
    set of target languages, and any interleaving of task completions and
    failures. The per-key code is in KeyStates; this module has the tables, the
    assembler they share, and the finals. */
module Pipelines {
  import opened Options
  import opened Text
  import opened KeyStates
  import A = Assembler

  type Lang = string

  datatype Config = Config(targets: set<Lang>, soft: int, tailLive: bool)

  /** Identity of a key-state object, or of a final task: target language and creation time. */
  datatype Id = Id(lang: Lang, born: nat)

  datatype Channel = Channel(segment: int, asm: A.Frozen)

  datatype Path = Reused | ReusedTail(tail: string) | Completed(remainder: string) | Retranslated

  datatype Phase =
    | Waiting
    | AskedRemainder(remainder: string)
    | AskedWhole
    | Published(out: string, path: Path)
    | Failed

  /** A `_finalize_target` task with the snapshot `handle_final` gave it. */
  datatype Final = Final(
    key: Option<Id>,
    piece: Piece,
    frozenSrc: seq<string>,
    consumed: string,
    phase: Phase,
    sent: seq<Piece>,          // history: what this task sent to the provider
    cached: Option<Answer>,    // history: the tail its key state had cached when it decided
    answers: set<Answer>)      // history: provider answers its output is made of

  datatype State = State(
    channel: Option<Channel>,     // _channels
    states: map<Lang, nat>,       // _states: the current key state per target
    heap: map<Id, Key>,           // every key-state object a task may still refer to
    finals: map<Id, Final>,
    epoch: nat)

  const Init := State(None, map[], map[], map[], 0)

  datatype Event =
    | Partial(segment: int, piece: Piece, pysbd: A.Segmentation, skip: set<Lang>)
    | Ask(id: Id, f: Freeze)
    | FreezeDone(id: Id, f: Freeze, dst: Option<string>)
    | TailDone(id: Id, t: Tail, dst: Option<string>, show: bool)
    | TailDropped(id: Id, t: Tail)
    | FinalArrives(piece: Piece)
    | Decide(j: Id)
    | FinalDone(j: Id, dst: Option<string>)

  // ------------------------------------------------------ partials

  predicate NewSegment(s: State, segment: int) {
    s.channel.None? || s.channel.value.segment != segment
  }

  function AsmBefore(s: State, segment: int): A.Frozen {
    if NewSegment(s, segment) then A.Empty else s.channel.value.asm
  }

  /** The table before creation of missing key states: a segment that never got
      its final is forgotten. */
  function Kept(cfg: Config, s: State, segment: int): map<Lang, nat> {
    if NewSegment(s, segment) && s.channel.Some? then map l | l in s.states && l !in cfg.targets :: s.states[l]
    else s.states
  }

  function Table(cfg: Config, s: State, segment: int): map<Lang, nat> {
    map l | l in cfg.targets :: if l in Kept(cfg, s, segment) then Kept(cfg, s, segment)[l] else s.epoch
  }

  function Ids(table: map<Lang, nat>): set<Id> {
    set l | l in table :: Id(l, table[l])
  }

  /** One target's share of `handle_partial`. */
  function Fed(cfg: Config, s: State, id: Id, e: Event, out: A.Outcome): Key
    requires e.Partial?
  {
    var k := if id in s.heap then s.heap[id] else NewKey;
    var k1 := if out.reset then ResetKey(k, s.epoch) else k;
    var k2 := FreezeSentences(k1, e.piece.lang, out.newlyFrozen, s.epoch);
    if cfg.tailLive && out.tail != "" && id.lang !in e.skip then SubmitTail(k2, Piece(e.piece.lang, out.tail)) else k2
  }

  function AfterPartial(cfg: Config, s: State, e: Event): State
    requires e.Partial? && A.Sound(e.pysbd, e.piece.text, A.Base(AsmBefore(s, e.segment), e.piece.text))
  {
    var (asm, out) := A.Updated(e.pysbd, cfg.soft, AsmBefore(s, e.segment), e.piece.text);
    var table := Table(cfg, s, e.segment);
    State(Some(Channel(e.segment, asm)), table,
          s.heap + map id | id in Ids(table) :: Fed(cfg, s, id, e, out),
          s.finals, s.epoch + 1)
  }

  // ------------------------------------------------------ tasks of a key state

  /** `self._states.get(key) is st` */
  predicate Current(s: State, id: Id) {
    id.lang in s.states && s.states[id.lang] == id.born
  }

  predicate KeyEvent(e: Event) { e.Ask? || e.FreezeDone? || e.TailDone? || e.TailDropped? }

  predicate KeyEnabled(s: State, e: Event)
    requires KeyEvent(e)
  {
    && e.id in s.heap
    && match e
       case Ask(id, f) => f in s.heap[id].queued
       case FreezeDone(id, f, _) => f in s.heap[id].asking
       case TailDone(id, t, _, _) => t in s.heap[id].tails
       case TailDropped(id, t) => t in s.heap[id].tails
       case _ => false
  }

  function AfterKeyEvent(s: State, e: Event): Key
    requires KeyEvent(e) && KeyEnabled(s, e)
  {
    match e
    case Ask(id, f) => AskFreeze(s.heap[id], f)
    case FreezeDone(id, f, dst) => FreezeAnswered(s.heap[id], f, dst, Current(s, id))
    case TailDone(id, t, dst, show) => TailAnswered(s.heap[id], t, dst, Current(s, id), show)
    case TailDropped(id, t) => s.heap[id].(tails := s.heap[id].tails - {t})
  }

  // ------------------------------------------------------ finals

  /** `_word_prefix_remainder` */
  function WordPrefixRemainder(finalText: string, consumed: string): Option<string> {
    var fw, cw := Words(Python, finalText), Words(Python, consumed);
    if cw <= fw then Some(Join(fw[|cw|..])) else None
  }

  function Remainder(fin: Final): Option<string> {
    if fin.key.Some? && fin.frozenSrc != [] && fin.consumed != "" then
      WordPrefixRemainder(fin.piece.text, fin.consumed) else None
  }

  function NewFinal(s: State, lang: Lang, piece: Piece): Final {
    var asm := if s.channel.Some? then s.channel.value.asm else A.Empty;
    var key := if lang in s.states then Some(Id(lang, s.states[lang])) else None;
    Final(key, piece, asm.sentences, asm.consumed, Waiting, [], None, {})
  }

  function AfterFinalArrives(cfg: Config, s: State, piece: Piece): State {
    var popped := map l | l in s.states && l in cfg.targets :: s.states[l];
    State(None, s.states - cfg.targets,
          map id | id in s.heap :: if id in Ids(popped) then s.heap[id].(finalized := true) else s.heap[id],
          s.finals + map j | j in (set l | l in cfg.targets :: Id(l, s.epoch)) :: NewFinal(s, j.lang, piece),
          s.epoch + 1)
  }

  /** A final waits for the pending freezes it may reuse, then chooses its path. */
  predicate DecideEnabled(s: State, j: Id) {
    && j in s.finals
    && s.finals[j].phase.Waiting?
    && (Remainder(s.finals[j]).Some? ==>
         s.finals[j].key.value in s.heap && Pending(s.heap[s.finals[j].key.value]) == {})
  }

  function CachedTail(heap: map<Id, Key>, key: Option<Id>): Option<Answer> {
    if key.Some? && key.value in heap then
      var k := heap[key.value];
      Some(Answer(Piece(k.lastTailLang, k.lastTailSrc), k.lastTailDst))
    else None
  }

  function Decided(s: State, j: Id): Final
    requires DecideEnabled(s, j)
  {
    var fin := s.finals[j].(cached := CachedTail(s.heap, s.finals[j].key));
    var whole := fin.(phase := AskedWhole, sent := fin.sent + [fin.piece]);
    if Remainder(fin).None? then whole else
    var k, r := s.heap[fin.key.value], Remainder(fin).value;
    if !FrozenComplete(k.frozenDst, |fin.frozenSrc|) then whole
    else if r == "" then fin.(phase := Published(Assemble(k.frozenDst, ""), Reused), answers := k.answers)
    else if r == Join(Words(Python, k.lastTailSrc)) && k.lastTailDst != "" then
      fin.(phase := Published(Assemble(k.frozenDst, k.lastTailDst), ReusedTail(k.lastTailSrc)), answers := k.answers)
    else fin.(phase := AskedRemainder(r), sent := fin.sent + [Piece(fin.piece.lang, r)])
  }

  predicate FinalDoneEnabled(s: State, j: Id) {
    && j in s.finals
    && (s.finals[j].phase.AskedWhole? ||
         (s.finals[j].phase.AskedRemainder? && s.finals[j].key.Some? && s.finals[j].key.value in s.heap))
  }

  function FinalAnswered(s: State, j: Id, dst: Option<string>): Final
    requires FinalDoneEnabled(s, j)
  {
    var fin := s.finals[j];
    if dst.None? then fin.(phase := Failed)
    else match fin.phase
      case AskedRemainder(r) =>
        var k := s.heap[fin.key.value];
        fin.(phase := Published(Assemble(k.frozenDst, dst.value), Completed(r)),
             answers := k.answers + {Answer(Piece(fin.piece.lang, r), dst.value)})
      case _ => fin.(phase := Published(dst.value, Retranslated), answers := {Answer(fin.piece, dst.value)})
  }

  // ------------------------------------------------------ the system

  predicate Enabled(s: State, e: Event) {
    match e
    case Partial(segment, piece, pysbd, _) => A.Sound(pysbd, piece.text, A.Base(AsmBefore(s, segment), piece.text))
    case FinalArrives(_) => true
    case Decide(j) => DecideEnabled(s, j)
    case FinalDone(j, _) => FinalDoneEnabled(s, j)
    case _ => KeyEnabled(s, e)
  }

  function Next(cfg: Config, s: State, e: Event): State
    requires Enabled(s, e)
  {
    match e
    case Partial(_, _, _, _) => AfterPartial(cfg, s, e)
    case FinalArrives(piece) => AfterFinalArrives(cfg, s, piece)
    case Decide(j) => s.(finals := s.finals[j := Decided(s, j)])
    case FinalDone(j, dst) => s.(finals := s.finals[j := FinalAnswered(s, j, dst)])
    case _ => s.(heap := s.heap[e.id := AfterKeyEvent(s, e)])
  }

  /** The state after a run of events, None when some event was not enabled. */
  function Exec(cfg: Config, es: seq<Event>): Option<State> {
    if es == [] then Some(Init) else
    var before := Exec(cfg, es[..|es| - 1]);
    var e := es[|es| - 1];
    if before.Some? && Enabled(before.value, e) then Some(Next(cfg, before.value, e)) else None
  }

  // ------------------------------------------------------ what a final promises

  /** `out` joins the provider's answers to the frozen sentences, in order, and
      at most one answer for what follows them; the source texts of these
      answers partition `text`, whitespace aside. */
  ghost predicate Pieces(answers: set<Answer>, frozenSrc: seq<string>, text: string, out: string, parts: seq<Answer>,
    last: seq<Answer>) {
    && |parts| == |frozenSrc| && |last| <= 1
    && (forall a :: a in parts || a in last ==> a in answers)
    && (forall i :: 0 <= i < |parts| ==> parts[i].piece.text == frozenSrc[i])
    && EraseAll(Python, frozenSrc + (if last == [] then [] else [last[0].piece.text])) == Erase(Python, text)
    && out == Join(DstsOf(parts) + (if last == [] then [] else Optional(last[0].dst)))
  }

  /** The text is the provider's translation of the whole final, or piecewise. */
  ghost predicate Faithful(answers: set<Answer>, frozenSrc: seq<string>, piece: Piece, out: string) {
    || Answer(piece, out) in answers
    || exists parts: seq<Answer>, last: seq<Answer> :: Pieces(answers, frozenSrc, piece.text, out, parts, last)
  }

  // ------------------------------------------------------ invariant

  ghost predicate Linked(cfg: Config, s: State) {
    && (s.channel.None? ==> s.states == map[])
    && (s.channel.Some? ==> A.Spells(s.channel.value.asm) && s.states.Keys == cfg.targets)
    && (forall l :: l in s.states ==>
         && Id(l, s.states[l]) in s.heap
         && !s.heap[Id(l, s.states[l])].finalized
         && s.channel.Some? && TextsOf(s.heap[Id(l, s.states[l])].src) == s.channel.value.asm.sentences)
  }

  ghost predicate Dated(s: State) {
    && (forall id :: id in s.heap ==> id.born < s.epoch)
    && (forall j :: j in s.finals ==> j.born < s.epoch)
  }

  ghost predicate KeysOk(cfg: Config, s: State) {
    forall id :: id in s.heap ==> KeyOk(s.heap[id], cfg.tailLive) && Before(s.heap[id], s.epoch)
  }

  /** What a final task relies on: its key state is frozen in place. */
  ghost predicate Snapshot(heap: map<Id, Key>, fin: Final) {
    fin.key.Some? ==>
      && fin.key.value in heap
      && heap[fin.key.value].finalized
      && TextsOf(heap[fin.key.value].src) == fin.frozenSrc
      && A.Spells(A.Frozen(fin.frozenSrc, fin.consumed))
  }

  /** While the remainder is being translated, everything before it is in place. */
  ghost predicate RemainderOk(heap: map<Id, Key>, fin: Final) {
    fin.phase.AskedRemainder? ==>
      && fin.key.Some? && fin.key.value in heap
      && Pending(heap[fin.key.value]) == {}
      && FrozenComplete(heap[fin.key.value].frozenDst, |fin.frozenSrc|)
      && Remainder(fin) == Some(fin.phase.remainder)
      && fin.phase.remainder != ""
      && fin.sent == [Piece(fin.piece.lang, fin.phase.remainder)]
  }

  /** A final that did not retranslate everything is made of its key state's
      translations, all there and settled. */
  ghost predicate Reassembled(heap: map<Id, Key>, fin: Final) {
    fin.phase.Published? && !fin.phase.path.Retranslated? ==>
      && fin.key.Some? && fin.key.value in heap
      && Pending(heap[fin.key.value]) == {}
      && FrozenComplete(heap[fin.key.value].frozenDst, |heap[fin.key.value].src|)
      && exists tail: string :: fin.phase.out == Assemble(heap[fin.key.value].frozenDst, tail)
  }

  /** The translations the final was made of are in step with its sentences. */
  ghost predicate ReadsInStep(heap: map<Id, Key>, fin: Final) {
    fin.phase.Published? && !fin.phase.path.Retranslated? ==>
      && fin.key.Some? && fin.key.value in heap
      && InStep(heap[fin.key.value].src, heap[fin.key.value].frozenDst, fin.answers)
  }

  /** No reset overtook a task of the key state. */
  ghost predicate Undisturbed(heap: map<Id, Key>, fin: Final) {
    fin.key.Some? ==> fin.key.value in heap && !heap[fin.key.value].dirty
  }

  /** Non-whitespace source characters sent to the provider for a key state. */
  ghost function KeyCost(heap: map<Id, Key>, fin: Final): nat {
    if fin.key.Some? && fin.key.value in heap && |heap[fin.key.value].src| == |heap[fin.key.value].asked|
    then SentChars(heap[fin.key.value].src, heap[fin.key.value].asked) else 0
  }

  /** Non-whitespace source characters the final itself sent. */
  ghost function SentLength(fin: Final): nat { |EraseAll(Python, TextsOf(fin.sent))| }

  ghost predicate Once(asked: seq<nat>) { forall i :: 0 <= i < |asked| ==> asked[i] == 1 }

  /** The provider was asked once per frozen sentence, and on the reuse paths the
      visible characters sent are those of the final text. */
  ghost predicate Linear(heap: map<Id, Key>, fin: Final) {
    fin.phase.Published? && !fin.phase.path.Retranslated? ==>
      && fin.key.Some? && fin.key.value in heap
      && Once(heap[fin.key.value].asked)
      && Pending(heap[fin.key.value]) == {}
      && match fin.phase.path
         case Completed(r) => |fin.sent| == 1 &&
           KeyCost(heap, fin) + SentLength(fin) == |Erase(Python, fin.piece.text)|
         case Reused => fin.sent == [] && KeyCost(heap, fin) == |Erase(Python, fin.piece.text)|
         case ReusedTail(tail) => fin.sent == [] &&
           KeyCost(heap, fin) + |Erase(Python, tail)| == |Erase(Python, fin.piece.text)|
         case Retranslated => true
  }

  ghost predicate Counted(fin: Final) {
    |fin.sent| == if fin.phase.Waiting? ||
      (fin.phase.Published? && (fin.phase.path.Reused? || fin.phase.path.ReusedTail?)) then 0 else 1
  }

  /** Every freeze of the key state succeeded. */
  ghost predicate AllFrozen(heap: map<Id, Key>, fin: Final) {
    fin.key.Some? && fin.key.value in heap && heap[fin.key.value].failed == {}
  }

  /** The final begins with the consumed text, word for word. */
  predicate Starts(fin: Final) {
    && fin.key.Some? && fin.frozenSrc != [] && fin.consumed != ""
    && Words(Python, fin.consumed) <= Words(Python, fin.piece.text)
  }

  /** The words of the final text after the consumed ones. */
  function Missing(fin: Final): seq<string>
    requires Starts(fin)
  {
    Words(Python, fin.piece.text)[|Words(Python, fin.consumed)|..]
  }

  /** All frozen sentences of a final that begins with them have a translation. */
  ghost predicate Reusable(heap: map<Id, Key>, fin: Final) {
    Starts(fin) && fin.key.value in heap && FrozenComplete(heap[fin.key.value].frozenDst, |fin.frozenSrc|)
  }

  /** The cached tail is what is missing, word for word, and has a translation. */
  predicate TailFits(fin: Final)
    requires Starts(fin)
  {
    fin.cached.Some? && fin.cached.value.dst != "" && Missing(fin) == Words(Python, fin.cached.value.piece.text)
  }

  /** A final that begins with frozen sentences waits for them, and lacks one only
      when a freeze failed. */
  ghost predicate Waited(heap: map<Id, Key>, fin: Final) {
    !fin.phase.Waiting? && Starts(fin) ==>
      && fin.key.value in heap && Pending(heap[fin.key.value]) == {}
      && (AllFrozen(heap, fin) ==> Reusable(heap, fin))
  }

  /** Nothing frozen is sent again: of a reusable final only the missing words are
      sent, and not even these when they are the cached tail. */
  ghost predicate SendsMissing(heap: map<Id, Key>, fin: Final) {
    !fin.phase.Waiting? ==>
      if !Reusable(heap, fin) then fin.sent == [fin.piece]
      else if Missing(fin) == [] || TailFits(fin) then fin.sent == [] && fin.phase.Published?
      else |fin.sent| == 1 && fin.sent[0].lang == fin.piece.lang && Words(Python, fin.sent[0].text) == Missing(fin)
  }

  /** A reusable final is its key state's translations, then the cached tail's or
      the answer to what was sent; any other final is the answer to what was sent. */
  ghost predicate PublishesReuse(heap: map<Id, Key>, fin: Final) {
    && (fin.phase.AskedWhole? ==> !Reusable(heap, fin))
    && (fin.phase.Published? ==>
         if !Reusable(heap, fin) then fin.phase.path.Retranslated? && fin.answers == {Answer(fin.piece, fin.phase.out)}
         else
           var frozen := heap[fin.key.value].frozenDst;
           if Missing(fin) == [] then fin.phase == Published(Assemble(frozen, ""), Reused)
           else if TailFits(fin) then
             fin.phase == Published(Assemble(frozen, fin.cached.value.dst), ReusedTail(fin.cached.value.piece.text))
           else
             && fin.phase.path.Completed?
             && exists a :: a in fin.answers && [a.piece] == fin.sent && fin.phase.out == Assemble(frozen, a.dst))
  }

  ghost predicate Thrifty(heap: map<Id, Key>, fin: Final) {
    Waited(heap, fin) && SendsMissing(heap, fin) && PublishesReuse(heap, fin)
  }

  /** What a final is made of, and what it cost. */
  ghost predicate FinalMade(heap: map<Id, Key>, fin: Final) {
    && Snapshot(heap, fin)
    && RemainderOk(heap, fin)
    && Counted(fin)
    && Linear(heap, fin)
    && Reassembled(heap, fin)
    && (Undisturbed(heap, fin) ==> ReadsInStep(heap, fin))
    && (ReadsInStep(heap, fin) && fin.phase.Published? ==>
         Faithful(fin.answers, fin.frozenSrc, fin.piece, fin.phase.out))
  }

  ghost predicate FinalOk(heap: map<Id, Key>, fin: Final) { FinalMade(heap, fin) && Thrifty(heap, fin) }

  ghost predicate FinalsOk(s: State) {
    forall j :: j in s.finals ==> FinalOk(s.heap, s.finals[j])
  }

  ghost predicate Inv(cfg: Config, s: State) {
    Linked(cfg, s) && Dated(s) && KeysOk(cfg, s) && FinalsOk(s)
  }

  // ------------------------------------------------------ words

  /** A word-prefix remainder completes the consumed text to the final text. */
  lemma RemainderCompletes(finalText: string, consumed: string)
    requires WordPrefixRemainder(finalText, consumed).Some?
    ensures Erase(Python, finalText) ==
      Erase(Python, consumed) + Erase(Python, WordPrefixRemainder(finalText, consumed).value)
  {
    hide Erase, Words, Join;
    var fw, cw := Words(Python, finalText), Words(Python, consumed);
    EraseWords(Python, finalText);
    EraseWords(Python, consumed);
    EraseJoinedWords(Python, finalText, |cw|);
    assert fw == cw + fw[|cw|..];
    ConcatSum(cw, fw[|cw|..]);
  }

  lemma SameWordsSameText(a: string, b: string)
    requires a == Join(Words(Python, b))
    ensures Erase(Python, a) == Erase(Python, b)
  {
    hide Erase, Words, Join;
    EraseJoinedWords(Python, b, 0);
    EraseWords(Python, b);
    assert Words(Python, b)[0..] == Words(Python, b);
  }

  /** The remainder in words: it exists when the final begins with the consumed
      text, and is the missing words, so that it equals a text's normalized form
      exactly when it has the same words. */
  lemma RemainderIsMissing(fin: Final, tail: string)
    ensures Remainder(fin).Some? <==> Starts(fin)
    ensures Starts(fin) ==>
      && Words(Python, Remainder(fin).value) == Missing(fin)
      && (Remainder(fin).value == "" <==> Missing(fin) == [])
      && (Remainder(fin).value == Join(Words(Python, tail)) <==> Missing(fin) == Words(Python, tail))
  {
    hide Words, Join;
    if Starts(fin) {
      EraseWords(Python, fin.piece.text);
      EraseWords(Python, tail);
      assert forall w :: w in Missing(fin) ==> w in Words(Python, fin.piece.text);
      WordsOfJoin(Python, Missing(fin));
      WordsOfJoin(Python, Words(Python, tail));
      WordsOfJoin(Python, []);
      assert Join([]) == "" by { JoinNothing(); }
    }
  }

  lemma JoinNothing()
    ensures Join([]) == ""
  {
  }

  // ------------------------------------------------------ reuse is faithful

  /** The frozen sentences, then a text spelling the remainder, spell the final text. */
  lemma SpellFinal(frozenSrc: seq<string>, consumed: string, text: string, r: string, tail: seq<string>)
    requires A.Spells(A.Frozen(frozenSrc, consumed))
    requires WordPrefixRemainder(text, consumed) == Some(r)
    requires |tail| <= 1 && Erase(Python, r) == if tail == [] then "" else Erase(Python, tail[0])
    ensures EraseAll(Python, frozenSrc + tail) == Erase(Python, text)
  {
    hide Erase, WordPrefixRemainder, EraseAll;
    RemainderCompletes(text, consumed);
    EraseAllSum(Python, frozenSrc, tail);
    if tail == [] {
      assert frozenSrc + tail == frozenSrc;
    } else {
      assert tail == [tail[0]];
      EraseAllOne(Python, tail[0]);
    }
  }

  /** Reassembling a complete key state, with `last` for the remainder, is piecewise translation. */
  lemma ReuseIsFaithful(k: Key, fin: Final, r: string, last: seq<Answer>, answers: set<Answer>)
    requires InStep(k.src, k.frozenDst, answers)
    requires TextsOf(k.src) == fin.frozenSrc && A.Spells(A.Frozen(fin.frozenSrc, fin.consumed))
    requires FrozenComplete(k.frozenDst, |fin.frozenSrc|)
    requires WordPrefixRemainder(fin.piece.text, fin.consumed) == Some(r)
    requires |last| <= 1 && forall a :: a in last ==> a in answers
    requires Erase(Python, r) == if last == [] then "" else Erase(Python, last[0].piece.text)
    ensures Faithful(answers, fin.frozenSrc, fin.piece, Assemble(k.frozenDst, if last == [] then "" else last[0].dst))
  {
    hide Join, Erase, WordPrefixRemainder, EraseAll, A.Spells, FrozenComplete, InStep, Contiguous;
    var parts := InStepTranslates(k.src, k.frozenDst, answers);
    SpellFinal(fin.frozenSrc, fin.consumed, fin.piece.text, r, if last == [] then [] else [last[0].piece.text]);
    assert Pieces(answers, fin.frozenSrc, fin.piece.text, Assemble(k.frozenDst, if last == [] then "" else last[0].dst),
      parts, last);
  }

  /** With nothing pending, every sentence was asked exactly once, and the
      characters sent are those of the consumed text. */
  lemma AllAskedOnce(k: Key, consumed: string, tailLive: bool)
    requires KeyOk(k, tailLive) && Pending(k) == {}
    requires A.Spells(A.Frozen(TextsOf(k.src), consumed))
    ensures Once(k.asked) && SentChars(k.src, k.asked) == |Erase(Python, consumed)|
  {
    hide Erase, EraseAll, NoFlicker, SentChars;
    assert k.queued == {};
    assert forall i :: !IsQueued(k, i);
    SentCharsOnce(k.src, k.asked);
  }

  // ------------------------------------------------------ finals are preserved

  /** What finished key states keep under their remaining tasks. */
  ghost predicate Settled(k: Key, n: Key) {
    && n.src == k.src && n.dirty == k.dirty && n.finalized == k.finalized && k.failed <= n.failed
    && (Pending(k) == {} ==> Pending(n) == {} && n.frozenDst == k.frozenDst && n.asked == k.asked)
  }

  lemma KeyEventSettled(s: State, e: Event)
    requires KeyEvent(e) && KeyEnabled(s, e)
    ensures Settled(s.heap[e.id], AfterKeyEvent(s, e))
  {
    hide Assemble;
  }

  lemma KeyEventOk(cfg: Config, s: State, e: Event)
    requires KeyEvent(e) && KeyEnabled(s, e) && KeyOk(s.heap[e.id], cfg.tailLive) && Before(s.heap[e.id], s.epoch)
    ensures KeyOk(AfterKeyEvent(s, e), cfg.tailLive) && Before(AfterKeyEvent(s, e), s.epoch)
  {
    hide KeyOk, Assemble;
    match e
    case Ask(id, f) => AskFreezeOk(s.heap[id], f, cfg.tailLive);
    case FreezeDone(id, f, dst) => FreezeAnsweredOk(s.heap[id], f, dst, Current(s, id), cfg.tailLive);
    case TailDone(id, t, dst, show) => TailAnsweredOk(s.heap[id], t, dst, Current(s, id), show, cfg.tailLive);
    case TailDropped(id, t) => TailDroppedOk(s.heap[id], t, cfg.tailLive);
  }

  lemma FinalStays(heap: map<Id, Key>, after: map<Id, Key>, fin: Final)
    requires FinalOk(heap, fin)
    requires fin.key.Some? ==> fin.key.value in after && Settled(heap[fin.key.value], after[fin.key.value])
    ensures FinalOk(after, fin)
  {
    hide Faithful, Once, SentChars, Remainder, FrozenComplete, A.Spells, Erase, Thrifty, SentLength;
    ThriftyStays(heap, after, fin);
  }

  lemma ThriftyStays(heap: map<Id, Key>, after: map<Id, Key>, fin: Final)
    requires Thrifty(heap, fin)
    requires fin.key.Some? ==>
      && fin.key.value in heap && fin.key.value in after
      && Settled(heap[fin.key.value], after[fin.key.value])
    ensures Thrifty(after, fin)
  {
    hide Words, Assemble;
  }

  lemma KeyEventKeepsInv(cfg: Config, s: State, e: Event)
    requires Inv(cfg, s) && KeyEvent(e) && KeyEnabled(s, e)
    ensures Inv(cfg, Next(cfg, s, e))
  {
    hide KeyOk, FinalOk, AfterKeyEvent, A.Spells;
    KeyEventSettled(s, e);
    KeyEventOk(cfg, s, e);
    var n := Next(cfg, s, e);
    forall j | j in n.finals ensures FinalOk(n.heap, n.finals[j]) {
      FinalHasKey(s.heap, s.finals[j]);
      FinalStays(s.heap, n.heap, s.finals[j]);
    }
  }

  lemma FinalHasKey(heap: map<Id, Key>, fin: Final)
    requires FinalOk(heap, fin)
    ensures fin.key.Some? ==> fin.key.value in heap && heap[fin.key.value].finalized
  {
  }

  // ------------------------------------------------------ finals deciding

  /** A decision settles what is sent by the words alone. */
  lemma DecidedIsThrifty(cfg: Config, s: State, j: Id)
    requires Inv(cfg, s) && DecideEnabled(s, j)
    ensures Thrifty(s.heap, Decided(s, j))
  {
    hide KeyOk, Linked, Dated, Assemble, FinalMade, Remainder, Missing, FrozenComplete, Words, Join;
    var fin := s.finals[j];
    assert FinalOk(s.heap, fin);
    var n := Decided(s, j);
    var k := if fin.key.Some? && fin.key.value in s.heap then s.heap[fin.key.value] else NewKey;
    WaitingSentNothing(s.heap, fin);
    SameWords(fin, n);
    SameWords(fin, fin.(cached := CachedTail(s.heap, fin.key)));
    RemainderIsMissing(n, k.lastTailSrc);
    if Starts(n) { WaitedFor(cfg, s, j); }
    assert fin.sent + [fin.piece] == [fin.piece];
  }

  lemma WaitingSentNothing(heap: map<Id, Key>, fin: Final)
    requires FinalMade(heap, fin)
    ensures fin.phase.Waiting? ==> fin.sent == []
    ensures RemainderOk(heap, fin)
  {
  }

  lemma SameWords(fin: Final, n: Final)
    requires n.key == fin.key && n.frozenSrc == fin.frozenSrc && n.consumed == fin.consumed && n.piece == fin.piece
    ensures Remainder(n) == Remainder(fin) && (Starts(n) <==> Starts(fin))
  {
  }

  lemma WaitedFor(cfg: Config, s: State, j: Id)
    ensures Inv(cfg, s) && DecideEnabled(s, j) && Remainder(s.finals[j]).Some? && AllFrozen(s.heap, s.finals[j]) ==>
              FrozenComplete(s.heap[s.finals[j].key.value].frozenDst, |s.finals[j].frozenSrc|)
  {
    hide KeyOk, Linked, Dated, Linear, Reassembled, ReadsInStep, Faithful, Thrifty, WordPrefixRemainder;
    hide FrozenComplete, A.Spells, TextsOf;
    if Inv(cfg, s) && DecideEnabled(s, j) && Remainder(s.finals[j]).Some? && AllFrozen(s.heap, s.finals[j]) {
      var fin := s.finals[j];
      assert FinalOk(s.heap, fin);
      assert KeyOk(s.heap[fin.key.value], cfg.tailLive);
      AllFrozenIsComplete(s.heap[fin.key.value], cfg.tailLive);
      SnapshotLength(s.heap, fin);
    }
  }

  lemma SnapshotLength(heap: map<Id, Key>, fin: Final)
    requires Snapshot(heap, fin) && fin.key.Some?
    ensures fin.key.value in heap && |heap[fin.key.value].src| == |fin.frozenSrc|
  {
    hide A.Spells;
    assert |TextsOf(heap[fin.key.value].src)| == |heap[fin.key.value].src|;
  }

  lemma AnsweredIsThrifty(s: State, j: Id, dst: Option<string>)
    requires FinalDoneEnabled(s, j) && Thrifty(s.heap, s.finals[j]) && RemainderOk(s.heap, s.finals[j])
    ensures Thrifty(s.heap, FinalAnswered(s, j, dst))
  {
    hide Assemble, Words, Remainder, FrozenComplete;
    var fin := s.finals[j];
    if dst.Some? && fin.phase.AskedRemainder? {
      var a := Answer(Piece(fin.piece.lang, fin.phase.remainder), dst.value);
      assert a in FinalAnswered(s, j, dst).answers && [a.piece] == fin.sent;
      RemainderIsMissing(fin, "");
    }
  }

  /** Every path a final can choose leaves it in order. */
  lemma DecidedOk(cfg: Config, s: State, j: Id)
    requires Inv(cfg, s) && DecideEnabled(s, j)
    ensures FinalOk(s.heap, Decided(s, j))
  {
    hide Inv, FinalMade, Thrifty, DecideEnabled, Decided;
    DecidedIsMade(cfg, s, j);
    DecidedIsThrifty(cfg, s, j);
  }

  lemma DecidedIsMade(cfg: Config, s: State, j: Id)
    requires Inv(cfg, s) && DecideEnabled(s, j)
    ensures FinalMade(s.heap, Decided(s, j))
  {
    hide Thrifty, InStep, KeyOk, Faithful, Linked, Dated, WordPrefixRemainder, Words, Erase, Assemble, A.Spells;
    hide Join, Once, KeyCost, SentLength, CachedTail, TextsOf;
    var fin := s.finals[j];
    assert FinalOk(s.heap, fin);
    if Remainder(fin).Some? {
      var k, r := s.heap[fin.key.value], Remainder(fin).value;
      assert KeyOk(k, cfg.tailLive);
      if FrozenComplete(k.frozenDst, |fin.frozenSrc|) {
        ReuseCosts(k, fin, cfg.tailLive, r);
        KeyCostIs(s.heap, Decided(s, j), k);
        if r == Join(Words(Python, k.lastTailSrc)) { SameWordsSameText(r, k.lastTailSrc); }
        if !k.dirty { CleanIsInStep(k, cfg.tailLive); }
        if InStep(k.src, k.frozenDst, k.answers) && r == "" {
          NothingRemains(k, fin, cfg.tailLive);
        } else if InStep(k.src, k.frozenDst, k.answers) && r == Join(Words(Python, k.lastTailSrc)) &&
          k.lastTailDst != "" {
          TailRemains(k, fin, cfg.tailLive, r);
        }
      }
    }
  }

  lemma AllFrozenIsComplete(k: Key, tailLive: bool)
    requires KeyOk(k, tailLive) && Pending(k) == {} && k.failed == {}
    ensures FrozenComplete(k.frozenDst, |k.src|)
  {
    hide Covered;
    SuccessIsComplete(k);
  }

  lemma KeyCostIs(heap: map<Id, Key>, fin: Final, k: Key)
    requires fin.key.Some? && fin.key.value in heap && heap[fin.key.value] == k && |k.src| == |k.asked|
    ensures KeyCost(heap, fin) == SentChars(k.src, k.asked)
  {
  }

  lemma ReuseCosts(k: Key, fin: Final, tailLive: bool, r: string)
    requires KeyOk(k, tailLive) && Pending(k) == {}
    requires TextsOf(k.src) == fin.frozenSrc && A.Spells(A.Frozen(fin.frozenSrc, fin.consumed))
    requires WordPrefixRemainder(fin.piece.text, fin.consumed) == Some(r)
    ensures Once(k.asked) && |k.src| == |k.asked|
    ensures SentChars(k.src, k.asked) + |Erase(Python, r)| == |Erase(Python, fin.piece.text)|
    ensures r == "" ==> |Erase(Python, r)| == 0
  {
    hide WordPrefixRemainder, Erase, SentChars, NoFlicker, TasksOk, FrozenOk, AskedOk, A.Spells, Once;
    AllAskedOnce(k, fin.consumed, tailLive);
    RemainderCompletes(fin.piece.text, fin.consumed);
    EraseBlank(Python, "");
  }

  lemma NothingRemains(k: Key, fin: Final, tailLive: bool)
    requires KeyOk(k, tailLive) && InStep(k.src, k.frozenDst, k.answers)
    requires TextsOf(k.src) == fin.frozenSrc && A.Spells(A.Frozen(fin.frozenSrc, fin.consumed))
    requires FrozenComplete(k.frozenDst, |fin.frozenSrc|)
    requires WordPrefixRemainder(fin.piece.text, fin.consumed) == Some("")
    ensures Faithful(k.answers, fin.frozenSrc, fin.piece, Assemble(k.frozenDst, ""))
  {
    hide WordPrefixRemainder, Erase, NoFlicker, TasksOk, FrozenOk, AskedOk, A.Spells, Faithful, Assemble,
      FrozenComplete;
    EraseBlank(Python, "");
    ReuseIsFaithful(k, fin, "", [], k.answers);
  }

  lemma TailRemains(k: Key, fin: Final, tailLive: bool, r: string)
    requires KeyOk(k, tailLive) && InStep(k.src, k.frozenDst, k.answers) && k.lastTailDst != "" &&
      r == Join(Words(Python, k.lastTailSrc))
    requires TextsOf(k.src) == fin.frozenSrc && A.Spells(A.Frozen(fin.frozenSrc, fin.consumed))
    requires FrozenComplete(k.frozenDst, |fin.frozenSrc|)
    requires WordPrefixRemainder(fin.piece.text, fin.consumed) == Some(r)
    ensures Faithful(k.answers, fin.frozenSrc, fin.piece, Assemble(k.frozenDst, k.lastTailDst))
  {
    hide WordPrefixRemainder, Erase, NoFlicker, TasksOk, FrozenOk, AskedOk, A.Spells, Faithful, Assemble,
      FrozenComplete, Join, Words;
    SameWordsSameText(r, k.lastTailSrc);
    ReuseIsFaithful(k, fin, r, [Answer(Piece(k.lastTailLang, k.lastTailSrc), k.lastTailDst)], k.answers);
  }

  lemma FinalAnsweredOk(cfg: Config, s: State, j: Id, dst: Option<string>)
    requires Inv(cfg, s) && FinalDoneEnabled(s, j)
    ensures FinalOk(s.heap, FinalAnswered(s, j, dst))
  {
    hide FinalMade, Thrifty, FinalAnswered, KeysOk, Linked, Dated;
    assert FinalOk(s.heap, s.finals[j]);
    AnsweredIsMade(cfg, s, j, dst);
    WaitingSentNothing(s.heap, s.finals[j]);
    AnsweredIsThrifty(s, j, dst);
  }

  lemma AnsweredIsMade(cfg: Config, s: State, j: Id, dst: Option<string>)
    requires Inv(cfg, s) && FinalDoneEnabled(s, j)
    ensures FinalMade(s.heap, FinalAnswered(s, j, dst))
  {
    hide Thrifty, KeyOk, Linked, Dated, WordPrefixRemainder, Words, Erase, Assemble, A.Spells, Join, Once, KeyCost;
    hide SentLength;
    var fin := s.finals[j];
    assert FinalOk(s.heap, fin);
    if dst.Some? && fin.phase.AskedRemainder? {
      var k, r := s.heap[fin.key.value], fin.phase.remainder;
      assert KeyOk(k, cfg.tailLive);
      ReuseCosts(k, fin, cfg.tailLive, r);
      KeyCostIs(s.heap, FinalAnswered(s, j, dst), k);
      SentOne(FinalAnswered(s, j, dst));
      if !k.dirty { CleanIsInStep(k, cfg.tailLive); }
      if InStep(k.src, k.frozenDst, k.answers + {Answer(Piece(fin.piece.lang, r), dst.value)}) {
        RemainderRemains(k, fin, r, dst.value);
      }
    }
  }

  lemma SentOne(fin: Final)
    ensures |fin.sent| == 1 ==> SentLength(fin) == |Erase(Python, fin.sent[0].text)|
  {
    hide Erase, EraseAll;
    if |fin.sent| == 1 {
      assert TextsOf(fin.sent) == [fin.sent[0].text];
      EraseAllOne(Python, fin.sent[0].text);
    }
  }

  lemma RemainderRemains(k: Key, fin: Final, r: string, dst: string)
    requires InStep(k.src, k.frozenDst, k.answers + {Answer(Piece(fin.piece.lang, r), dst)})
    requires TextsOf(k.src) == fin.frozenSrc && A.Spells(A.Frozen(fin.frozenSrc, fin.consumed))
    requires FrozenComplete(k.frozenDst, |fin.frozenSrc|)
    requires WordPrefixRemainder(fin.piece.text, fin.consumed) == Some(r)
    ensures var a := Answer(Piece(fin.piece.lang, r), dst);
            Faithful(k.answers + {a}, fin.frozenSrc, fin.piece, Assemble(k.frozenDst, dst))
  {
    hide WordPrefixRemainder, Erase, NoFlicker, TasksOk, FrozenOk, AskedOk, A.Spells, Faithful, Assemble,
      FrozenComplete;
    var a := Answer(Piece(fin.piece.lang, r), dst);
    ReuseIsFaithful(k, fin, r, [a], k.answers + {a});
  }

  lemma FinalEventKeepsInv(cfg: Config, s: State, e: Event)
    requires Inv(cfg, s) && (e.Decide? || e.FinalDone?) && Enabled(s, e)
    ensures Inv(cfg, Next(cfg, s, e))
  {
    hide KeyOk, FinalOk, A.Spells, Decided, FinalAnswered;
    if e.Decide? { DecidedOk(cfg, s, e.j); } else { FinalAnsweredOk(cfg, s, e.j, e.dst); }
  }

  // ------------------------------------------------------ finals arriving

  lemma FinalArrivesEmptiesTable(cfg: Config, s: State, piece: Piece)
    requires Linked(cfg, s) && Dated(s)
    ensures Linked(cfg, AfterFinalArrives(cfg, s, piece)) && Dated(AfterFinalArrives(cfg, s, piece))
  {
    hide A.Spells, TextsOf;
    var n := AfterFinalArrives(cfg, s, piece);
    assert n.states == map[] by {
      assert s.channel.Some? ==> s.states.Keys == cfg.targets;
    }
  }

  lemma FinalArrivesKeepsInv(cfg: Config, s: State, piece: Piece)
    requires Inv(cfg, s)
    ensures Inv(cfg, AfterFinalArrives(cfg, s, piece))
  {
    hide KeyOk, FinalOk, Linked, Dated, NewFinal;
    var n := AfterFinalArrives(cfg, s, piece);
    FinalArrivesEmptiesTable(cfg, s, piece);
    forall id | id in n.heap ensures KeyOk(n.heap[id], cfg.tailLive) && Before(n.heap[id], n.epoch) {
      FinalizedKeyOk(s.heap[id], cfg.tailLive);
    }
    forall j | j in n.finals ensures FinalOk(n.heap, n.finals[j]) {
      if j !in (set l | l in cfg.targets :: Id(l, s.epoch)) {
        FinalHasKey(s.heap, s.finals[j]);
        FinalStays(s.heap, n.heap, s.finals[j]);
      } else {
        NewFinalOk(cfg, s, n, j.lang, piece);
      }
    }
  }

  lemma FinalizedKeyOk(k: Key, tailLive: bool)
    requires KeyOk(k, tailLive)
    ensures KeyOk(k.(finalized := true), tailLive)
    ensures forall epoch: nat :: Before(k, epoch) ==> Before(k.(finalized := true), epoch)
  {
    hide Covered;
    var n := k.(finalized := true);
    SameTasksCovered(k, n);
    assert forall i :: IsQueued(n, i) <==> IsQueued(k, i);
  }

  lemma NewFinalOk(cfg: Config, s: State, n: State, lang: Lang, piece: Piece)
    requires Inv(cfg, s) && n == AfterFinalArrives(cfg, s, piece) && lang in cfg.targets
    ensures FinalOk(n.heap, NewFinal(s, lang, piece))
  {
    hide KeyOk, A.Spells, KeysOk, FinalsOk, TextsOf, Dated, Faithful, Remainder, Once, KeyCost, Pending, Assemble;
    if lang in s.states {
      var popped := map l | l in s.states && l in cfg.targets :: s.states[l];
      assert lang in popped && Id(lang, popped[lang]) in Ids(popped);
      assert A.Frozen(s.channel.value.asm.sentences, s.channel.value.asm.consumed) == s.channel.value.asm;
    }
  }

  // ------------------------------------------------------ partials

  lemma FedOk(cfg: Config, s: State, id: Id, e: Event, out: A.Outcome, kept: seq<string>)
    requires e.Partial? && (id in s.heap ==> KeyOk(s.heap[id], cfg.tailLive) && Before(s.heap[id], s.epoch))
    requires kept == if out.reset || id !in s.heap then [] else TextsOf(s.heap[id].src)
    requires forall i :: 0 <= i < |out.newlyFrozen| ==> out.newlyFrozen[i].0 == |kept| + i
    ensures var k := Fed(cfg, s, id, e, out);
            && KeyOk(k, cfg.tailLive) && Before(k, s.epoch + 1)
            && (id in s.heap ==> k.finalized == s.heap[id].finalized)
            && (id !in s.heap ==> !k.finalized)
            && TextsOf(k.src) == kept + A.Seconds(out.newlyFrozen)
  {
    hide KeyOk;
    NewKeyOk(cfg.tailLive);
    var k := if id in s.heap then s.heap[id] else NewKey;
    if out.reset { ResetKeyOk(k, s.epoch, cfg.tailLive); }
    var k1 := if out.reset then ResetKey(k, s.epoch) else k;
    FreezeSentencesOk(k1, e.piece.lang, out.newlyFrozen, s.epoch, cfg.tailLive);
    var k2 := FreezeSentences(k1, e.piece.lang, out.newlyFrozen, s.epoch);
    if cfg.tailLive { SubmitTailOk(k2, Piece(e.piece.lang, out.tail)); }
  }

  /** A target's key state in the table is either the current one, in step with
      the assembler, or a new one next to a new assembler. */
  lemma TableEntry(cfg: Config, s: State, segment: int, l: Lang)
    requires Linked(cfg, s) && Dated(s) && l in cfg.targets
    ensures var id, asm := Id(l, Table(cfg, s, segment)[l]), AsmBefore(s, segment);
            && (id in s.heap ==> Current(s, id) && !s.heap[id].finalized && TextsOf(s.heap[id].src) == asm.sentences)
            && (id !in s.heap ==> asm == A.Empty)
            && id.born <= s.epoch
  {
    hide A.Spells, TextsOf;
  }

  lemma AsmBeforeSpells(cfg: Config, s: State, segment: int)
    requires Linked(cfg, s)
    ensures A.Spells(AsmBefore(s, segment))
  {
  }

  /** Each target's key state follows the assembler through a partial. */
  lemma FedFollows(cfg: Config, s: State, e: Event, l: Lang)
    requires Linked(cfg, s) && Dated(s) && KeysOk(cfg, s) && e.Partial? && Enabled(s, e) && l in cfg.targets
    ensures var (asm, out) := A.Updated(e.pysbd, cfg.soft, AsmBefore(s, e.segment), e.piece.text);
            var k := Fed(cfg, s, Id(l, Table(cfg, s, e.segment)[l]), e, out);
            KeyOk(k, cfg.tailLive) && Before(k, s.epoch + 1) && !k.finalized && TextsOf(k.src) == asm.sentences
  {
    hide KeyOk, A.Updated, A.Sound, A.Base, Fed, Linked, Dated, TextsOf, Table;
    var asm0 := AsmBefore(s, e.segment);
    var (asm, out) := A.Updated(e.pysbd, cfg.soft, asm0, e.piece.text);
    TableKeys(cfg, s, e.segment);
    var id := Id(l, Table(cfg, s, e.segment)[l]);
    TableEntry(cfg, s, e.segment, l);
    A.UpdateAppends(e.pysbd, cfg.soft, asm0, e.piece.text);
    FedOk(cfg, s, id, e, out, if out.reset || id !in s.heap then [] else TextsOf(s.heap[id].src));
  }

  lemma PartialKeepsKeys(cfg: Config, s: State, e: Event)
    requires Inv(cfg, s) && e.Partial? && Enabled(s, e)
    ensures KeysOk(cfg, Next(cfg, s, e)) && Dated(Next(cfg, s, e))
  {
    hide KeyOk, A.Updated, A.Sound, Linked, Fed, TextsOf, Table, FinalsOk;
    var n := Next(cfg, s, e);
    var table := Table(cfg, s, e.segment);
    TableKeys(cfg, s, e.segment);
    forall id | id in n.heap
      ensures KeyOk(n.heap[id], cfg.tailLive) && Before(n.heap[id], n.epoch) && id.born < n.epoch {
      if id in Ids(table) {
        FedFollows(cfg, s, e, id.lang);
        TableEntry(cfg, s, e.segment, id.lang);
      }
    }
  }

  lemma PartialKeepsLinks(cfg: Config, s: State, e: Event)
    requires Inv(cfg, s) && e.Partial? && Enabled(s, e)
    ensures Linked(cfg, Next(cfg, s, e))
  {
    hide KeyOk, KeysOk, A.Updated, A.Sound, A.Spells, Fed, TextsOf, Table, FinalsOk, Dated;
    var n := Next(cfg, s, e);
    var table := Table(cfg, s, e.segment);
    TableKeys(cfg, s, e.segment);
    forall l | l in cfg.targets
      ensures Id(l, table[l]) in n.heap && !n.heap[Id(l, table[l])].finalized
      ensures TextsOf(n.heap[Id(l, table[l])].src) == n.channel.value.asm.sentences
    {
      FedFollows(cfg, s, e, l);
      assert Id(l, table[l]) in Ids(table);
    }
    AsmBeforeSpells(cfg, s, e.segment);
    A.UpdateConserves(e.pysbd, cfg.soft, AsmBefore(s, e.segment), e.piece.text);
  }

  lemma TableKeys(cfg: Config, s: State, segment: int)
    ensures Table(cfg, s, segment).Keys == cfg.targets
  {
  }

  lemma PartialKeepsFinals(cfg: Config, s: State, e: Event)
    requires Inv(cfg, s) && e.Partial? && Enabled(s, e)
    ensures FinalsOk(Next(cfg, s, e))
  {
    hide KeyOk, KeysOk, A.Updated, A.Sound, A.Spells, Fed, TextsOf, Table, FinalOk, Linked, Dated;
    var n := Next(cfg, s, e);
    var table := Table(cfg, s, e.segment);
    TableKeys(cfg, s, e.segment);
    forall j | j in n.finals ensures FinalOk(n.heap, n.finals[j]) {
      var fin := s.finals[j];
      assert FinalOk(s.heap, fin);
      FinalHasKey(s.heap, fin);
      if fin.key.Some? && fin.key.value in Ids(table) {
        TableEntry(cfg, s, e.segment, fin.key.value.lang);
      }
      FinalStays(s.heap, n.heap, fin);
    }
  }

  // ------------------------------------------------------ the theorems

  lemma NextKeepsInv(cfg: Config, s: State, e: Event)
    requires Inv(cfg, s) && Enabled(s, e)
    ensures Inv(cfg, Next(cfg, s, e))
  {
    hide Linked, Dated, KeysOk, FinalsOk, KeyEnabled, AfterKeyEvent, AfterPartial, AfterFinalArrives, Decided,
      FinalAnswered, A.Sound;
    match e
    case Partial(_, _, _, _) =>
      PartialKeepsKeys(cfg, s, e);
      PartialKeepsLinks(cfg, s, e);
      PartialKeepsFinals(cfg, s, e);
    case FinalArrives(piece) => FinalArrivesKeepsInv(cfg, s, piece);
    case Decide(_) => FinalEventKeepsInv(cfg, s, e);
    case FinalDone(_, _) => FinalEventKeepsInv(cfg, s, e);
    case _ => KeyEventKeepsInv(cfg, s, e);
  }

  /** The invariant holds after every run. */
  lemma {:induction false} ExecInv(cfg: Config, es: seq<Event>)
    ensures Exec(cfg, es).Some? ==> Inv(cfg, Exec(cfg, es).value)
  {
    hide Inv, Enabled, Next;
    if es == [] {
      InitInv(cfg);
    } else {
      ExecInv(cfg, es[..|es| - 1]);
      var before := Exec(cfg, es[..|es| - 1]);
      if before.Some? && Enabled(before.value, es[|es| - 1]) {
        NextKeepsInv(cfg, before.value, es[|es| - 1]);
      }
    }
  }

  lemma InitInv(cfg: Config)
    ensures Inv(cfg, Init)
  {
  }

  /** For every run, every interleaving and failure of tasks, resets included, and
      every final: what is published is the provider's translation of the whole
      final text, or, as long as the translations it was made of are in step with
      its sentences, the provider's translations of an ordered partition of that
      text that starts with them. Being in step is exactly what it takes for the
      reassembled translations to be those of the sentences, and it is given
      whenever no reset overtook a task of the key state. */
  lemma PublishedFinalIsFaithful(cfg: Config, es: seq<Event>, j: Id)
    ensures var run := Exec(cfg, es);
            run.Some? && j in run.value.finals && run.value.finals[j].phase.Published? ==>
              var s, fin := run.value, run.value.finals[j];
              && Reassembled(s.heap, fin)
              && (Undisturbed(s.heap, fin) ==> ReadsInStep(s.heap, fin))
              && (ReadsInStep(s.heap, fin) ==> Faithful(fin.answers, fin.frozenSrc, fin.piece, fin.phase.out))
              && (!fin.phase.path.Retranslated? ==>
                   (ReadsInStep(s.heap, fin) <==>
                     Translates(s.heap[fin.key.value].src, s.heap[fin.key.value].frozenDst, fin.answers)))
  {
    hide Exec, Faithful, Linear, Snapshot, InStep, Translates, Assemble, KeysOk, Linked, FrozenComplete;
    var run := Exec(cfg, es);
    if run.Some? && j in run.value.finals && run.value.finals[j].phase.Published? {
      var s, fin := run.value, run.value.finals[j];
      ExecInv(cfg, es);
      assert FinalOk(s.heap, fin);
      if !fin.phase.path.Retranslated? {
        InStepIsExact(s.heap[fin.key.value].src, s.heap[fin.key.value].frozenDst, fin.answers);
      }
    }
  }

  /** With the echo provider, a faithful publication is the final text, whitespace aside. */
  lemma EchoPublishesTheFinalText(answers: set<Answer>, frozenSrc: seq<string>, piece: Piece, out: string)
    requires Faithful(answers, frozenSrc, piece, out)
    requires forall a :: a in answers ==> a.dst == a.piece.text
    ensures Erase(Python, out) == Erase(Python, piece.text)
  {
    hide Join, Erase, EraseAll;
    if Answer(piece, out) !in answers {
      var parts: seq<Answer>, last: seq<Answer> :| Pieces(answers, frozenSrc, piece.text, out, parts, last);
      assert DstsOf(parts) == frozenSrc by {
        forall i | 0 <= i < |parts| ensures DstsOf(parts)[i] == frozenSrc[i] { assert parts[i] in parts; }
      }
      var tail: seq<string> := if last == [] then [] else [last[0].piece.text];
      var shown: seq<string> := if last == [] then [] else Optional(last[0].dst);
      EraseJoin(Python, frozenSrc + shown);
      if shown != tail {
        assert shown == [] && tail == [""];
        EraseAllSum(Python, frozenSrc, tail);
        EraseAllOne(Python, "");
        EraseBlank(Python, "");
        assert frozenSrc + shown == frozenSrc;
      }
    }
  }

  /** No flicker, over every run: with live tails off and no reset, each partial
      published from a key state is a string prefix of every later one. */
  lemma PartialsNeverFlicker(cfg: Config, es: seq<Event>, id: Id, i: nat, j: nat)
    ensures var run := Exec(cfg, es);
            run.Some? && id in run.value.heap && !run.value.heap[id].wasReset && !cfg.tailLive ==>
              var partials := run.value.heap[id].partials;
              i <= j < |partials| ==> partials[i] <= partials[j]
  {
    hide Exec, TasksOk, FrozenOk, AskedOk;
    var run := Exec(cfg, es);
    if run.Some? && id in run.value.heap {
      ExecInv(cfg, es);
      assert KeyOk(run.value.heap[id], cfg.tailLive);
    }
  }

  /** Nothing partial is published from a key state once it is finalized. */
  lemma NothingPartialAfterFinal(cfg: Config, s: State, e: Event, id: Id)
    ensures Inv(cfg, s) && Enabled(s, e) && id in s.heap && s.heap[id].finalized ==>
              var n := Next(cfg, s, e);
              id in n.heap && n.heap[id].finalized && n.heap[id].partials == s.heap[id].partials
  {
    hide KeyOk, FinalsOk, A.Updated, A.Sound, A.Spells, Fed, Table, TextsOf, Assemble;
    if Inv(cfg, s) && Enabled(s, e) && e.Partial? && id in Ids(Table(cfg, s, e.segment)) {
      TableKeys(cfg, s, e.segment);
      TableEntry(cfg, s, e.segment, id.lang);
    }
  }

  /** Linear cost, over every run: on the reuse paths each frozen sentence was
      sent to the provider exactly once, and the final adds at most one request;
      the visible characters of these sentences, of what the final sent and of the
      reused tail are exactly those of the final text. A final sent whole costs
      its own visible characters. */
  lemma FinalCostIsLinear(cfg: Config, es: seq<Event>, j: Id)
    ensures var run := Exec(cfg, es);
            run.Some? && j in run.value.finals ==>
              var s, fin := run.value, run.value.finals[j];
              && Linear(s.heap, fin) && Counted(fin) && |fin.sent| <= 1
              && (fin.phase.Published? && fin.phase.path.Retranslated? ==>
                   SentLength(fin) == |Erase(Python, fin.piece.text)|)
  {
    hide Exec, Linear, Erase, EraseAll, TextsOf, Assemble, FrozenComplete, Missing, Words;
    var run := Exec(cfg, es);
    if run.Some? && j in run.value.finals {
      var s, fin := run.value, run.value.finals[j];
      ExecInv(cfg, es);
      assert FinalOk(s.heap, fin);
      SentOne(fin);
    }
  }

  lemma FinalIsThrifty(cfg: Config, es: seq<Event>, j: Id)
    ensures var run := Exec(cfg, es);
            run.Some? && j in run.value.finals ==>
              var s, fin := run.value, run.value.finals[j];
              Thrifty(s.heap, fin)
  {
    hide Exec, Thrifty, FinalMade;
    var run := Exec(cfg, es);
    if run.Some? && j in run.value.finals {
      var s, fin := run.value, run.value.finals[j];
      ExecInv(cfg, es);
      assert FinalOk(s.heap, fin);
    }
  }

  /** Over every run, failures and resets included: the whole text of a final is
      sent only when the text does not begin with the consumed words, or a freeze
      of its key state failed. */
  lemma WholeTextOnlyWhenNeeded(cfg: Config, es: seq<Event>, j: Id)
    ensures var run := Exec(cfg, es);
            run.Some? && j in run.value.finals ==>
              var s, fin := run.value, run.value.finals[j];
              fin.phase.AskedWhole? || (fin.phase.Published? && fin.phase.path.Retranslated?) ==>
                !Starts(fin) || !AllFrozen(s.heap, fin)
  {
    hide Exec, Starts, AllFrozen, Reusable, Missing, TailFits, Assemble;
    var run := Exec(cfg, es);
    if run.Some? && j in run.value.finals {
      var s, fin := run.value, run.value.finals[j];
      FinalIsThrifty(cfg, es, j);
    }
  }

  /** Over every run: when the final text begins with the consumed words and every
      freeze succeeded, nothing frozen is sent again. The task sends exactly the
      missing words, in one request and in the final's language, and publishes
      their translation after the frozen ones; it sends nothing, and is published
      at once, when no words are missing or the cached tail has just these words. */
  lemma OnlyMissingWordsAreSent(cfg: Config, es: seq<Event>, j: Id)
    ensures var run := Exec(cfg, es);
            run.Some? && j in run.value.finals ==>
              var s, fin := run.value, run.value.finals[j];
              !fin.phase.Waiting? && Starts(fin) && AllFrozen(s.heap, fin) ==>
                && Reusable(s.heap, fin)
                && (Missing(fin) == [] || TailFits(fin) ==> fin.sent == [] && fin.phase.Published?)
                && (Missing(fin) != [] && !TailFits(fin) ==>
                     && |fin.sent| == 1 && fin.sent[0].lang == fin.piece.lang
                     && Words(Python, fin.sent[0].text) == Missing(fin))
                && (fin.phase.Published? ==>
                     var frozen := s.heap[fin.key.value].frozenDst;
                     if Missing(fin) == [] then fin.phase.out == Assemble(frozen, "")
                     else if TailFits(fin) then fin.phase.out == Assemble(frozen, fin.cached.value.dst)
                     else exists a ::
                       a in fin.answers && [a.piece] == fin.sent && fin.phase.out == Assemble(frozen, a.dst))
  {
    hide Exec, Starts, AllFrozen, Reusable, Missing, TailFits, Assemble, Words;
    var run := Exec(cfg, es);
    if run.Some? && j in run.value.finals {
      var s, fin := run.value, run.value.finals[j];
      FinalIsThrifty(cfg, es, j);
    }
  }

  /** No final is left behind: after every run a waiting one may choose its path once
      its key state has no freeze pending, at once when it does not begin with the
      consumed words, and one that asked the provider may be answered, which
      publishes it unless the provider failed. */
  lemma FinalsGoOn(cfg: Config, es: seq<Event>, j: Id, dst: Option<string>)
    ensures var run := Exec(cfg, es);
            run.Some? && j in run.value.finals ==>
              var s, fin := run.value, run.value.finals[j];
              && (fin.phase.Waiting? ==>
                   (Enabled(s, Decide(j)) <==>
                     (Starts(fin) ==> fin.key.value in s.heap && Pending(s.heap[fin.key.value]) == {})))
              && (fin.phase.AskedWhole? || fin.phase.AskedRemainder? ==>
                   && Enabled(s, FinalDone(j, dst))
                   && var after := Next(cfg, s, FinalDone(j, dst)).finals[j].phase;
                      if dst.Some? then after.Published? else after.Failed?)
  {
    hide Exec, Starts, Remainder, Missing, TailFits, Thrifty, Linear, Reassembled, ReadsInStep, Faithful;
    var run := Exec(cfg, es);
    if run.Some? && j in run.value.finals {
      var s, fin := run.value, run.value.finals[j];
      ExecInv(cfg, es);
      assert FinalOk(s.heap, fin);
      RemainderIsMissing(fin, "");
      StartsIsKeyed(fin);
    }
  }

  lemma StartsIsKeyed(fin: Final)
    ensures Starts(fin) ==> fin.key.Some?
  {
  }

  /** Over every run and for every path, failed ones included: the visible
      characters a decided final itself sent are those of its whole text, none, or
      those after the consumed text. */
  lemma SentLengthIsExact(cfg: Config, es: seq<Event>, j: Id)
    ensures var run := Exec(cfg, es);
            run.Some? && j in run.value.finals && !run.value.finals[j].phase.Waiting? ==>
              var s, fin := run.value, run.value.finals[j];
              SentLength(fin) ==
                if !Reusable(s.heap, fin) then |Erase(Python, fin.piece.text)|
                else if Missing(fin) == [] || TailFits(fin) then 0
                else |Erase(Python, fin.piece.text)| - |Erase(Python, fin.consumed)|
  {
    hide Exec, Reusable, TailFits, Assemble, Words, Erase, SentLength;
    var run := Exec(cfg, es);
    if run.Some? && j in run.value.finals && !run.value.finals[j].phase.Waiting? {
      var s, fin := run.value, run.value.finals[j];
      FinalIsThrifty(cfg, es, j);
      SentOne(fin);
      SentNothing(fin);
      if Reusable(s.heap, fin) {
        ReusableStarts(s.heap, fin);
        if Missing(fin) != [] && !TailFits(fin) { SentRest(fin); }
      }
    }
  }

  lemma ReusableStarts(heap: map<Id, Key>, fin: Final)
    requires Reusable(heap, fin)
    ensures Starts(fin)
  {
  }

  lemma SentNothing(fin: Final)
    ensures fin.sent == [] ==> SentLength(fin) == 0
  {
    EraseBlank(Python, "");
  }

  lemma SentRest(fin: Final)
    requires Starts(fin) && |fin.sent| == 1 && Words(Python, fin.sent[0].text) == Missing(fin)
    ensures SentLength(fin) == |Erase(Python, fin.piece.text)| - |Erase(Python, fin.consumed)|
  {
    hide Words, Erase;
    SentOne(fin);
    EraseWords(Python, fin.sent[0].text);
    EraseWords(Python, fin.piece.text);
    EraseWords(Python, fin.consumed);
    assert Words(Python, fin.piece.text) == Words(Python, fin.consumed) + Missing(fin);
    ConcatSum(Words(Python, fin.consumed), Missing(fin));
  }

  /** Over every run, resets included: a final asks the provider nothing when
      nothing remains after its frozen sentences and all their freezes succeeded. */
  lemma NothingRemainingAsksNothing(cfg: Config, es: seq<Event>, j: Id)
    ensures var run := Exec(cfg, es);
            run.Some? && j in run.value.finals ==>
              var s, fin := run.value, run.value.finals[j];
              Remainder(fin) == Some("") && AllFrozen(s.heap, fin) ==> fin.sent == []
  {
    hide Exec, Linear, Remainder, Starts, Missing, TailFits, Assemble, Words, FrozenComplete;
    var run := Exec(cfg, es);
    if run.Some? && j in run.value.finals {
      var s, fin := run.value, run.value.finals[j];
      FinalIsThrifty(cfg, es, j);
      RemainderIsMissing(fin, "");
      ExecInv(cfg, es);
      assert FinalOk(s.heap, fin);
    }
  }

  /** A final takes over what was built for its segment: each target's task gets
      the key state in use, whose freezes are those of the assembler's sentences,
      and the tables start over. */
  lemma FinalTakesOver(cfg: Config, s: State, piece: Piece, lang: Lang)
    requires Inv(cfg, s) && lang in cfg.targets
    ensures var n := Next(cfg, s, FinalArrives(piece));
            && n.channel.None? && n.states == map[]
            && Id(lang, s.epoch) in n.finals && Id(lang, s.epoch) !in s.finals
            && var fin := n.finals[Id(lang, s.epoch)];
            && fin.phase.Waiting? && fin.piece == piece && fin.sent == [] && fin.answers == {}
            && (s.channel.None? ==> fin.key.None?)
            && (s.channel.Some? ==>
                 && fin.key.Some? && fin.key.value.lang == lang && Current(s, fin.key.value)
                 && fin.frozenSrc == TextsOf(s.heap[fin.key.value].src)
                 && A.Frozen(fin.frozenSrc, fin.consumed) == s.channel.value.asm
                 && n.heap[fin.key.value] == s.heap[fin.key.value].(finalized := true))
  {
    hide FinalsOk, KeysOk, A.Spells, TextsOf;
    var n := Next(cfg, s, FinalArrives(piece));
    FinalArrivesEmptiesTable(cfg, s, piece);
    if s.channel.Some? {
      var popped := map l | l in s.states && l in cfg.targets :: s.states[l];
      assert lang in popped && Id(lang, popped[lang]) in Ids(popped);
    }
    assert n.states == map[];
  }

  /** Over every run: each frozen sentence of each language is sent to the provider
      once, by its own task. */
  lemma EachSentenceAskedOnce(cfg: Config, es: seq<Event>, id: Id, i: nat)
    ensures var run := Exec(cfg, es);
            run.Some? && id in run.value.heap ==>
              var k := run.value.heap[id];
              |k.asked| == |k.src| && (i < |k.src| ==> k.asked[i] == if IsQueued(k, i) then 0 else 1)
  {
    hide Exec, TasksOk, FrozenOk, NoFlicker;
    var run := Exec(cfg, es);
    if run.Some? && id in run.value.heap {
      ExecInv(cfg, es);
      assert KeyOk(run.value.heap[id], cfg.tailLive);
    }
  }
}
