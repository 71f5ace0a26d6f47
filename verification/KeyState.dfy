/** TranslatorPython/translator/pipeline.py, `KeyState`: the translation state of
    one (session, channel, target language) segment, its freeze and tail tasks,
    and what it publishes.

    Tasks hold a reference to the key state they were created for, so a key
    state outlives its entry in the pipeline's table. Fields marked "history"
    are not in the source; they record what happened so that it can be stated. */
module KeyStates {
  import opened Options
  import opened Text

  /** A source text and the source language it is sent to the provider with. */
  datatype Piece = Piece(lang: string, text: string)

  /** What the provider answered to a piece. */
  datatype Answer = Answer(piece: Piece, dst: string)

  /** A `_freeze_and_publish` task; `epoch` tells apart tasks of different partials. */
  datatype Freeze = Freeze(idx: nat, piece: Piece, epoch: nat)

  /** A submitted tail translation. */
  datatype Tail = Tail(version: int, piece: Piece)

  datatype Key = Key(
    frozenDst: map<nat, string>,
    queued: set<Freeze>,            // pending freezes the provider was not asked yet
    asking: set<Freeze>,            // pending freezes waiting for the provider
    tails: set<Tail>,
    lastTailSrc: string,
    lastTailDst: string,
    tailVersion: int,
    publishedTailVersion: int,
    finalized: bool,
    partials: seq<string>,          // history: partial texts published
    src: seq<Piece>,                // history: sentences handed to freeze tasks since the last reset
    asked: seq<nat>,                // history: provider requests made for each of them
    lastTailLang: string,           // history: source language of lastTailSrc
    answers: set<Answer>,           // history: provider answers received
    failed: set<nat>,               // history: sentences of src whose own freeze failed
    since: nat,                     // history: epoch of the last reset
    wasReset: bool,                 // history: an assembler reset hit this key state
    dirty: bool)                    // history: a reset hit it while freezes were pending

  const NewKey := Key(map[], {}, {}, {}, "", "", 0, -1, false, [], [], [], "", {}, {}, 0, false, false)

  function Pending(k: Key): set<Freeze> { k.queued + k.asking }

  /** The freeze was created since the last reset; the others were overtaken by it. */
  predicate Own(k: Key, f: Freeze) { f.epoch >= k.since }

  // ------------------------------------------------------ assembling

  function Above(m: map<nat, string>, i: nat): set<nat> {
    set j | j in m.Keys && i <= j
  }

  /** The translations at i, i+1, ... up to the first missing index. */
  function Contiguous(m: map<nat, string>, i: nat): seq<string>
    decreases Above(m, i)
  {
    if i in m then
      assert i in Above(m, i) && i !in Above(m, i + 1);
      [m[i]] + Contiguous(m, i + 1)
    else []
  }

  function Optional(s: string): seq<string> { if s == "" then [] else [s] }

  /** `_assemble`: contiguous frozen prefix, then the tail translation. */
  function Assemble(m: map<nat, string>, tail: string): string {
    Join(Contiguous(m, 0) + Optional(tail))
  }

  /** `_frozen_complete` */
  predicate FrozenComplete(m: map<nat, string>, expected: nat) {
    forall i :: 0 <= i < expected ==> i in m
  }

  lemma {:induction false} ContiguousGrows(m: map<nat, string>, n: map<nat, string>, i: nat)
    requires m.Keys <= n.Keys && forall j :: j in m ==> n[j] == m[j]
    ensures Contiguous(m, i) <= Contiguous(n, i)
    decreases Above(m, i)
  {
    if i in m {
      assert i in Above(m, i) && i !in Above(m, i + 1);
      ContiguousGrows(m, n, i + 1);
    }
  }

  /** Without a tail, what is assembled only ever grows at its end. */
  lemma AssembleGrows(m: map<nat, string>, n: map<nat, string>)
    requires m.Keys <= n.Keys && forall j :: j in m ==> n[j] == m[j]
    ensures Assemble(m, "") <= Assemble(n, "")
  {
    hide Join;
    ContiguousGrows(m, n, 0);
    var a, b := Contiguous(m, 0), Contiguous(n, 0);
    assert a + b[|a|..] == b && a + [] == a && b + [] == b;
    JoinExtends(a, b[|a|..]);
  }

  lemma {:induction false} ContiguousFrom(m: map<nat, string>, i: nat, n: nat)
    requires i <= n && FrozenComplete(m, n) && forall j :: j in m ==> j < n
    ensures |Contiguous(m, i)| == n - i
    ensures forall j :: i <= j < n ==> Contiguous(m, i)[j - i] == m[j]
    decreases n - i
  {
    if i < n { ContiguousFrom(m, i + 1, n); }
  }

  // ------------------------------------------------------ steps of one key state

  /** The assembler was reset: frozen translations are void. */
  function ResetKey(k: Key, epoch: nat): Key {
    k.(frozenDst := map[], tailVersion := k.tailVersion + 1, src := [], asked := [], failed := {}, since := epoch,
       wasReset := true, dirty := k.dirty || Pending(k) != {})
  }

  /** One task per newly frozen sentence. */
  function NewTasks(lang: string, news: seq<(nat, string)>, epoch: nat): set<Freeze> {
    set i | 0 <= i < |news| :: Freeze(news[i].0, Piece(lang, news[i].1), epoch)
  }

  function FreezeSentences(k: Key, lang: string, news: seq<(nat, string)>, epoch: nat): Key {
    k.(queued := k.queued + NewTasks(lang, news, epoch),
       src := k.src + seq(|news|, i requires 0 <= i < |news| => Piece(lang, news[i].1)),
       asked := k.asked + seq(|news|, i => 0))
  }

  function SubmitTail(k: Key, piece: Piece): Key {
    k.(tailVersion := k.tailVersion + 1, tails := k.tails + {Tail(k.tailVersion + 1, piece)})
  }

  /** The scheduler lets the freeze through and sends its sentence to the provider. */
  function AskFreeze(k: Key, f: Freeze): Key
    requires f in k.queued
  {
    k.(queued := k.queued - {f}, asking := k.asking + {f},
       asked := if Own(k, f) && f.idx < |k.asked| then k.asked[f.idx := k.asked[f.idx] + 1] else k.asked)
  }

  /** The provider answers a freeze (None: it failed). `current` tells whether the
      pipeline's table still holds this very key state. */
  function FreezeAnswered(k: Key, f: Freeze, dst: Option<string>, current: bool): Key
    requires f in k.asking
  {
    if dst.None? then k.(asking := k.asking - {f}, failed := if Own(k, f) then k.failed + {f.idx} else k.failed) else
    var k1 := k.(asking := k.asking - {f}, frozenDst := k.frozenDst[f.idx := dst.value],
                 answers := k.answers + {Answer(f.piece, dst.value)});
    if !current || k.finalized then k1
    else k1.(partials := k.partials + [Assemble(k1.frozenDst, k.lastTailDst)])
  }

  /** The provider answers a tail. `show` is the stability gate's verdict. */
  function TailAnswered(k: Key, t: Tail, dst: Option<string>, current: bool, show: bool): Key
    requires t in k.tails
  {
    if dst.None? then k.(tails := k.tails - {t}) else
    var k1 := k.(tails := k.tails - {t}, lastTailSrc := t.piece.text, lastTailLang := t.piece.lang,
                 lastTailDst := dst.value,
                 answers := k.answers + {Answer(t.piece, dst.value)});
    if !current || k.finalized || t.version <= k.publishedTailVersion || t.version < k.tailVersion || !show then k1
    else k1.(partials := k.partials + [Assemble(k.frozenDst, dst.value)], publishedTailVersion := t.version)
  }

  // ------------------------------------------------------ what every step keeps

  /** Each task created since the last reset works on its sentence of `src`, no
      two on the same one. */
  ghost predicate TasksOk(k: Key) {
    && (forall f :: f in Pending(k) && Own(k, f) ==> f.idx < |k.src| && f.piece == k.src[f.idx])
    && (forall f, g :: f in Pending(k) && g in Pending(k) && Own(k, f) && Own(k, g) && f.idx == g.idx ==> f == g)
    && k.queued !! k.asking
  }

  /** No reset overtook a task, and no pending sentence has a translation yet. */
  ghost predicate TasksClean(k: Key) {
    forall f :: f in Pending(k) ==> Own(k, f) && f.idx !in k.frozenDst
  }

  /** Every task is older than the next epoch. */
  ghost predicate Before(k: Key, epoch: nat) {
    k.since <= epoch && forall f :: f in Pending(k) ==> f.epoch < epoch
  }

  /** Each frozen translation is the provider's answer to the sentence at its index. */
  ghost predicate FrozenOk(k: Key) {
    forall i :: i in k.frozenDst ==> i < |k.src| && Answer(k.src[i], k.frozenDst[i]) in k.answers
  }

  ghost predicate IsQueued(k: Key, i: nat) { exists f :: f in k.queued && Own(k, f) && f.idx == i }

  ghost predicate IsPending(k: Key, i: nat) { exists f :: f in Pending(k) && Own(k, f) && f.idx == i }

  /** Every sentence is pending, has failed, or has a translation. */
  ghost predicate Covered(k: Key) {
    forall i :: 0 <= i < |k.src| && !IsPending(k, i) && i !in k.failed ==> i in k.frozenDst
  }

  /** Every sentence is sent to the provider exactly once, by its own task. */
  ghost predicate AskedOk(k: Key) {
    |k.asked| == |k.src| && forall i :: 0 <= i < |k.src| ==> k.asked[i] == if IsQueued(k, i) then 0 else 1
  }

  ghost predicate TailOk(k: Key) {
    k.lastTailDst != "" ==> Answer(Piece(k.lastTailLang, k.lastTailSrc), k.lastTailDst) in k.answers
  }

  /** Each published partial is a string prefix of all later ones and of what
      would be published next. */
  ghost predicate NoFlicker(k: Key) {
    && k.lastTailDst == ""
    && k.tails == {}
    && (forall i, j :: 0 <= i <= j < |k.partials| ==> k.partials[i] <= k.partials[j])
    && (forall i :: 0 <= i < |k.partials| ==> k.partials[i] <= Assemble(k.frozenDst, ""))
  }

  ghost predicate KeyOk(k: Key, tailLive: bool) {
    && |k.asked| == |k.src|
    && TasksOk(k) && AskedOk(k) && Covered(k)
    && (!k.dirty ==> TasksClean(k) && FrozenOk(k))
    && TailOk(k)
    && (k.dirty ==> k.wasReset)
    && (!tailLive && !k.wasReset ==> NoFlicker(k))
    && (!tailLive ==> k.tails == {} && k.lastTailDst == "")
  }

  lemma NewKeyOk(tailLive: bool)
    ensures KeyOk(NewKey, tailLive) && Before(NewKey, 0)
  {
  }

  lemma ResetKeyOk(k: Key, epoch: nat, tailLive: bool)
    requires KeyOk(k, tailLive) && Before(k, epoch)
    ensures KeyOk(ResetKey(k, epoch), tailLive) && Before(ResetKey(k, epoch), epoch)
  {
    hide Assemble;
  }

  lemma NewTasksAsked(k: Key, lang: string, news: seq<(nat, string)>, epoch: nat)
    requires TasksOk(k) && AskedOk(k) && Before(k, epoch)
    requires forall i :: 0 <= i < |news| ==> news[i].0 == |k.src| + i
    ensures AskedOk(FreezeSentences(k, lang, news, epoch))
  {
    var n := FreezeSentences(k, lang, news, epoch);
    forall i | 0 <= i < |n.src| ensures n.asked[i] == if IsQueued(n, i) then 0 else 1 {
      if i >= |k.src| {
        var f := Freeze(news[i - |k.src|].0, Piece(lang, news[i - |k.src|].1), epoch);
        assert f in n.queued && Own(n, f) && f.idx == i;
      } else {
        if IsQueued(k, i) {
          var f :| f in k.queued && Own(k, f) && f.idx == i;
          assert f in n.queued && Own(n, f);
        }
        if IsQueued(n, i) {
          var f :| f in n.queued && Own(n, f) && f.idx == i;
          assert f in k.queued;
        }
      }
    }
  }

  lemma NewTasksOk(k: Key, lang: string, news: seq<(nat, string)>, epoch: nat)
    requires TasksOk(k) && Before(k, epoch)
    requires forall i :: 0 <= i < |news| ==> news[i].0 == |k.src| + i
    ensures TasksOk(FreezeSentences(k, lang, news, epoch))
  {
    var n := FreezeSentences(k, lang, news, epoch);
    assert forall i :: 0 <= i < |k.src| ==> n.src[i] == k.src[i];
    forall f | f in NewTasks(lang, news, epoch)
      ensures |k.src| <= f.idx < |n.src| && f.piece == n.src[f.idx] && f.epoch == epoch
    {
    }
  }

  lemma NewTasksClean(k: Key, lang: string, news: seq<(nat, string)>, epoch: nat)
    requires TasksClean(k) && FrozenOk(k) && Before(k, epoch)
    requires forall i :: 0 <= i < |news| ==> news[i].0 == |k.src| + i
    ensures TasksClean(FreezeSentences(k, lang, news, epoch)) && FrozenOk(FreezeSentences(k, lang, news, epoch))
  {
    var n := FreezeSentences(k, lang, news, epoch);
    assert forall i :: 0 <= i < |k.src| ==> n.src[i] == k.src[i];
  }

  lemma FreezeSentencesOk(k: Key, lang: string, news: seq<(nat, string)>, epoch: nat, tailLive: bool)
    requires KeyOk(k, tailLive) && Before(k, epoch)
    requires forall i :: 0 <= i < |news| ==> news[i].0 == |k.src| + i
    ensures KeyOk(FreezeSentences(k, lang, news, epoch), tailLive)
    ensures Before(FreezeSentences(k, lang, news, epoch), epoch + 1)
  {
    NewTasksBefore(k, lang, news, epoch);
    hide Assemble, TasksOk, FrozenOk, AskedOk, TasksClean, Covered, Before;
    NewTasksOk(k, lang, news, epoch);
    NewTasksAsked(k, lang, news, epoch);
    NewTasksCovered(k, lang, news, epoch);
    if !k.dirty { NewTasksClean(k, lang, news, epoch); }
  }

  lemma NewTasksCovered(k: Key, lang: string, news: seq<(nat, string)>, epoch: nat)
    requires Covered(k) && Before(k, epoch)
    requires forall i :: 0 <= i < |news| ==> news[i].0 == |k.src| + i
    ensures Covered(FreezeSentences(k, lang, news, epoch))
  {
    var n := FreezeSentences(k, lang, news, epoch);
    forall i | 0 <= i < |n.src| ensures i >= |k.src| || IsPending(k, i) ==> IsPending(n, i) {
      if i >= |k.src| {
        var f := Freeze(news[i - |k.src|].0, Piece(lang, news[i - |k.src|].1), epoch);
        assert f in Pending(n) && Own(n, f) && f.idx == i;
      } else if IsPending(k, i) {
        var f :| f in Pending(k) && Own(k, f) && f.idx == i;
        assert f in Pending(n) && Own(n, f);
      }
    }
  }

  lemma AnsweredCovered(k: Key, f: Freeze, dst: Option<string>, current: bool)
    requires Covered(k) && TasksOk(k) && f in k.asking
    ensures Covered(FreezeAnswered(k, f, dst, current))
  {
    hide Assemble;
    var n := FreezeAnswered(k, f, dst, current);
    assert Pending(n) == Pending(k) - {f} && f in Pending(k);
    forall i | 0 <= i < |n.src| && !IsPending(n, i) && i !in n.failed ensures i in n.frozenDst {
      if IsPending(k, i) { PendingElsewhere(k, n, f, i); }
    }
  }

  lemma SameTasksCovered(k: Key, n: Key)
    requires Covered(k) && Pending(n) == Pending(k) && n.src == k.src && n.since == k.since
    requires n.frozenDst == k.frozenDst && n.failed == k.failed
    ensures Covered(n)
  {
    assert forall i :: IsPending(n, i) <==> IsPending(k, i);
  }

  /** With nothing pending and no failed freeze, every sentence has its translation. */
  lemma SuccessIsComplete(k: Key)
    requires Covered(k) && Pending(k) == {} && k.failed == {}
    ensures FrozenComplete(k.frozenDst, |k.src|)
  {
    assert forall i :: !IsPending(k, i);
  }

  lemma NewTasksBefore(k: Key, lang: string, news: seq<(nat, string)>, epoch: nat)
    requires Before(k, epoch)
    ensures Before(FreezeSentences(k, lang, news, epoch), epoch + 1)
  {
  }

  lemma SubmitTailOk(k: Key, piece: Piece)
    requires KeyOk(k, true)
    ensures KeyOk(SubmitTail(k, piece), true)
  {
    hide Assemble, Covered;
    var n := SubmitTail(k, piece);
    SameTasksCovered(k, n);
    assert forall i :: IsQueued(n, i) <==> IsQueued(k, i);
  }

  lemma AskFreezeOk(k: Key, f: Freeze, tailLive: bool)
    requires KeyOk(k, tailLive) && f in k.queued
    ensures KeyOk(AskFreeze(k, f), tailLive)
  {
    hide Assemble, FrozenOk, Covered;
    var n := AskFreeze(k, f);
    assert Pending(n) == Pending(k);
    SameTasksCovered(k, n);
    forall i | 0 <= i < |n.src| ensures n.asked[i] == if IsQueued(n, i) then 0 else 1 {
      if i == f.idx && Own(k, f) {
        assert IsQueued(k, i);
        forall g | g in n.queued && Own(n, g) ensures g.idx != i {
          assert g in Pending(k) && f in Pending(k);
        }
      } else if IsQueued(k, i) {
        var g :| g in k.queued && Own(k, g) && g.idx == i;
        assert g in n.queued && Own(n, g);
      }
    }
    assert FrozenOk(n) <==> FrozenOk(k) by { FrozenSame(k, n); }
  }

  lemma FrozenSame(k: Key, n: Key)
    requires n.frozenDst == k.frozenDst && n.src == k.src && n.answers == k.answers
    ensures FrozenOk(n) <==> FrozenOk(k)
  {
  }

  lemma AnsweredFrozenOk(k: Key, f: Freeze, dst: Option<string>, current: bool)
    requires TasksOk(k) && TasksClean(k) && FrozenOk(k) && f in k.asking
    ensures FrozenOk(FreezeAnswered(k, f, dst, current))
  {
    hide Assemble;
    assert f in Pending(k);
  }

  lemma AnsweredTasksOk(k: Key, f: Freeze, dst: Option<string>, current: bool)
    requires TasksOk(k) && f in k.asking
    ensures TasksOk(FreezeAnswered(k, f, dst, current))
    ensures TasksClean(k) ==> TasksClean(FreezeAnswered(k, f, dst, current))
  {
    hide Assemble;
    var n := FreezeAnswered(k, f, dst, current);
    assert f in Pending(k);
    forall g | g in Pending(n) ensures g in Pending(k) && g != f {
    }
  }

  lemma SameQueueSameAsked(k: Key, n: Key)
    requires AskedOk(k) && n.queued == k.queued && n.src == k.src && n.asked == k.asked && n.since == k.since
    ensures AskedOk(n)
  {
    assert forall i :: IsQueued(n, i) <==> IsQueued(k, i);
  }

  lemma FreezeAnsweredOk(k: Key, f: Freeze, dst: Option<string>, current: bool, tailLive: bool)
    requires KeyOk(k, tailLive) && f in k.asking
    ensures KeyOk(FreezeAnswered(k, f, dst, current), tailLive)
  {
    hide Assemble, FrozenOk, AskedOk, TasksOk, Covered;
    var n := FreezeAnswered(k, f, dst, current);
    AnsweredCovered(k, f, dst, current);
    AnsweredTasksOk(k, f, dst, current);
    SameQueueSameAsked(k, n);
    if !k.dirty { AnsweredFrozenOk(k, f, dst, current); }
    if dst.Some? && !tailLive && !k.wasReset {
      assert f in Pending(k) && f.idx !in k.frozenDst;
      AssembleGrows(k.frozenDst, n.frozenDst);
      PrefixTransitive(k.partials, Assemble(k.frozenDst, ""), Assemble(n.frozenDst, ""));
    }
  }

  lemma PrefixTransitive(ps: seq<string>, a: string, b: string)
    requires a <= b && forall i :: 0 <= i < |ps| ==> ps[i] <= a
    ensures forall i :: 0 <= i < |ps| ==> ps[i] <= b
  {
  }

  lemma TailAnsweredOk(k: Key, t: Tail, dst: Option<string>, current: bool, show: bool, tailLive: bool)
    requires KeyOk(k, tailLive) && t in k.tails
    ensures KeyOk(TailAnswered(k, t, dst, current, show), tailLive)
  {
    hide Assemble, Covered;
    var n := TailAnswered(k, t, dst, current, show);
    SameTasksCovered(k, n);
    assert forall i :: IsQueued(n, i) <==> IsQueued(k, i);
  }

  lemma TailDroppedOk(k: Key, t: Tail, tailLive: bool)
    requires KeyOk(k, tailLive) && t in k.tails
    ensures KeyOk(k.(tails := k.tails - {t}), tailLive)
  {
    hide Assemble, Covered;
    var n := k.(tails := k.tails - {t});
    SameTasksCovered(k, n);
    assert forall i :: IsQueued(n, i) <==> IsQueued(k, i);
  }

  // ------------------------------------------------------ cost

  /** Visible source characters sent to the provider for freezes. */
  function SentChars(src: seq<Piece>, asked: seq<nat>): nat
    requires |src| == |asked|
  {
    if src == [] then 0
    else asked[0] * |Erase(Python, src[0].text)| + SentChars(src[1..], asked[1..])
  }

  function TextsOf(src: seq<Piece>): (r: seq<string>)
    ensures |r| == |src|
    ensures forall i :: 0 <= i < |src| ==> r[i] == src[i].text
  {
    seq(|src|, i requires 0 <= i < |src| => src[i].text)
  }

  lemma {:induction false} SentCharsOnce(src: seq<Piece>, asked: seq<nat>)
    requires |src| == |asked| && forall i :: 0 <= i < |asked| ==> asked[i] == 1
    ensures SentChars(src, asked) == |EraseAll(Python, TextsOf(src))|
  {
    hide Erase;
    if src != [] {
      SentCharsOnce(src[1..], asked[1..]);
      assert TextsOf(src) == [src[0].text] + TextsOf(src[1..]);
      EraseAllSum(Python, [src[0].text], TextsOf(src[1..]));
      EraseAllOne(Python, src[0].text);
    } else {
      EraseBlank(Python, "");
      assert Concat(TextsOf(src)) == "";
    }
  }

  // ------------------------------------------------------ translations in step

  /** What a final reads: the translation at each sentence, where there is one,
      is an answer to that sentence, and none follows the last sentence. */
  ghost predicate InStep(src: seq<Piece>, frozenDst: map<nat, string>, answers: set<Answer>) {
    |src| !in frozenDst && forall i :: 0 <= i < |src| && i in frozenDst ==> Answer(src[i], frozenDst[i]) in answers
  }

  function DstsOf(answers: seq<Answer>): (r: seq<string>)
    ensures |r| == |answers|
    ensures forall i :: 0 <= i < |answers| ==> r[i] == answers[i].dst
  {
    seq(|answers|, i requires 0 <= i < |answers| => answers[i].dst)
  }

  /** What is assembled is one answer per sentence, in order. */
  ghost predicate IsTranslation(src: seq<Piece>, frozenDst: map<nat, string>, answers: set<Answer>,
    parts: seq<Answer>) {
    && |parts| == |src| && DstsOf(parts) == Contiguous(frozenDst, 0)
    && forall i :: 0 <= i < |parts| ==> parts[i].piece == src[i] && parts[i] in answers
  }

  ghost predicate Translates(src: seq<Piece>, frozenDst: map<nat, string>, answers: set<Answer>) {
    exists parts: seq<Answer> :: IsTranslation(src, frozenDst, answers, parts)
  }

  lemma {:induction false} ContiguousIs(m: map<nat, string>, i: nat)
    ensures i + |Contiguous(m, i)| !in m
    ensures forall j :: i <= j < i + |Contiguous(m, i)| ==> j in m && Contiguous(m, i)[j - i] == m[j]
    decreases Above(m, i)
  {
    if i in m {
      assert i in Above(m, i) && i !in Above(m, i + 1);
      ContiguousIs(m, i + 1);
      assert Contiguous(m, i) == [m[i]] + Contiguous(m, i + 1);
    }
  }

  lemma {:induction false} ContiguousReaches(m: map<nat, string>, i: nat, n: nat)
    requires i <= n && n !in m && forall j :: i <= j < n ==> j in m
    ensures |Contiguous(m, i)| == n - i
    decreases n - i
  {
    if i < n { ContiguousReaches(m, i + 1, n); }
  }

  lemma TranslationIsInStep(src: seq<Piece>, frozenDst: map<nat, string>, answers: set<Answer>, parts: seq<Answer>)
    requires FrozenComplete(frozenDst, |src|) && IsTranslation(src, frozenDst, answers, parts)
    ensures InStep(src, frozenDst, answers)
  {
    hide Contiguous;
    ContiguousIs(frozenDst, 0);
    forall i | 0 <= i < |src| ensures Answer(src[i], frozenDst[i]) in answers {
      assert Contiguous(frozenDst, 0)[i - 0] == frozenDst[i] && DstsOf(parts)[i] == parts[i].dst;
      assert parts[i] == Answer(src[i], frozenDst[i]);
    }
  }

  lemma InStepTranslates(src: seq<Piece>, frozenDst: map<nat, string>, answers: set<Answer>)
    returns (parts: seq<Answer>)
    requires FrozenComplete(frozenDst, |src|) && InStep(src, frozenDst, answers)
    ensures IsTranslation(src, frozenDst, answers, parts)
  {
    hide Contiguous;
    ContiguousReaches(frozenDst, 0, |src|);
    ContiguousIs(frozenDst, 0);
    parts := seq(|src|, i requires 0 <= i < |src| && i in frozenDst => Answer(src[i], frozenDst[i]));
    forall i | 0 <= i < |src| ensures DstsOf(parts)[i] == Contiguous(frozenDst, 0)[i] {
      assert Contiguous(frozenDst, 0)[i - 0] == frozenDst[i];
    }
  }

  /** Once every sentence has a translation, what is assembled is a translation of
      the sentences exactly when the translations are in step with them. */
  lemma InStepIsExact(src: seq<Piece>, frozenDst: map<nat, string>, answers: set<Answer>)
    requires FrozenComplete(frozenDst, |src|)
    ensures Translates(src, frozenDst, answers) <==> InStep(src, frozenDst, answers)
  {
    hide IsTranslation, InStep, FrozenComplete;
    if Translates(src, frozenDst, answers) {
      var parts :| IsTranslation(src, frozenDst, answers, parts);
      TranslationIsInStep(src, frozenDst, answers, parts);
    }
    if InStep(src, frozenDst, answers) {
      var parts := InStepTranslates(src, frozenDst, answers);
    }
  }

  /** Without a reset under pending freezes the translations are always in step. */
  lemma CleanIsInStep(k: Key, tailLive: bool)
    requires KeyOk(k, tailLive) && !k.dirty
    ensures InStep(k.src, k.frozenDst, k.answers)
  {
    hide Assemble;
  }

  /** A completion takes translations out of step exactly when its index is the
      one after the last sentence, or is a sentence it does not translate. */
  lemma AnswerKeepsInStep(k: Key, f: Freeze, dst: string, current: bool)
    requires InStep(k.src, k.frozenDst, k.answers) && f in k.asking
    ensures var n := FreezeAnswered(k, f, Some(dst), current);
            InStep(n.src, n.frozenDst, n.answers) <==>
              && f.idx != |k.src|
              && (f.idx < |k.src| ==> k.src[f.idx] == f.piece || Answer(k.src[f.idx], dst) in k.answers)
  {
    hide Assemble;
    var n := FreezeAnswered(k, f, Some(dst), current);
    assert n.frozenDst[f.idx] == dst;
    assert forall i :: i in k.frozenDst && i != f.idx ==> i in n.frozenDst && n.frozenDst[i] == k.frozenDst[i];
  }

  // ------------------------------------------------------ freezes in order

  /** The per-key lock lets freezes through one at a time, in creation order. */
  predicate Earlier(f: Freeze, g: Freeze) { f.epoch < g.epoch || (f.epoch == g.epoch && f.idx < g.idx) }

  ghost predicate FirstInLine(k: Key, f: Freeze) { forall g :: g in Pending(k) ==> !Earlier(g, f) }

  /** No freeze of the sentences before the last reset is pending. */
  ghost predicate NoneOvertaken(k: Key) { forall f :: f in Pending(k) ==> Own(k, f) }

  /** Each sentence is pending, failed, or in step; a sentence whose own freeze has
      left the queue has outlived every overtaken one. */
  ghost predicate OrderOk(k: Key) {
    && (forall i :: 0 <= i < |k.src| && !IsQueued(k, i) ==> NoneOvertaken(k))
    && (forall i :: 0 <= i < |k.src| && !IsPending(k, i) && i !in k.failed ==>
         i in k.frozenDst && Answer(k.src[i], k.frozenDst[i]) in k.answers)
  }

  lemma ResetKeepsOrder(k: Key, epoch: nat)
    ensures OrderOk(ResetKey(k, epoch))
  {
  }

  lemma NewTasksKeepOrder(k: Key, lang: string, news: seq<(nat, string)>, epoch: nat)
    requires OrderOk(k) && Before(k, epoch) && TasksOk(k)
    requires forall i :: 0 <= i < |news| ==> news[i].0 == |k.src| + i
    ensures OrderOk(FreezeSentences(k, lang, news, epoch))
  {
    var n := FreezeSentences(k, lang, news, epoch);
    forall i | |k.src| <= i < |n.src| ensures IsQueued(n, i) && IsPending(n, i) {
      var f := Freeze(news[i - |k.src|].0, Piece(lang, news[i - |k.src|].1), epoch);
      assert f in n.queued && f in Pending(n) && Own(n, f) && f.idx == i;
    }
    forall i | 0 <= i < |k.src| ensures (IsQueued(k, i) ==> IsQueued(n, i)) && (IsPending(k, i) ==> IsPending(n, i)) {
      if IsQueued(k, i) {
        var f :| f in k.queued && Own(k, f) && f.idx == i;
        assert f in n.queued && Own(n, f);
      }
      if IsPending(k, i) {
        var f :| f in Pending(k) && Own(k, f) && f.idx == i;
        assert f in Pending(n) && Own(n, f);
      }
    }
    assert forall i :: 0 <= i < |k.src| ==> n.src[i] == k.src[i];
    forall f | f in Pending(n) && NoneOvertaken(k) ensures Own(n, f) {
      assert f in Pending(k) || f in NewTasks(lang, news, epoch);
    }
  }

  lemma AskKeepsOrder(k: Key, f: Freeze)
    requires OrderOk(k) && TasksOk(k) && f in k.queued && FirstInLine(k, f)
    ensures OrderOk(AskFreeze(k, f))
  {
    var n := AskFreeze(k, f);
    assert Pending(n) == Pending(k);
    assert forall i :: IsPending(n, i) <==> IsPending(k, i);
    forall i | 0 <= i < |n.src| && !IsQueued(n, i) ensures NoneOvertaken(n) {
      if IsQueued(k, i) {
        var g :| g in k.queued && Own(k, g) && g.idx == i;
        if g != f { assert g in n.queued && Own(n, g); }
        assert forall h :: h in Pending(k) && !Own(k, h) ==> Earlier(h, f);
      }
    }
  }

  lemma AnswerKeepsOrder(k: Key, f: Freeze, dst: Option<string>, current: bool)
    requires OrderOk(k) && TasksOk(k) && f in k.asking
    ensures OrderOk(FreezeAnswered(k, f, dst, current))
  {
    hide Assemble;
    var n := FreezeAnswered(k, f, dst, current);
    assert Pending(n) == Pending(k) - {f} && f in Pending(k);
    assert forall i :: IsQueued(n, i) <==> IsQueued(k, i);
    forall i | 0 <= i < |n.src| && !IsPending(n, i) && i !in n.failed
      ensures i in n.frozenDst && Answer(n.src[i], n.frozenDst[i]) in n.answers
    {
      if IsPending(k, i) { PendingElsewhere(k, n, f, i); } else { QueuedIsPending(k, i); }
    }
  }

  lemma PendingElsewhere(k: Key, n: Key, f: Freeze, i: nat)
    requires Pending(n) == Pending(k) - {f} && n.since == k.since && IsPending(k, i)
    ensures IsPending(n, i) || (f.idx == i && Own(k, f))
  {
    var g :| g in Pending(k) && Own(k, g) && g.idx == i;
    assert g == f || (g in Pending(n) && Own(n, g));
  }

  lemma QueuedIsPending(k: Key, i: nat)
    ensures IsQueued(k, i) ==> IsPending(k, i)
  {
    if IsQueued(k, i) {
      var f :| f in k.queued && Own(k, f) && f.idx == i;
      assert f in Pending(k) && Own(k, f);
    }
  }

  lemma SameTasksKeepOrder(k: Key, n: Key)
    requires OrderOk(k) && n.queued == k.queued && n.asking == k.asking && n.src == k.src && n.since == k.since
    requires n.frozenDst == k.frozenDst && n.failed == k.failed && k.answers <= n.answers
    ensures OrderOk(n)
  {
    assert forall i :: (IsQueued(n, i) <==> IsQueued(k, i)) && (IsPending(n, i) <==> IsPending(k, i));
  }

  /** With freezes in order, once none is pending an answer overtaken by a reset
      matters in two places only: after the last sentence, and at a sentence whose
      own freeze failed. Everywhere else the sentence's own answer came later. */
  lemma OnlyTwoPlacesMatter(k: Key, answers: set<Answer>)
    requires OrderOk(k) && Pending(k) == {} && k.answers <= answers
    ensures InStep(k.src, k.frozenDst, answers) <==>
      && |k.src| !in k.frozenDst
      && forall i :: i in k.failed && i < |k.src| && i in k.frozenDst ==> Answer(k.src[i], k.frozenDst[i]) in answers
  {
    assert forall i :: !IsPending(k, i);
  }

  // ------------------------------------------------------ the object

  lemma {:induction false} ContiguousStep(m: map<nat, string>, parts: seq<string>, i: nat)
    requires parts + Contiguous(m, i) == Contiguous(m, 0)
    ensures i in m ==> (parts + [m[i]]) + Contiguous(m, i + 1) == Contiguous(m, 0)
    ensures i !in m ==> parts == Contiguous(m, 0)
  {
    if i in m {
      assert (parts + [m[i]]) + Contiguous(m, i + 1) == parts + ([m[i]] + Contiguous(m, i + 1));
    } else {
      assert parts + [] == parts;
    }
  }

  class KeyState {
    var frozenDst: map<nat, string>
    var queued: set<Freeze>
    var asking: set<Freeze>
    var tails: set<Tail>
    var lastTailSrc: string
    var lastTailDst: string
    var tailVersion: int
    var publishedTailVersion: int
    var finalized: bool
    var published: seq<string>       // payloads handed to publish_fn
    ghost var key: Key               // what these fields and their history are

    ghost predicate Valid()
      reads this
    {
      && key.frozenDst == frozenDst && key.queued == queued && key.asking == asking && key.tails == tails
      && key.lastTailSrc == lastTailSrc && key.lastTailDst == lastTailDst
      && key.tailVersion == tailVersion && key.publishedTailVersion == publishedTailVersion
      && key.finalized == finalized && key.partials == published
    }

    constructor ()
      ensures Valid() && key == NewKey
    {
      frozenDst, queued, asking, tails := map[], {}, {}, {};
      lastTailSrc, lastTailDst, tailVersion, publishedTailVersion := "", "", 0, -1;
      finalized, published, key := false, [], NewKey;
    }

    /** `while i in st.frozen_dst` */
    method AssembleText(tail: string) returns (text: string)
      ensures text == Assemble(frozenDst, tail)
    {
      hide Join;
      var parts: seq<string> := [];
      var i: nat := 0;
      assert [] + Contiguous(frozenDst, 0) == Contiguous(frozenDst, 0);
      while i in frozenDst
        invariant parts + Contiguous(frozenDst, i) == Contiguous(frozenDst, 0)
        decreases Above(frozenDst, i)
      {
        ContiguousStep(frozenDst, parts, i);
        assert i in Above(frozenDst, i) && i !in Above(frozenDst, i + 1);
        parts := parts + [frozenDst[i]];
        i := i + 1;
      }
      ContiguousStep(frozenDst, parts, i);
      if tail != "" { parts := parts + [tail]; } else { assert parts + [] == parts; }
      text := Join(parts);
    }

    /** `all(i in st.frozen_dst for i in range(expected))` */
    method IsComplete(expected: nat) returns (complete: bool)
      ensures complete <==> FrozenComplete(frozenDst, expected)
    {
      for i := 0 to expected
        invariant forall j :: 0 <= j < i ==> j in frozenDst
      {
        if i !in frozenDst { return false; }
      }
      return true;
    }

    method Reset(epoch: nat)
      requires Valid()
      modifies this
      ensures Valid() && key == ResetKey(old(key), epoch)
    {
      frozenDst, tailVersion := map[], tailVersion + 1;
      key := ResetKey(key, epoch);
    }

    /** The loop of `handle_partial` over the newly frozen sentences. */
    method QueueFreezes(lang: string, news: seq<(nat, string)>, epoch: nat)
      requires Valid()
      modifies this`queued, this`key
      ensures Valid() && key == FreezeSentences(old(key), lang, news, epoch)
    {
      for n := 0 to |news|
        invariant queued == old(queued) + NewTasks(lang, news[..n], epoch)
        modifies this`queued
      {
        OneMoreTask(lang, news, epoch, n);
        queued := queued + {Freeze(news[n].0, Piece(lang, news[n].1), epoch)};
      }
      assert news[..|news|] == news;
      key := FreezeSentences(key, lang, news, epoch);
    }

    method Ask(f: Freeze)
      requires Valid() && f in queued
      modifies this`queued, this`asking, this`key
      ensures Valid() && key == AskFreeze(old(key), f)
    {
      queued, asking := queued - {f}, asking + {f};
      key := AskFreeze(key, f);
    }

    /** `_freeze_and_publish` after its await. */
    method OnFreezeAnswered(f: Freeze, dst: Option<string>, current: bool)
      requires Valid() && f in asking
      modifies this
      ensures Valid() && key == FreezeAnswered(old(key), f, dst, current)
    {
      hide Assemble;
      asking := asking - {f};
      if dst.Some? {
        frozenDst := frozenDst[f.idx := dst.value];
        if current && !finalized {
          var text := AssembleText(lastTailDst);
          published := published + [text];
        }
      }
      key := FreezeAnswered(key, f, dst, current);
    }

    /** The tail callback. */
    method OnTailAnswered(t: Tail, dst: Option<string>, current: bool, show: bool)
      requires Valid() && t in tails
      modifies this
      ensures Valid() && key == TailAnswered(old(key), t, dst, current, show)
    {
      hide Assemble;
      tails := tails - {t};
      if dst.Some? {
        lastTailSrc, lastTailDst := t.piece.text, dst.value;
        if current && !finalized && t.version > publishedTailVersion && t.version >= tailVersion && show {
          var text := AssembleText(dst.value);
          published, publishedTailVersion := published + [text], t.version;
        }
      }
      key := TailAnswered(key, t, dst, current, show);
    }
  }

  lemma OneMoreTask(lang: string, news: seq<(nat, string)>, epoch: nat, n: nat)
    requires n < |news|
    ensures NewTasks(lang, news[..n + 1], epoch) ==
      NewTasks(lang, news[..n], epoch) + {Freeze(news[n].0, Piece(lang, news[n].1), epoch)}
  {
    var f := Freeze(news[n].0, Piece(lang, news[n].1), epoch);
    forall g | g in NewTasks(lang, news[..n], epoch) + {f} ensures g in NewTasks(lang, news[..n + 1], epoch) {
      if g == f { assert news[..n + 1][n] == news[n]; }
      else {
        var i :| 0 <= i < n && g == Freeze(news[..n][i].0, Piece(lang, news[..n][i].1), epoch);
        assert news[..n + 1][i] == news[..n][i];
      }
    }
  }
}
