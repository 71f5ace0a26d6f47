/** TranslatorPython/translator/pipeline.py:301-309: an assembler reset while
    freeze tasks are pending. The reset empties `frozen_dst`, but the tasks of
    the forgotten sentences still write at their old index when they are
    answered. One run shows what a final can then publish; FreezeOrder says in
    which two places such an answer matters. The texts are in a language pySBD
    does not know, so that the regex fallback segments them. */
module ResetRace {
  import opened Options
  import opened Text
  import opened KeyStates
  import opened Pipelines
  import opened FreezeOrder
  import A = Assembler

  const Cfg := Config({"en"}, 220, false)
  const Two := "A. B."
  const One := "C."
  const TwoSpans := [A.Span(0, 3), A.Span(3, 5)]
  const OneSpan := [A.Span(0, 2)]
  const Born := Id("en", 0)
  const F0 := Freeze(0, Piece("pt", "A."), 0)
  const F1 := Freeze(1, Piece("pt", "B."), 0)
  const G0 := Freeze(0, Piece("pt", "C."), 1)

  lemma Stripped()
    ensures Strip(Python, "A. ") == "A." && Strip(Python, "B.") == "B." && Strip(Python, "C.") == "C."
  {
    assert "A. "[..2] == "A.";
    assert StripRight(Python, "A. ") == "A.";
  }

  /** A text that ends a sentence is frozen to its end. */
  lemma AllComplete(s: string, spans: seq<A.Span>)
    requires A.FallbackSpans(s, 0, 0, 0) == spans
    requires A.Covers(s, 0, spans) && A.EndsSentence(s, spans[|spans| - 1].start) && !A.BlankRange(s, 0, |s|)
    ensures A.Freeze(None, 220, s, 0) == (A.Sentences(s, 0, spans, |spans|), |s|)
    ensures A.TailText(s, 0, |s|) == ""
  {
    hide A.Covers, A.EndsSentence, A.BlankRange, A.Sentences, A.FallbackSpans;
    A.CoversInside(s, 0, spans);
    assert s[|s|..] == "" && StripLeft(Python, "") == "";
    var sentences := A.Sentences(s, 0, spans, |spans|);
    assert sentences + [] == sentences;
  }

  /** The regex fallback cuts after "A. " only: it needs whitespace after the mark. */
  lemma FallbackCuts()
    ensures A.FallbackSpans(Two, 0, 0, 0) == TwoSpans && A.FallbackSpans(One, 0, 0, 0) == OneSpan
  {
    assert A.BoundaryAt(Two, 0, 1) && A.BoundaryEnd(Two, 0, 1) == 3;
    assert A.FallbackSpans(Two, 0, 3, 5) == [A.Span(3, 5)];
    assert A.FallbackSpans(Two, 0, 3, 4) == [A.Span(3, 5)];
    assert A.FallbackSpans(Two, 0, 3, 3) == [A.Span(3, 5)];
    assert A.FallbackSpans(Two, 0, 0, 1) == TwoSpans;
    assert A.FallbackSpans(One, 0, 0, 2) == OneSpan;
    assert A.FallbackSpans(One, 0, 0, 1) == OneSpan;
  }

  lemma TwoAreCovered()
    ensures A.Covers(Two, 0, TwoSpans) && A.EndsSentence(Two, 3) && !A.BlankRange(Two, 0, |Two|)
  {
    assert A.EndsAt(Two, 3, 4);
    assert !A.Space(Two[0]);
  }

  lemma TwoAreKept()
    requires A.Inside(Two, 0, TwoSpans)
    ensures A.Sentences(Two, 0, TwoSpans, 2) == ["A.", "B."]
  {
    hide Strip;
    Stripped();
    assert Two[0..3] == "A. " && Two[3..5] == "B.";
    assert A.Sentences(Two, 0, TwoSpans, 1) == ["A."];
  }

  lemma TwoSentences()
    ensures A.Sound(None, Two, A.Base(A.Empty, Two))
    ensures A.Updated(None, 220, A.Empty, Two) ==
      (A.Frozen(["A.", "B."], Two), A.Outcome([(0, "A."), (1, "B.")], "", false))
  {
    hide Strip, A.Freeze, A.TailText, A.Covers, A.EndsSentence, A.BlankRange, A.Sentences, A.FallbackSpans;
    FallbackCuts();
    TwoAreCovered();
    A.CoversInside(Two, 0, TwoSpans);
    TwoAreKept();
    AllComplete(Two, TwoSpans);
    assert A.Empty.sentences + ["A.", "B."] == ["A.", "B."] && Two[..5] == Two;
    assert A.Numbered(0, ["A.", "B."]) == [(0, "A."), (1, "B.")];
  }

  lemma OneSentence()
    ensures var before := A.Frozen(["A.", "B."], Two);
            && A.Sound(None, One, A.Base(before, One))
            && A.Updated(None, 220, before, One) == (A.Frozen(["C."], One), A.Outcome([(0, "C.")], "", true))
  {
    hide Strip, A.Freeze, A.TailText, A.FallbackSpans;
    Stripped();
    assert One[0..2] == "C.";
    assert A.EndsAt(One, 0, 1);
    assert !A.Space(One[0]) && !(Two <= One);
    assert A.Sentences(One, 0, OneSpan, 1) == ["C."];
    FallbackCuts();
    AllComplete(One, OneSpan);
    assert A.Empty.sentences + ["C."] == ["C."] && One[..2] == One;
    assert A.Numbered(0, ["C."]) == [(0, "C.")];
  }

  /** One more event of a run. */
  lemma Then(es: seq<Event>, s: State, e: Event)
    requires Exec(Cfg, es) == Some(s) && OrderedRun(Cfg, es) && Enabled(s, e) && InOrder(s, e)
    ensures Exec(Cfg, es + [e]) == Some(Next(Cfg, s, e)) && OrderedRun(Cfg, es + [e])
  {
    hide Enabled, Next, InOrder, Exec;
    OneMore(es, s, e);
    forall n | 0 <= n < |es + [e]| && Exec(Cfg, (es + [e])[..n]).Some?
      ensures InOrder(Exec(Cfg, (es + [e])[..n]).value, (es + [e])[n]) {
      assert (es + [e])[..n] == es[..n];
      if n == |es| { assert es[..n] == es; }
    }
  }

  lemma OneMore(es: seq<Event>, s: State, e: Event)
    requires Exec(Cfg, es) == Some(s) && Enabled(s, e)
    ensures Exec(Cfg, es + [e]) == Some(Next(Cfg, s, e))
  {
    hide Enabled, Next;
    assert (es + [e])[..|es|] == es;
  }

  const Fed1 := NewKey.(queued := {F0, F1}, src := [F0.piece, F1.piece], asked := [0, 0])
  const Reset1 := NewKey.(queued := {F0, F1, G0}, tailVersion := 1, src := [G0.piece], asked := [0], since := 1,
    wasReset := true, dirty := true)

  const S1 := State(Some(Channel(1, A.Frozen(["A.", "B."], Two))), map["en" := 0], map[Born := Fed1], map[], 1)
  const S2 := State(Some(Channel(1, A.Frozen(["C."], One))), map["en" := 0], map[Born := Reset1], map[], 2)

  lemma FirstPartial()
    ensures var e := Partial(1, Piece("pt", Two), None, {});
            Enabled(Init, e) && Next(Cfg, Init, e) == S1
  {
    hide A.Updated, A.Sound;
    TwoSentences();
    var e := Partial(1, Piece("pt", Two), None, {});
    var table := Table(Cfg, Init, 1);
    assert table == map["en" := 0];
    assert table.Keys == {"en"} && Ids(table) == {Born} by { assert "en" in table && Id("en", table["en"]) == Born; }
    var out := A.Outcome([(0, "A."), (1, "B.")], "", false);
    assert NewTasks("pt", out.newlyFrozen, 0) == {F0, F1} by {
      assert out.newlyFrozen[0] == (0, "A.") && out.newlyFrozen[1] == (1, "B.");
    }
    assert Fed(Cfg, Init, Born, e, out) == Fed1;
    assert Next(Cfg, Init, e).heap == S1.heap;
  }

  lemma SecondPartial()
    ensures var e := Partial(1, Piece("pt", One), None, {});
            Enabled(S1, e) && Next(Cfg, S1, e) == S2
  {
    hide A.Updated, A.Sound;
    OneSentence();
    var e := Partial(1, Piece("pt", One), None, {});
    var table := Table(Cfg, S1, 1);
    assert table == map["en" := 0];
    assert table.Keys == {"en"} && Ids(table) == {Born} by { assert "en" in table && Id("en", table["en"]) == Born; }
    var out := A.Outcome([(0, "C.")], "", true);
    assert NewTasks("pt", out.newlyFrozen, 1) == {G0} by {
      assert out.newlyFrozen[0] == (0, "C.");
    }
    assert Fed(Cfg, S1, Born, e, out) == Reset1;
    assert Next(Cfg, S1, e).heap == S2.heap;
  }

  /** The provider echoes the three sentences in the order the per-key lock
      imposes; the two forgotten ones answer first. */
  const Answers := {Answer(F0.piece, "A."), Answer(F1.piece, "B."), Answer(G0.piece, "C.")}
  const Answered := NewKey.(frozenDst := map[0 := "C.", 1 := "B."], tailVersion := 1,
    partials := ["A.", "A. B.", "C. B."], src := [G0.piece], asked := [1], answers := Answers, since := 1,
      wasReset := true, dirty := true)

  lemma Assembled()
    ensures Assemble(map[0 := "A."], "") == "A."
    ensures Assemble(map[0 := "A.", 1 := "B."], "") == "A. B."
    ensures Assemble(map[0 := "C.", 1 := "B."], "") == "C. B."
  {
    assert Contiguous(map[0 := "A."], 1) == [];
    assert Contiguous(map[0 := "A.", 1 := "B."], 2) == [];
    assert Contiguous(map[0 := "A.", 1 := "B."], 1) == ["B."];
    assert Contiguous(map[0 := "C.", 1 := "B."], 2) == [];
    assert Contiguous(map[0 := "C.", 1 := "B."], 1) == ["B."];
    assert Contiguous(map[0 := "A."], 0) + [] == ["A."];
    assert Contiguous(map[0 := "A.", 1 := "B."], 0) + [] == ["A.", "B."];
    assert Contiguous(map[0 := "C.", 1 := "B."], 0) + [] == ["C.", "B."];
    assert ["A.", "B."][1..] == ["B."] && ["C.", "B."][1..] == ["B."];
    assert Join(["A.", "B."]) == "A. B." && Join(["C.", "B."]) == "C. B.";
  }

  /** One freeze is asked and echoed while its key state is the current one. */
  function Echoed(k: Key, f: Freeze): Key
    requires f in k.queued
  {
    FreezeAnswered(AskFreeze(k, f), f, Some(f.piece.text), true)
  }

  const After0 := Reset1.(queued := {F1, G0}, frozenDst := map[0 := "A."], partials := ["A."],
    answers := {Answer(F0.piece, "A.")})
  const After1 := After0.(queued := {G0}, frozenDst := map[0 := "A.", 1 := "B."], partials := ["A.", "A. B."],
    answers := {Answer(F0.piece, "A."), Answer(F1.piece, "B.")})

  lemma FirstEchoed()
    ensures Echoed(Reset1, F0) == After0
  {
    hide Assemble;
    Assembled();
    assert Reset1.queued - {F0} == {F1, G0} && map[][0 := "A."] == map[0 := "A."];
    assert [] + ["A."] == ["A."];
  }

  lemma SecondEchoed()
    ensures Echoed(After0, F1) == After1
  {
    hide Assemble;
    Assembled();
    assert After0.queued - {F1} == {G0} && map[0 := "A."][1 := "B."] == map[0 := "A.", 1 := "B."];
    assert ["A."] + ["A. B."] == ["A.", "A. B."];
  }

  lemma ThirdEchoed()
    ensures Echoed(After1, G0) == Answered
  {
    hide Assemble;
    Assembled();
    assert After1.queued - {G0} == {} && map[0 := "A.", 1 := "B."][0 := "C."] == map[0 := "C.", 1 := "B."];
    assert ["A.", "A. B."] + ["C. B."] == ["A.", "A. B.", "C. B."];
  }

  /** After the two partials, with this key state. */
  function With(k: Key): State { S2.(heap := map[Born := k]) }

  lemma WithAnother(k: Key, l: Key)
    ensures Current(With(k), Born) && With(k).(heap := With(k).heap[Born := l]) == With(l)
  {
    assert map[Born := k][Born := l] == map[Born := l];
  }

  /** A task of the current key state is asked, then echoed. */
  lemma ThenEchoed(es: seq<Event>, s: State, f: Freeze)
    requires Exec(Cfg, es) == Some(s) && OrderedRun(Cfg, es)
    requires Current(s, Born) && Born in s.heap && f in s.heap[Born].queued && FirstInLine(s.heap[Born], f)
    ensures var fs := es + [Ask(Born, f), FreezeDone(Born, f, Some(f.piece.text))];
            && Exec(Cfg, fs) == Some(s.(heap := s.heap[Born := Echoed(s.heap[Born], f)]))
            && OrderedRun(Cfg, fs)
  {
    hide Exec, FreezeAnswered, OrderedRun, FirstInLine;
    var t, e := s.(heap := s.heap[Born := AskFreeze(s.heap[Born], f)]), FreezeDone(Born, f, Some(f.piece.text));
    Then(es, s, Ask(Born, f));
    Then(es + [Ask(Born, f)], t, e);
    assert AfterKeyEvent(t, e) == Echoed(s.heap[Born], f);
    assert t.heap[Born := Echoed(s.heap[Born], f)] == s.heap[Born := Echoed(s.heap[Born], f)];
    assert es + [Ask(Born, f)] + [FreezeDone(Born, f, Some(f.piece.text))] ==
      es + [Ask(Born, f), FreezeDone(Born, f, Some(f.piece.text))];
  }

  const Task := Id("en", 2)
  const Finalized := Answered.(finalized := true)
  const Waits := Final(Some(Born), G0.piece, ["C."], One, Waiting, [], None, {})
  const S3 := State(None, map[], map[Born := Finalized], map[Task := Waits], 3)

  lemma FinalComes()
    ensures Next(Cfg, With(Answered), FinalArrives(G0.piece)) == S3
  {
    var s := With(Answered);
    var n := Next(Cfg, s, FinalArrives(G0.piece));
    var popped := map l | l in s.states && l in Cfg.targets :: s.states[l];
    assert Ids(popped) == {Born} by { assert "en" in popped && Id("en", popped["en"]) == Born; }
    assert (set l | l in Cfg.targets :: Id(l, s.epoch)) == {Task} by { assert "en" in Cfg.targets; }
    assert n.states == map[] && n.finals == map[Task := Waits] && n.heap == S3.heap;
  }

  lemma NothingRemaining()
    ensures Remainder(Waits) == Some("")
  {
    hide Words;
    EraseWords(Python, One);
    assert Erase(Python, One) == One;
    var w := Words(Python, One);
    assert w <= w && w[|w|..] == [];
  }

  /** The final text was published with a sentence it does not contain, by an echo provider. */
  ghost predicate Spoiled(s: State) {
    && Task in s.finals
    && s.finals[Task].piece.text == "C."
    && s.finals[Task].phase == Published("C. B.", Reused)
    && (forall a :: a in s.finals[Task].answers ==> a.dst == a.piece.text)
    && !ReadsInStep(s.heap, s.finals[Task])
    && !Faithful(s.finals[Task].answers, s.finals[Task].frozenSrc, s.finals[Task].piece, "C. B.")
  }

  /** The run, with freezes in order: two sentences, then a text that revokes them, all three echoed in
      order, then the final. No request fails, yet the published final holds the
      second revoked sentence. */
  lemma LateAnswerSpoilsFinal()
    ensures exists es: seq<Event>, s: State :: Exec(Cfg, es) == Some(s) && OrderedRun(Cfg, es) && Spoiled(s)
  {
    hide Enabled, Next, OrderedRun, FirstInLine, Spoiled;
    NothingYet();
    InLine();
    WithAnother(Reset1, After0);
    WithAnother(After0, After1);
    WithAnother(After1, Answered);
    FirstPartial();
    SecondPartial();
    FirstEchoed();
    SecondEchoed();
    ThirdEchoed();
    var p1, p2 := Partial(1, Piece("pt", Two), None, {}), Partial(1, Piece("pt", One), None, {});
    Then([], Init, p1);
    Then([] + [p1], S1, p2);
    var e0 := [] + [p1] + [p2];
    assert With(Reset1) == S2;
    ThenEchoed(e0, With(Reset1), F0);
    var e1 := e0 + [Ask(Born, F0), FreezeDone(Born, F0, Some(F0.piece.text))];
    ThenEchoed(e1, With(After0), F1);
    var e2 := e1 + [Ask(Born, F1), FreezeDone(Born, F1, Some(F1.piece.text))];
    ThenEchoed(e2, With(After1), G0);
    var e3 := e2 + [Ask(Born, G0), FreezeDone(Born, G0, Some(G0.piece.text))];
    LateAnswerPublished(e3);
  }

  lemma NothingYet()
    ensures Exec(Cfg, []) == Some(Init) && OrderedRun(Cfg, [])
  {
  }

  /** Each task is asked in its turn. */
  lemma InLine()
    ensures FirstInLine(Reset1, F0) && FirstInLine(After0, F1) && FirstInLine(After1, G0)
  {
  }

  lemma LateAnswerPublished(es: seq<Event>)
    requires Exec(Cfg, es) == Some(With(Answered)) && OrderedRun(Cfg, es)
    ensures exists fs: seq<Event>, s: State :: Exec(Cfg, fs) == Some(s) && OrderedRun(Cfg, fs) && Spoiled(s)
  {
    hide Exec, Remainder, Assemble, ReadsInStep, Faithful, OrderedRun, Decided, DecideEnabled;
    var s := With(Answered);
    FinalComes();
    Then(es, s, FinalArrives(G0.piece));
    Reusing();
    Then(es + [FinalArrives(G0.piece)], S3, Decide(Task));
    var n := Next(Cfg, S3, Decide(Task));
    OutOfStep(n.heap);
    Unfaithful();
    assert Exec(Cfg, es + [FinalArrives(G0.piece)] + [Decide(Task)]) == Some(n);
  }

  lemma Reusing()
    ensures DecideEnabled(S3, Task) && Decided(S3, Task) == Spoilt
  {
    hide Remainder, Assemble;
    NothingRemaining();
    Assembled();
    SameWords(Waits, Waits.(cached := Spoilt.cached));
    assert Pending(Finalized) == {};
    assert FrozenComplete(Finalized.frozenDst, 1);
  }

  const Spoilt := Waits.(cached := Some(Answer(Piece("", ""), "")), phase := Published("C. B.", Reused),
    answers := Answers)

  lemma OutOfStep(heap: map<Id, Key>)
    requires Born in heap && heap[Born] == Finalized
    ensures !ReadsInStep(heap, Spoilt)
  {
    assert |Finalized.src| == 1 && 1 in Finalized.frozenDst;
  }

  lemma Unfaithful()
    ensures !Faithful(Answers, ["C."], G0.piece, "C. B.")
  {
    hide Join;
    assert |Erase(Python, "C. B.")| == 4 && |Erase(Python, "C.")| == 2;
    if Faithful(Answers, ["C."], G0.piece, "C. B.") {
      EchoPublishesTheFinalText(Answers, ["C."], G0.piece, "C. B.");
    }
  }
}
