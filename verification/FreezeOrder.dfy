/** TranslatorPython/translator/pipeline.py:301-338 and 534-540 together with the
    per-key lock of scheduler.py:70-75: which translations overtaken by an
    assembler reset a final can still meet when the lock lets the freezes of a
    key state through one at a time, in the order they were created. */
module FreezeOrder {
  import opened Options
  import opened KeyStates
  import opened Pipelines
  import A = Assembler

  /** The lock lets the task through only when it is its turn. */
  ghost predicate InOrder(s: State, e: Event) {
    e.Ask? && e.id in s.heap ==> FirstInLine(s.heap[e.id], e.f)
  }

  ghost predicate OrderedRun(cfg: Config, es: seq<Event>) {
    forall n :: 0 <= n < |es| && Exec(cfg, es[..n]).Some? ==> InOrder(Exec(cfg, es[..n]).value, es[n])
  }

  ghost predicate KeysInOrder(s: State) { forall id :: id in s.heap ==> OrderOk(s.heap[id]) }

  lemma NewKeyInOrder()
    ensures OrderOk(NewKey)
  {
  }

  /** One target's share of a partial. */
  lemma FedInOrder(cfg: Config, s: State, e: Event, l: Lang)
    requires Inv(cfg, s) && KeysInOrder(s) && e.Partial? && Enabled(s, e) && l in cfg.targets
    ensures var out := A.Updated(e.pysbd, cfg.soft, AsmBefore(s, e.segment), e.piece.text).1;
            OrderOk(Fed(cfg, s, Id(l, Table(cfg, s, e.segment)[l]), e, out))
  {
    hide A.Updated, A.Sound, A.Base, Table, OrderOk, FinalsOk, TextsOf, Assemble;
    hide TasksOk, TasksClean, AskedOk, FrozenOk, NoFlicker, TailOk, A.Spells;
    var asm := AsmBefore(s, e.segment);
    var out := A.Updated(e.pysbd, cfg.soft, asm, e.piece.text).1;
    TableKeys(cfg, s, e.segment);
    var id := Id(l, Table(cfg, s, e.segment)[l]);
    TableEntry(cfg, s, e.segment, l);
    A.UpdateAppends(e.pysbd, cfg.soft, asm, e.piece.text);
    var k := if id in s.heap then s.heap[id] else NewKey;
    NewKeyInOrder();
    NewKeyOk(cfg.tailLive);
    var k1 := if out.reset then ResetKey(k, s.epoch) else k;
    if out.reset { ResetKeyOk(k, s.epoch, cfg.tailLive); ResetKeepsOrder(k, s.epoch); }
    NewTasksKeepOrder(k1, e.piece.lang, out.newlyFrozen, s.epoch);
    var k2 := FreezeSentences(k1, e.piece.lang, out.newlyFrozen, s.epoch);
    SameTasksKeepOrder(k2, Fed(cfg, s, id, e, out));
  }

  lemma KeyEventInOrder(cfg: Config, s: State, e: Event)
    requires Inv(cfg, s) && KeysInOrder(s) && KeyEvent(e) && KeyEnabled(s, e) && InOrder(s, e)
    ensures OrderOk(AfterKeyEvent(s, e))
  {
    hide OrderOk, FinalsOk, Linked, Dated, TasksOk, AskedOk, FrozenOk, NoFlicker, TailOk, Assemble, FirstInLine;
    var k := s.heap[e.id];
    assert KeyOk(k, cfg.tailLive);
    match e
    case Ask(_, f) => AskKeepsOrder(k, f);
    case FreezeDone(id, f, dst) => AnswerKeepsOrder(k, f, dst, Current(s, id));
    case TailDone(_, _, _, _) => SameTasksKeepOrder(k, AfterKeyEvent(s, e));
    case TailDropped(_, _) => SameTasksKeepOrder(k, AfterKeyEvent(s, e));
  }

  lemma NextInOrder(cfg: Config, s: State, e: Event)
    requires Inv(cfg, s) && KeysInOrder(s) && Enabled(s, e) && InOrder(s, e)
    ensures KeysInOrder(Next(cfg, s, e))
  {
    hide OrderOk, Inv, Fed, AfterKeyEvent, Decided, FinalAnswered, A.Updated, A.Sound, Table, InOrder;
    var n := Next(cfg, s, e);
    forall id | id in n.heap ensures OrderOk(n.heap[id]) {
      if e.Partial? {
        TableKeys(cfg, s, e.segment);
        if id in Ids(Table(cfg, s, e.segment)) { FedInOrder(cfg, s, e, id.lang); }
      } else if e.FinalArrives? {
        SameTasksKeepOrder(s.heap[id], n.heap[id]);
      } else if KeyEvent(e) {
        KeyEventInOrder(cfg, s, e);
      }
    }
  }

  lemma {:induction false} ExecInOrder(cfg: Config, es: seq<Event>)
    ensures Exec(cfg, es).Some? && OrderedRun(cfg, es) ==> KeysInOrder(Exec(cfg, es).value)
  {
    hide Inv, Enabled, Next, InOrder, OrderOk;
    if Exec(cfg, es).Some? && OrderedRun(cfg, es) && es != [] {
      var rest, last := es[..|es| - 1], es[|es| - 1];
      forall n | 0 <= n < |rest| ensures rest[..n] == es[..n] && rest[n] == es[n] {}
      ExecInOrder(cfg, rest);
      ExecInv(cfg, rest);
      NextInOrder(cfg, Exec(cfg, rest).value, last);
    }
  }

  // ------------------------------------------------------ the theorem

  /** A translation overtaken by a reset stands where the final will read it: right
      after the last sentence, or at a sentence whose own freeze failed. */
  ghost predicate Overtaken(k: Key, answers: set<Answer>) {
    || |k.src| in k.frozenDst
    || exists i :: i in k.failed && i < |k.src| && i in k.frozenDst && Answer(k.src[i], k.frozenDst[i]) !in answers
  }

  /** In every run with freezes in order, whatever resets and failures: once a key
      state has nothing pending, its translations are in step unless an overtaken
      one stands in one of these two places. Elsewhere the sentence's own
      translation came later and replaced it. */
  lemma InStepUnlessOvertaken(cfg: Config, es: seq<Event>, id: Id, answers: set<Answer>)
    ensures var run := Exec(cfg, es);
            run.Some? && OrderedRun(cfg, es) && id in run.value.heap && Pending(run.value.heap[id]) == {} &&
            run.value.heap[id].answers <= answers ==>
              var k := run.value.heap[id];
              InStep(k.src, k.frozenDst, answers) <==> !Overtaken(k, answers)
  {
    hide Exec, OrderOk, InStep, OrderedRun;
    var run := Exec(cfg, es);
    if run.Some? && OrderedRun(cfg, es) && id in run.value.heap && Pending(run.value.heap[id]) == {} &&
      run.value.heap[id].answers <= answers
    {
      ExecInOrder(cfg, es);
      OnlyTwoPlacesMatter(run.value.heap[id], answers);
    }
  }

  lemma NoFailures(k: Key, answers: set<Answer>)
    ensures k.failed == {} ==> (Overtaken(k, answers) <==> |k.src| in k.frozenDst)
  {
  }

  /** So in every run with freezes in order, the event that publishes a reassembled
      final publishes translations in step with its sentences exactly when no
      overtaken one stands there; without a failed freeze, exactly when none
      stands right after the last sentence. */
  lemma ReuseIsInStepUnlessOvertaken(cfg: Config, es: seq<Event>, e: Event)
    ensures var run := Exec(cfg, es);
            run.Some? && OrderedRun(cfg, es) && (e.Decide? || e.FinalDone?) && Enabled(run.value, e) ==>
              var n := Next(cfg, run.value, e);
              var fin := n.finals[e.j];
              fin.phase.Published? && !fin.phase.path.Retranslated? ==>
                fin.key.Some? && fin.key.value in n.heap &&
                var k := n.heap[fin.key.value];
                && (ReadsInStep(n.heap, fin) <==> !Overtaken(k, fin.answers))
                && (k.failed == {} ==> (ReadsInStep(n.heap, fin) <==> |k.src| !in k.frozenDst))
  {
    hide Exec, InStep, OrderedRun, Overtaken, KeysOk, Linked, Dated, FinalsOk, Faithful;
    hide Assemble, FrozenComplete, KeyCost, Once;
    var run := Exec(cfg, es);
    if run.Some? && OrderedRun(cfg, es) && (e.Decide? || e.FinalDone?) && Enabled(run.value, e) {
      var n := Next(cfg, run.value, e);
      var fin := n.finals[e.j];
      if fin.phase.Published? && !fin.phase.path.Retranslated? {
        ExecInv(cfg, es);
        NextKeepsInv(cfg, run.value, e);
        PublishedIsReassembled(n, e.j, cfg);
        PublishedFrom(cfg, run.value, e);
        InStepUnlessOvertaken(cfg, es, fin.key.value, fin.answers);
        NoFailures(n.heap[fin.key.value], fin.answers);
      }
    }
  }

  lemma PublishedIsReassembled(s: State, j: Id, cfg: Config)
    requires Inv(cfg, s) && j in s.finals
    ensures Reassembled(s.heap, s.finals[j])
  {
    hide Faithful, Linear, Snapshot, RemainderOk, Reassembled;
    assert FinalOk(s.heap, s.finals[j]);
  }

  /** The key state is untouched, and all its answers are the final's. */
  lemma PublishedFrom(cfg: Config, s: State, e: Event)
    requires (e.Decide? || e.FinalDone?) && Enabled(s, e)
    requires var fin := Next(cfg, s, e).finals[e.j]; fin.phase.Published? && !fin.phase.path.Retranslated?
    ensures Next(cfg, s, e).heap == s.heap
    ensures var fin := Next(cfg, s, e).finals[e.j];
            fin.key.Some? && fin.key.value in s.heap ==> s.heap[fin.key.value].answers <= fin.answers
  {
    hide Assemble, FrozenComplete;
  }
}
