/** TranslatorPython/translator/pipeline.py: when a partial translation is shown.
    The guards of the two completion handlers, seen from the whole pipeline: a
    freeze is shown exactly when its key state is the one in use, a tail exactly
    when it is also the last one submitted. */
module Publications {
  import opened Options
  import opened Text
  import opened KeyStates
  import opened Pipelines
  import F = SentenceFreezing
  import A = Assembler

  // ------------------------------------------------------ invariant

  /** Tails are numbered as they are submitted, and the last published one is done. */
  ghost predicate TailsNumbered(k: Key) {
    && k.publishedTailVersion <= k.tailVersion
    && (forall t :: t in k.tails ==> t.version <= k.tailVersion && t.version != k.publishedTailVersion)
    && (forall t, u :: t in k.tails && u in k.tails && t.version == u.version ==> t == u)
    && (forall t :: t in k.tails ==> t.version > 0)
    && k.tailVersion >= 0 && (k.publishedTailVersion == -1 || k.publishedTailVersion > 0)
  }

  /** The last partial shown is everything translated so far. */
  ghost predicate ShowsAll(k: Key) {
    if k.partials == [] then k.frozenDst == map[]
    else k.partials[|k.partials| - 1] == Assemble(k.frozenDst, "")
  }

  ghost predicate Shown(cfg: Config, s: State) {
    && (forall id :: id in s.heap ==> TailsNumbered(s.heap[id]))
    && (forall id :: id in s.heap && Current(s, id) && !cfg.tailLive && !s.heap[id].wasReset ==> ShowsAll(s.heap[id]))
  }

  // ------------------------------------------------------ steps of one key state

  lemma TailsStayNumbered(cfg: Config, s: State, e: Event)
    requires KeyEvent(e) && KeyEnabled(s, e) && TailsNumbered(s.heap[e.id])
    ensures TailsNumbered(AfterKeyEvent(s, e))
    ensures AfterKeyEvent(s, e).tailVersion == s.heap[e.id].tailVersion
    ensures AfterKeyEvent(s, e).tails <= s.heap[e.id].tails
  {
    hide Assemble;
  }

  /** What one partial does to the tails of a target: a reset voids the submitted
      ones, and a new one voids the rest. */
  lemma FedTails(cfg: Config, s: State, id: Id, e: Event, out: A.Outcome)
    requires e.Partial? && (id in s.heap ==> TailsNumbered(s.heap[id]))
    ensures var k, n := if id in s.heap then s.heap[id] else NewKey, Fed(cfg, s, id, e, out);
            var live := cfg.tailLive && out.tail != "" && id.lang !in e.skip;
            && TailsNumbered(n)
            && n.tails == k.tails + (if live then {Tail(n.tailVersion, Piece(e.piece.lang, out.tail))} else {})
            && (out.reset || live ==> forall t :: t in k.tails ==> t.version < n.tailVersion)
            && k.tailVersion <= n.tailVersion
            && n.partials == k.partials
  {
  }

  lemma FedShowsAll(cfg: Config, s: State, id: Id, e: Event, out: A.Outcome)
    requires e.Partial? && !cfg.tailLive && !Fed(cfg, s, id, e, out).wasReset
    requires id in s.heap && !s.heap[id].wasReset ==> ShowsAll(s.heap[id])
    ensures ShowsAll(Fed(cfg, s, id, e, out))
  {
  }

  lemma AnswerShowsAll(s: State, e: Event, tailLive: bool)
    requires KeyEvent(e) && KeyEnabled(s, e) && KeyOk(s.heap[e.id], tailLive) && !tailLive && ShowsAll(s.heap[e.id])
    requires Current(s, e.id) && !s.heap[e.id].finalized
    ensures ShowsAll(AfterKeyEvent(s, e))
  {
    hide Assemble, TasksOk, AskedOk, Covered, FrozenOk, NoFlicker;
  }

  // ------------------------------------------------------ every run

  lemma PartialKeepsShown(cfg: Config, s: State, e: Event)
    requires Inv(cfg, s) && Shown(cfg, s) && e.Partial? && Enabled(s, e)
    ensures Shown(cfg, Next(cfg, s, e))
  {
    hide A.Updated, A.Sound, Fed, Table, TailsNumbered, ShowsAll, KeysOk, FinalsOk, Linked, Dated;
    var n := Next(cfg, s, e);
    var out := A.Updated(e.pysbd, cfg.soft, AsmBefore(s, e.segment), e.piece.text).1;
    TableKeys(cfg, s, e.segment);
    forall id | id in n.heap
      ensures TailsNumbered(n.heap[id])
      ensures Current(n, id) && !cfg.tailLive && !n.heap[id].wasReset ==> ShowsAll(n.heap[id])
    {
      if id in Ids(Table(cfg, s, e.segment)) {
        TableEntry(cfg, s, e.segment, id.lang);
        FedTails(cfg, s, id, e, out);
        if !cfg.tailLive && !n.heap[id].wasReset { FedShowsAll(cfg, s, id, e, out); }
      }
    }
  }

  lemma KeyEventKeepsShown(cfg: Config, s: State, e: Event)
    requires Inv(cfg, s) && Shown(cfg, s) && KeyEvent(e) && Enabled(s, e)
    ensures Shown(cfg, Next(cfg, s, e))
  {
    hide AfterKeyEvent, TailsNumbered, ShowsAll, KeyOk, FinalsOk, TextsOf, A.Spells;
    TailsStayNumbered(cfg, s, e);
    KeyEventResets(s, e);
    if Current(s, e.id) && !cfg.tailLive && !s.heap[e.id].wasReset {
      AnswerShowsAll(s, e, cfg.tailLive);
    }
  }

  lemma KeyEventResets(s: State, e: Event)
    requires KeyEvent(e) && KeyEnabled(s, e)
    ensures AfterKeyEvent(s, e).wasReset == s.heap[e.id].wasReset
  {
    hide Assemble;
  }

  /** Events of finals change neither tails nor partials. */
  lemma FinalsKeepShown(cfg: Config, s: State, n: State)
    requires Shown(cfg, s) && forall id :: Current(n, id) ==> Current(s, id)
    requires forall id :: id in n.heap ==> id in s.heap && n.heap[id] == s.heap[id].(finalized := n.heap[id].finalized)
    ensures Shown(cfg, n)
  {
    hide Assemble;
  }

  lemma NextKeepsShown(cfg: Config, s: State, e: Event)
    requires Inv(cfg, s) && Shown(cfg, s) && Enabled(s, e)
    ensures Shown(cfg, Next(cfg, s, e))
  {
    hide Inv, Shown, AfterPartial, AfterKeyEvent, KeyEnabled, Decided, FinalAnswered, A.Sound;
    match e
    case Partial(_, _, _, _) => PartialKeepsShown(cfg, s, e);
    case FinalArrives(_) => FinalsKeepShown(cfg, s, Next(cfg, s, e));
    case Decide(_) => FinalsKeepShown(cfg, s, Next(cfg, s, e));
    case FinalDone(_, _) => FinalsKeepShown(cfg, s, Next(cfg, s, e));
    case _ => KeyEventKeepsShown(cfg, s, e);
  }

  lemma {:induction false} ExecShown(cfg: Config, es: seq<Event>)
    ensures Exec(cfg, es).Some? ==> Shown(cfg, Exec(cfg, es).value)
  {
    hide Inv, Enabled, Next, Shown;
    if es == [] {
      NothingShown(cfg);
    } else {
      var before, e := Exec(cfg, es[..|es| - 1]), es[|es| - 1];
      ExecShown(cfg, es[..|es| - 1]);
      ExecInv(cfg, es[..|es| - 1]);
      if before.Some? && Enabled(before.value, e) { NextKeepsShown(cfg, before.value, e); }
    }
  }

  lemma NothingShown(cfg: Config)
    ensures Shown(cfg, Init)
  {
  }

  // ------------------------------------------------------ the theorems

  /** Over every run, with live tails off: as long as no reset hit the key state in
      use, the last partial shown from it is everything translated so far, and
      nothing was shown only if nothing was translated. */
  lemma CurrentPartialShowsAll(cfg: Config, es: seq<Event>, id: Id)
    ensures var run := Exec(cfg, es);
            run.Some? && id in run.value.heap && Current(run.value, id) &&
            !run.value.heap[id].wasReset && !cfg.tailLive ==>
              var k := run.value.heap[id];
              if k.partials == [] then k.frozenDst == map[]
              else k.partials[|k.partials| - 1] == Assemble(k.frozenDst, "")
  {
    hide Exec;
    if Exec(cfg, es).Some? { ExecShown(cfg, es); }
  }

  /** After every run: a key state in use is never finalized, so the answer to a
      freeze is shown exactly when its key state is in use, and then as the
      frozen translations it belongs to with the last tail. */
  lemma FreezeIsShown(cfg: Config, es: seq<Event>, id: Id, f: Freeze, dst: string)
    ensures var run, e := Exec(cfg, es), FreezeDone(id, f, Some(dst));
            run.Some? && Enabled(run.value, e) ==>
              var k, n := run.value.heap[id], Next(cfg, run.value, e).heap[id];
              && n.frozenDst == k.frozenDst[f.idx := dst]
              && n.partials == k.partials +
                   if Current(run.value, id) then [Assemble(k.frozenDst[f.idx := dst], k.lastTailDst)] else []
  {
    hide Exec, Assemble, KeysOk, FinalsOk, TextsOf, A.Spells;
    if Exec(cfg, es).Some? { ExecInv(cfg, es); }
  }

  /** After every run: the answer to a tail is shown exactly when its key state is in
      use, no tail was submitted and no reset happened since (its number is the
      last one) and the stability gate lets it through. It is cached in any case. */
  lemma TailIsShownWhenLatest(cfg: Config, es: seq<Event>, id: Id, t: Tail, dst: string, show: bool)
    ensures var run, e := Exec(cfg, es), TailDone(id, t, Some(dst), show);
            run.Some? && Enabled(run.value, e) ==>
              var k, n := run.value.heap[id], Next(cfg, run.value, e).heap[id];
              && n.lastTailSrc == t.piece.text && n.lastTailDst == dst && n.frozenDst == k.frozenDst
              && n.partials == k.partials +
                   if Current(run.value, id) && show && t.version == k.tailVersion
                   then [Assemble(k.frozenDst, dst)] else []
  {
    hide Exec, Assemble, KeysOk, FinalsOk, TextsOf, A.Spells;
    if Exec(cfg, es).Some? {
      ExecInv(cfg, es);
      ExecShown(cfg, es);
    }
  }

  /** Tail numbers only grow, so a tail that is not the last one never will be again. */
  lemma TailVersionsGrow(cfg: Config, s: State, e: Event, id: Id)
    ensures Inv(cfg, s) && Shown(cfg, s) && Enabled(s, e) && id in s.heap ==>
              id in Next(cfg, s, e).heap && s.heap[id].tailVersion <= Next(cfg, s, e).heap[id].tailVersion
  {
    hide Inv, Table, Decided, FinalAnswered, A.Updated, A.Sound, AfterKeyEvent, TailsNumbered, Fed;
    if Inv(cfg, s) && Shown(cfg, s) && Enabled(s, e) && id in s.heap {
      if e.Partial? && id in Ids(Table(cfg, s, e.segment)) {
        FedTails(cfg, s, id, e, A.Updated(e.pysbd, cfg.soft, AsmBefore(s, e.segment), e.piece.text).1);
      }
      if KeyEvent(e) { TailsStayNumbered(cfg, s, e); }
    }
  }

  /** Failures and all other events show nothing. */
  lemma NothingElseIsShown(cfg: Config, s: State, e: Event, id: Id)
    ensures Enabled(s, e) && id in s.heap && ((e.FreezeDone? || e.TailDone?) && e.id == id ==> e.dst.None?) ==>
              id in Next(cfg, s, e).heap && Next(cfg, s, e).heap[id].partials == s.heap[id].partials
  {
    hide Assemble, Table, Decided, FinalAnswered, A.Updated, A.Sound;
  }

  /** In live mode each partial with a tail to show submits it for every target
      that the change gate does not skip, under the newest number; a reset voids
      what was submitted before. */
  lemma PartialSubmitsTail(cfg: Config, es: seq<Event>, e: Event, lang: Lang)
    ensures var run := Exec(cfg, es);
            run.Some? && e.Partial? && Enabled(run.value, e) && lang in cfg.targets ==>
              var s, n := run.value, Next(cfg, run.value, e);
              n.channel.Some? && lang in n.states && Id(lang, n.states[lang]) in n.heap &&
              var id, consumed := Id(lang, n.states[lang]), n.channel.value.asm.consumed;
              n.channel.value.segment == e.segment && consumed <= e.piece.text &&
              var before, k := if id in s.heap then s.heap[id].tails else {}, n.heap[id];
              var tail := Strip(Python, e.piece.text[|consumed|..]);
              var live := cfg.tailLive && tail != "" && lang !in e.skip;
              && k.tails == before + (if live then {Tail(k.tailVersion, Piece(e.piece.lang, tail))} else {})
              && (live || !(AsmBefore(s, e.segment).consumed <= e.piece.text) ==>
                   forall t :: t in before ==> t.version < k.tailVersion)
  {
    hide Exec, Inv, A.Updated, A.Sound, Fed, Table, Strip, TailsNumbered;
    var run := Exec(cfg, es);
    if run.Some? && e.Partial? && Enabled(run.value, e) && lang in cfg.targets {
      var s := run.value;
      ExecShown(cfg, es);
      TableKeys(cfg, s, e.segment);
      var id := Id(lang, Table(cfg, s, e.segment)[lang]);
      assert id in Ids(Table(cfg, s, e.segment));
      FedTails(cfg, s, id, e, A.Updated(e.pysbd, cfg.soft, AsmBefore(s, e.segment), e.piece.text).1);
      A.UpdateAppends(e.pysbd, cfg.soft, AsmBefore(s, e.segment), e.piece.text);
      F.TailIsRest(e.pysbd, cfg.soft, AsmBefore(s, e.segment), e.piece.text);
      AfterPartialIs(cfg, s, e, id);
    }
  }

  lemma AfterPartialIs(cfg: Config, s: State, e: Event, id: Id)
    requires e.Partial? && Enabled(s, e) && id in Ids(Table(cfg, s, e.segment))
    ensures var (asm, out) := A.Updated(e.pysbd, cfg.soft, AsmBefore(s, e.segment), e.piece.text);
            var n := Next(cfg, s, e);
            && n.channel == Some(Channel(e.segment, asm)) && n.states == Table(cfg, s, e.segment)
            && id in n.heap && n.heap[id] == Fed(cfg, s, id, e, out)
  {
    hide A.Updated, A.Sound, Fed, Table;
  }
}
