/** Transcriber/components/StreamingServer/index.js:60-128 and ASR/index.js: how
    one channel's streams stop, and what their order of publication means for
    the Scheduler that saves what they publish.

    Messages of the channel are delivered in publication order; each becomes a
    task of the channel's persistence chain, among other tasks (translations). */
module DrainBarriers {
  import opened Options
  import C = PersistChains

  /** Messages of the stream of ASR object a. */
  datatype Message = Active(a: nat) | Final(a: nat) | Marker(a: nat) | Inactive(a: nat)

  datatype Phase = Running | Flushing | Stopped

  datatype Asr = Asr(phase: Phase, hasProvider: bool)

  datatype State = State(
    current: Option<nat>,           // ASRs.get(key)
    asrs: seq<Asr>,
    out: seq<Message>,              // published, in order
    chain: C.State,
    taskOf: seq<nat>)               // the link of each delivered message

  const Key := "session_channel"

  const Init := State(None, [], [], C.Init, [])

  datatype Event =
    | SessionStart(hasProvider: bool)
    | ProviderFinal(a: nat)
    | SessionStop
    | Flushed(a: nat)               // flushFinals is over
    | Deliver
    | OtherTask(key: string)        // a task not from these streams, on any channel
    | Internal(e: C.Event)          // a chain task starts, settles or is pruned

  predicate Enabled(s: State, e: Event) {
    match e
    case ProviderFinal(a) => a < |s.asrs| && !s.asrs[a].phase.Stopped?
    case Flushed(a) => a < |s.asrs| && s.asrs[a].phase.Flushing?
    case Deliver => |s.taskOf| < |s.out|
    case Internal(e) => !e.Chain? && C.Enabled(s.chain, e)
    case _ => true
  }

  function Next(s: State, e: Event): State
    requires Enabled(s, e)
  {
    match e
    case SessionStart(hasProvider) =>
      s.(current := Some(|s.asrs|), asrs := s.asrs + [Asr(Running, hasProvider)], out := s.out + [Active(|s.asrs|)])
    case ProviderFinal(a) => s.(out := s.out + [Final(a)])
    case SessionStop =>
      if s.current.None? || s.current.value >= |s.asrs| then s
      else s.(current := None, asrs := s.asrs[s.current.value := s.asrs[s.current.value].(phase := Flushing)])
    case Flushed(a) =>
      s.(asrs := s.asrs[a := s.asrs[a].(phase := Stopped)],
         out := s.out + (if s.asrs[a].hasProvider then [Marker(a)] else []) + [Inactive(a)])
    case Deliver => s.(chain := C.Next(s.chain, C.Chain(Key)), taskOf := s.taskOf + [|s.chain.links|])
    case OtherTask(key) => s.(chain := C.Next(s.chain, C.Chain(key)))
    case Internal(e) => s.(chain := C.Next(s.chain, e))
  }

  function Exec(es: seq<Event>): Option<State> {
    if es == [] then Some(Init) else
    var before := Exec(es[..|es| - 1]);
    if before.Some? && Enabled(before.value, es[|es| - 1]) then Some(Next(before.value, es[|es| - 1])) else None
  }

  // ------------------------------------------------------ what every step keeps

  /** Message j may follow message i of the same stream. */
  predicate MayFollow(i: Message, j: Message) {
    i.a == j.a ==> !i.Inactive? && !j.Active? && (i.Marker? ==> j.Inactive?)
  }

  /** In each stream: activation, finals, marker, deactivation, in this order,
      the last two once and only when it has stopped; a deactivation follows a
      marker exactly when the stream had a provider. */
  ghost predicate OrderOk(s: State) {
    && (forall i :: 0 <= i < |s.out| ==> s.out[i].a < |s.asrs|)
    && (forall i, j :: 0 <= i < j < |s.out| ==> MayFollow(s.out[i], s.out[j]))
    && (forall i :: 0 <= i < |s.out| && (s.out[i].Marker? || s.out[i].Inactive?) ==> s.asrs[s.out[i].a].phase.Stopped?)
    && (forall i :: 0 <= i < |s.out| && s.out[i].Inactive? && s.asrs[s.out[i].a].hasProvider ==>
         i > 0 && s.out[i - 1] == Marker(s.out[i].a))
  }

  ghost predicate CurrentOk(s: State) {
    s.current.Some? ==> s.current.value < |s.asrs| && s.asrs[s.current.value].phase.Running?
  }

  /** Delivered messages are the chain's tasks, in order. */
  ghost predicate DeliveredOk(s: State) {
    && |s.taskOf| <= |s.out|
    && (forall i :: 0 <= i < |s.taskOf| ==> s.taskOf[i] < |s.chain.links| && s.chain.links[s.taskOf[i]].key == Key)
    && (forall i, j :: 0 <= i < j < |s.taskOf| ==> s.taskOf[i] < s.taskOf[j])
  }

  ghost predicate Inv(s: State) { OrderOk(s) && CurrentOk(s) && DeliveredOk(s) && C.Inv(s.chain) }

  lemma PublishKeepsOrder(s: State, n: State, m: Message)
    requires OrderOk(s) && n.out == s.out + [m] && n.asrs == s.asrs && m.a < |s.asrs|
    requires forall i :: 0 <= i < |s.out| ==> MayFollow(s.out[i], m)
    requires m.Marker? || m.Inactive? ==> s.asrs[m.a].phase.Stopped?
    requires m.Inactive? && s.asrs[m.a].hasProvider ==> s.out != [] && s.out[|s.out| - 1] == Marker(m.a)
    ensures OrderOk(n)
  {
    hide MayFollow;
    assert forall i :: 0 <= i < |s.out| ==> n.out[i] == s.out[i];
  }

  /** A stream that has not stopped may still publish. */
  lemma NotStopped(s: State, a: nat)
    requires OrderOk(s) && a < |s.asrs| && !s.asrs[a].phase.Stopped?
    ensures forall i :: 0 <= i < |s.out| && s.out[i].a == a ==> !s.out[i].Marker? && !s.out[i].Inactive?
  {
    hide MayFollow;
  }

  lemma StopStream(s: State, a: nat)
    requires OrderOk(s) && a < |s.asrs|
    ensures OrderOk(s.(asrs := s.asrs[a := s.asrs[a].(phase := Stopped)]))
  {
    hide MayFollow;
  }

  lemma FlushKeepsOrder(s: State, a: nat)
    requires OrderOk(s) && Enabled(s, Flushed(a))
    ensures OrderOk(Next(s, Flushed(a)))
  {
    hide OrderOk;
    NotStopped(s, a);
    StopStream(s, a);
    var t := s.(asrs := s.asrs[a := s.asrs[a].(phase := Stopped)]);
    if s.asrs[a].hasProvider {
      var u := t.(out := t.out + [Marker(a)]);
      PublishKeepsOrder(t, u, Marker(a));
      PublishKeepsOrder(u, Next(s, Flushed(a)), Inactive(a));
    } else {
      assert s.out + [] == s.out;
      PublishKeepsOrder(t, Next(s, Flushed(a)), Inactive(a));
    }
  }

  lemma NextKeepsInv(s: State, e: Event)
    requires Inv(s) && Enabled(s, e)
    ensures Inv(Next(s, e))
  {
    hide C.Inv, OrderOk;
    match e
    case SessionStart(_) => StartKeepsOrder(s, e);
    case ProviderFinal(a) => NotStopped(s, a); PublishKeepsOrder(s, Next(s, e), Final(a));
    case SessionStop => StopKeepsOrder(s);
    case Flushed(a) => FlushKeepsOrder(s, a);
    case Deliver => C.NextKeepsInv(s.chain, C.Chain(Key)); SameOrder(s, Next(s, e));
    case OtherTask(key) => C.NextKeepsInv(s.chain, C.Chain(key)); SameOrder(s, Next(s, e));
    case Internal(i) => C.NextKeepsInv(s.chain, i); SameOrder(s, Next(s, e));
  }

  lemma SameOrder(s: State, n: State)
    requires OrderOk(s) && n.out == s.out && n.asrs == s.asrs
    ensures OrderOk(n)
  {
  }

  lemma StartKeepsOrder(s: State, e: Event)
    requires OrderOk(s) && e.SessionStart?
    ensures OrderOk(Next(s, e))
  {
    var n := Next(s, e);
    assert forall i :: 0 <= i < |s.out| ==> n.out[i] == s.out[i] && n.asrs[s.out[i].a] == s.asrs[s.out[i].a];
  }

  lemma StopKeepsOrder(s: State)
    requires OrderOk(s) && CurrentOk(s)
    ensures OrderOk(Next(s, SessionStop))
  {
  }

  lemma {:induction false} ExecInv(es: seq<Event>)
    ensures Exec(es).Some? ==> Inv(Exec(es).value)
  {
    hide Inv, Enabled, Next;
    if es == [] {
      InitInv();
    } else {
      ExecInv(es[..|es| - 1]);
      var before := Exec(es[..|es| - 1]);
      if before.Some? && Enabled(before.value, es[|es| - 1]) { NextKeepsInv(before.value, es[|es| - 1]); }
    }
  }

  lemma InitInv()
    ensures Inv(Init)
  {
    C.InitInv();
  }

  // ------------------------------------------------------ the theorems

  /** Message i was delivered and its save has settled. */
  predicate Saved(s: State, i: nat) {
    i < |s.taskOf| && s.taskOf[i] < |s.chain.links| && s.chain.links[s.taskOf[i]].status.Settled?
  }

  predicate Begun(s: State, i: nat) {
    i < |s.taskOf| && s.taskOf[i] < |s.chain.links| && !s.chain.links[s.taskOf[i]].status.Waiting?
  }

  /** The drain barrier, over every run: once the `inactive` write of a stream
      begins, every final of that stream has been saved (or has failed), and then
      its marker when it had a provider; the stream publishes nothing more. */
  lemma InactiveIsADrainBarrier(es: seq<Event>, j: nat)
    requires Exec(es).Some? && j < |Exec(es).value.out| && Exec(es).value.out[j].Inactive?
    requires Begun(Exec(es).value, j)
    ensures var s := Exec(es).value;
            forall i :: 0 <= i < |s.out| && i != j && s.out[i].a == s.out[j].a ==>
              i < j && Saved(s, i) && !s.out[i].Inactive?
    ensures var s := Exec(es).value;
            var a := s.out[j].a;
            a < |s.asrs| && s.asrs[a].phase.Stopped? &&
              (s.asrs[a].hasProvider ==> j > 0 && s.out[j - 1] == Marker(a) && Saved(s, j - 1))
  {
    hide Exec, C.TailsOk, C.PrevOk;
    ExecInv(es);
    var s := Exec(es).value;
    forall i | 0 <= i < j ensures Saved(s, i) {
      assert C.Cleared(s.chain, s.taskOf[j]) && C.SameKey(s.chain, s.taskOf[i], s.taskOf[j]);
    }
    forall i | 0 <= i < |s.out| && i != j && s.out[i].a == s.out[j].a ensures i < j && !s.out[i].Inactive? {
      assert if i < j then MayFollow(s.out[i], s.out[j]) else MayFollow(s.out[j], s.out[i]);
    }
  }

  // ------------------------------------------------------ everything is published

  /** The finals of a run, by their stream, in order. */
  function FinalsGiven(es: seq<Event>): seq<nat> {
    if es == [] then [] else
    FinalsGiven(es[..|es| - 1]) + if es[|es| - 1].ProviderFinal? then [es[|es| - 1].a] else []
  }

  /** The finals among published messages, by their stream, in order. */
  function FinalsIn(out: seq<Message>): seq<nat> {
    if out == [] then [] else FinalsIn(out[..|out| - 1]) + if out[|out| - 1].Final? then [out[|out| - 1].a] else []
  }

  lemma FinalsPlus(out: seq<Message>, m: Message)
    ensures FinalsIn(out + [m]) == FinalsIn(out) + if m.Final? then [m.a] else []
  {
    assert (out + [m])[..|out|] == out;
  }

  /** Each stream is announced, and a stopped one is deactivated. */
  ghost predicate Announced(s: State) {
    && (forall a :: 0 <= a < |s.asrs| ==> Active(a) in s.out)
    && (forall a :: 0 <= a < |s.asrs| && s.asrs[a].phase.Stopped? ==> Inactive(a) in s.out)
  }

  lemma NextAnnounces(s: State, e: Event)
    requires Announced(s) && Enabled(s, e)
    ensures Announced(Next(s, e))
  {
    hide C.Next, C.Enabled;
  }

  lemma NextFinals(s: State, e: Event)
    requires Enabled(s, e)
    ensures FinalsIn(Next(s, e).out) == FinalsIn(s.out) + if e.ProviderFinal? then [e.a] else []
  {
    hide FinalsIn, C.Next, C.Enabled;
    assert FinalsIn(s.out) + [] == FinalsIn(s.out);
    match e
    case SessionStart(_) => FinalsPlus(s.out, Active(|s.asrs|));
    case ProviderFinal(a) => FinalsPlus(s.out, Final(a));
    case Flushed(a) =>
      if s.asrs[a].hasProvider {
        FinalsPlus(s.out, Marker(a));
        FinalsPlus(s.out + [Marker(a)], Inactive(a));
      } else {
        assert s.out + [] + [Inactive(a)] == s.out + [Inactive(a)];
        FinalsPlus(s.out, Inactive(a));
      }
    case _ =>
  }

  /** Over every run: the finals published are the finals the providers gave, in
      their order; every stream was announced as active, and every stopped one as
      inactive. */
  lemma {:induction false} EverythingIsPublished(es: seq<Event>)
    requires Exec(es).Some?
    ensures FinalsIn(Exec(es).value.out) == FinalsGiven(es)
    ensures Announced(Exec(es).value)
  {
    hide Next, Enabled, Announced;
    if es == [] {
      NothingToAnnounce();
    } else {
      EverythingIsPublished(es[..|es| - 1]);
      NextAnnounces(Exec(es[..|es| - 1]).value, es[|es| - 1]);
      NextFinals(Exec(es[..|es| - 1]).value, es[|es| - 1]);
    }
  }

  lemma NothingToAnnounce()
    ensures Announced(Init)
  {
  }

  /** A stop request goes through: in every reachable state the channel's stream is
      taken off the channel at once, so that a second request finds none, its
      provider may still give finals, and the end of the flush publishes its
      marker, when it had a provider, and its deactivation. */
  lemma StopGoesThrough(es: seq<Event>, a: nat)
    requires Exec(es).Some? && Exec(es).value.current == Some(a)
    ensures var s := Exec(es).value;
            var n := Next(s, SessionStop);
            && a < |s.asrs| && n.current.None? && n.out == s.out && Next(n, SessionStop) == n
            && Enabled(n, ProviderFinal(a)) && Enabled(n, Flushed(a))
            && Next(n, ProviderFinal(a)).out == s.out + [Final(a)]
            && Next(n, Flushed(a)).out ==
                 s.out + (if s.asrs[a].hasProvider then [Marker(a), Inactive(a)] else [Inactive(a)])
            && !Enabled(Next(n, Flushed(a)), ProviderFinal(a)) && !Enabled(Next(n, Flushed(a)), Flushed(a))
  {
    hide Exec, C.Inv, OrderOk, C.Next, C.Enabled;
    ExecInv(es);
  }
}
