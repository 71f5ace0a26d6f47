/** Scheduler/components/BrokerClient/index.js:456-469: per-channel chains of
    persistence tasks built from promises. A link of a chain waits for the link
    that was the tail when it was appended; the map entry is pruned once its link
    has settled and is still the tail. A failed task settles like any other. */
module PersistChains {
  import opened Options

  datatype Status = Waiting | Running | Settled(ok: bool)

  /** One `.catch().then(fn).catch()` link; prev is the promise it was built on. */
  datatype Link = Link(key: string, prev: Option<nat>, status: Status)

  datatype State = State(links: seq<Link>, tails: map<string, nat>)

  const Init := State([], map[])

  datatype Event = Chain(key: string) | Start(n: nat) | Settle(n: nat, ok: bool) | Prune(n: nat)

  predicate Enabled(s: State, e: Event) {
    match e
    case Chain(_) => true
    case Start(n) => n < |s.links| && s.links[n].status.Waiting? &&
      (s.links[n].prev.None? || (s.links[n].prev.value < |s.links| && s.links[s.links[n].prev.value].status.Settled?))
    case Settle(n, _) => n < |s.links| && s.links[n].status.Running?
    case Prune(n) => n < |s.links| && s.links[n].status.Settled?
  }

  function Next(s: State, e: Event): State
    requires Enabled(s, e)
  {
    match e
    case Chain(key) =>
      State(s.links + [Link(key, if key in s.tails then Some(s.tails[key]) else None, Waiting)],
        s.tails[key := |s.links|])
    case Start(n) => s.(links := s.links[n := s.links[n].(status := Running)])
    case Settle(n, ok) => s.(links := s.links[n := s.links[n].(status := Settled(ok))])
    case Prune(n) => if s.links[n].key in s.tails && s.tails[s.links[n].key] == n then
      s.(tails := s.tails - {s.links[n].key}) else s
  }

  // ------------------------------------------------------ what every step keeps

  predicate SameKey(s: State, i: nat, j: nat) { i < |s.links| && j < |s.links| && s.links[i].key == s.links[j].key }

  /** Every earlier link of the same channel has settled. */
  ghost predicate Cleared(s: State, j: nat)
    requires j < |s.links|
  {
    forall i :: 0 <= i < j && SameKey(s, i, j) ==> s.links[i].status.Settled?
  }

  ghost predicate TailsOk(s: State) {
    && (forall key :: key in s.tails ==> s.tails[key] < |s.links| && s.links[s.tails[key]].key == key)
    && (forall i :: 0 <= i < |s.links| ==>
         if s.links[i].key in s.tails then i <= s.tails[s.links[i].key] else s.links[i].status.Settled?)
  }

  /** A link waits for the previous link of its channel, or for none that is unsettled. */
  ghost predicate PrevOk(s: State, j: nat)
    requires j < |s.links|
  {
    if s.links[j].prev.None? then Cleared(s, j)
    else
      && s.links[j].prev.value < j
      && SameKey(s, s.links[j].prev.value, j)
      && (forall i :: s.links[j].prev.value < i < j ==> !SameKey(s, i, j))
  }

  ghost predicate Inv(s: State) {
    && TailsOk(s)
    && (forall j :: 0 <= j < |s.links| ==> PrevOk(s, j))
    && (forall j :: 0 <= j < |s.links| && !s.links[j].status.Waiting? ==> Cleared(s, j))
  }

  /** A link that can start has nothing unsettled before it. */
  lemma StartIsCleared(s: State, n: nat)
    requires Inv(s) && Enabled(s, Start(n))
    ensures Cleared(s, n)
  {
    assert PrevOk(s, n);
    if s.links[n].prev.Some? {
      var p := s.links[n].prev.value;
      forall i | 0 <= i < n && SameKey(s, i, n) ensures s.links[i].status.Settled? {
        if i < p { assert SameKey(s, i, p) && Cleared(s, p); }
      }
    }
  }

  /** Statuses only advance; what was cleared stays so. */
  lemma Advance(s: State, n: State, j: nat)
    requires j < |s.links| <= |n.links|
    requires forall i :: 0 <= i < |s.links| ==> n.links[i].key == s.links[i].key && n.links[i].prev == s.links[i].prev
    requires forall i :: 0 <= i < |s.links| && s.links[i].status.Settled? ==> n.links[i].status.Settled?
    ensures Cleared(s, j) ==> Cleared(n, j)
    ensures PrevOk(s, j) ==> PrevOk(n, j)
  {
    assert forall i :: 0 <= i < j && SameKey(n, i, j) ==> SameKey(s, i, j);
  }

  /** A channel whose tail has settled has only settled links. */
  lemma SettledTail(s: State, key: string)
    requires Inv(s) && key in s.tails && s.links[s.tails[key]].status.Settled?
    ensures forall i :: 0 <= i < |s.links| && s.links[i].key == key ==> s.links[i].status.Settled?
  {
    hide PrevOk;
    assert Cleared(s, s.tails[key]);
    forall i | 0 <= i < |s.links| && s.links[i].key == key ensures s.links[i].status.Settled? {
      assert SameKey(s, i, s.tails[key]);
    }
  }

  lemma NextKeepsTails(s: State, e: Event)
    requires Inv(s) && Enabled(s, e)
    ensures TailsOk(Next(s, e))
  {
    hide Cleared, PrevOk;
    if e.Prune? && s.links[e.n].key in s.tails && s.tails[s.links[e.n].key] == e.n { SettledTail(s, s.links[e.n].key); }
  }

  lemma NextKeepsInv(s: State, e: Event)
    requires Inv(s) && Enabled(s, e)
    ensures Inv(Next(s, e))
  {
    NextKeepsTails(s, e);
    hide Cleared, PrevOk, TailsOk;
    var n := Next(s, e);
    forall j | 0 <= j < |n.links| ensures PrevOk(n, j) {
      if j < |s.links| { Advance(s, n, j); } else { NewLinkOk(s, n, e); }
    }
    forall j | 0 <= j < |n.links| && !n.links[j].status.Waiting? ensures Cleared(n, j) {
      Advance(s, n, j);
      if e.Start? && j == e.n { StartIsCleared(s, j); }
    }
  }

  lemma NewLinkOk(s: State, n: State, e: Event)
    requires Inv(s) && e.Chain? && n == Next(s, e)
    ensures PrevOk(n, |s.links|)
  {
  }

  lemma InitInv()
    ensures Inv(Init)
  {
  }

  function Exec(es: seq<Event>): Option<State> {
    if es == [] then Some(Init) else
    var before := Exec(es[..|es| - 1]);
    if before.Some? && Enabled(before.value, es[|es| - 1]) then Some(Next(before.value, es[|es| - 1])) else None
  }

  lemma {:induction false} ExecInv(es: seq<Event>)
    ensures Exec(es).Some? ==> Inv(Exec(es).value)
  {
    hide Inv, Enabled, Next;
    if es == [] {
      InitInv();
    } else {
      ExecInv(es[..|es| - 1]);
      var before := Exec(es[..|es| - 1]);
      if before.Some? && Enabled(before.value, es[|es| - 1]) { NextKeepsInv(before.value, es[|es| - 1]); }
    }
  }

  // ------------------------------------------------------ the theorems

  /** Over every run, with any failures and prunes: tasks of one channel run one
      at a time, and each starts after all that arrived before it have settled. */
  lemma OneAtATimeInOrder(es: seq<Event>, i: nat, j: nat)
    requires Exec(es).Some? && i < j && SameKey(Exec(es).value, i, j)
    ensures var s := Exec(es).value; !s.links[j].status.Waiting? ==> s.links[i].status.Settled?
    ensures var s := Exec(es).value; !(s.links[i].status.Running? && s.links[j].status.Running?)
    ensures Enabled(Exec(es).value, Start(j)) ==> Exec(es).value.links[i].status.Settled?
  {
    hide Exec, TailsOk, PrevOk;
    ExecInv(es);
    var s := Exec(es).value;
    if Enabled(s, Start(j)) { StartIsCleared(s, j); }
  }

  /** No task is lost: unless one of its channel is running, the first task that
      has not settled can start. */
  lemma FirstWaitingCanStart(es: seq<Event>, j: nat)
    requires Exec(es).Some? && j < |Exec(es).value.links| && Exec(es).value.links[j].status.Waiting?
    requires Cleared(Exec(es).value, j)
    ensures Enabled(Exec(es).value, Start(j))
  {
    hide Exec, TailsOk;
    ExecInv(es);
    assert PrevOk(Exec(es).value, j);
  }

  lemma Then(es: seq<Event>, s: State, e: Event)
    requires Exec(es) == Some(s) && Enabled(s, e)
    ensures Exec(es + [e]) == Some(Next(s, e))
  {
    hide Enabled, Next;
    assert (es + [e])[..|es|] == es;
  }

  predicate SettledUpTo(s: State, j: nat) { forall i :: 0 <= i < j && i < |s.links| ==> s.links[i].status.Settled? }

  /** The next task in line, once all before it have settled, starts and settles. */
  lemma TakesItsTurn(es: seq<Event>, j: nat, ok: bool) returns (more: seq<Event>)
    requires Exec(es).Some? && j < |Exec(es).value.links| && SettledUpTo(Exec(es).value, j)
    ensures Exec(es + more).Some? && SettledUpTo(Exec(es + more).value, j + 1)
    ensures |Exec(es + more).value.links| == |Exec(es).value.links|
  {
    hide Exec;
    var s := Exec(es).value;
    more := [];
    assert es + [] == es;
    if s.links[j].status.Waiting? {
      FirstWaitingCanStart(es, j);
      Then(es, s, Start(j));
      s, more := Next(s, Start(j)), [Start(j)];
    }
    if s.links[j].status.Running? {
      Then(es + more, s, Settle(j, ok));
      assert es + more + [Settle(j, ok)] == es + (more + [Settle(j, ok)]);
      more := more + [Settle(j, ok)];
    }
  }

  /** No chain ever blocks, failed tasks and prunes included: from every reachable
      state on, all the tasks appended can settle, one after the other. */
  lemma {:induction false} EveryTaskCanSettle(es: seq<Event>, j: nat, ok: bool) returns (more: seq<Event>)
    requires Exec(es).Some? && j <= |Exec(es).value.links| && SettledUpTo(Exec(es).value, j)
    ensures Exec(es + more).Some? && |Exec(es + more).value.links| == |Exec(es).value.links|
    ensures SettledUpTo(Exec(es + more).value, |Exec(es).value.links|)
    decreases |Exec(es).value.links| - j
  {
    hide Exec;
    more := [];
    assert es + [] == es;
    if j < |Exec(es).value.links| {
      var turn := TakesItsTurn(es, j, ok);
      var rest := EveryTaskCanSettle(es + turn, j + 1, ok);
      assert es + turn + rest == es + (turn + rest);
      more := turn + rest;
    }
  }

  /** A task is appended once, waiting, to the chain of its channel, behind what is
      unsettled there; the others stay as they are. */
  lemma AppendedBehind(es: seq<Event>, key: string)
    requires Exec(es).Some?
    ensures var s := Exec(es).value;
            var n := Next(s, Chain(key));
            && |n.links| == |s.links| + 1 && n.links[..|s.links|] == s.links
            && n.links[|s.links|].key == key && n.links[|s.links|].status.Waiting?
            && (Enabled(n, Start(|s.links|)) <==>
                 forall i :: 0 <= i < |s.links| && s.links[i].key == key ==> s.links[i].status.Settled?)
  {
    hide Exec, PrevOk;
    ExecInv(es);
    var s := Exec(es).value;
    if key in s.tails && s.links[s.tails[key]].status.Settled? { SettledTail(s, key); }
  }

  /** Pruning a channel's tail removes its entry, and only when nothing of the
      channel is unsettled: the map stays bounded by the channels at work. */
  lemma PruneForgetsIdleChannels(s: State, key: string)
    requires Inv(s) && key in s.tails && Enabled(s, Prune(s.tails[key]))
    ensures key !in Next(s, Prune(s.tails[key])).tails
    ensures forall i :: 0 <= i < |s.links| && s.links[i].key == key ==> s.links[i].status.Settled?
  {
    hide PrevOk, Cleared;
    SettledTail(s, key);
  }

  // ------------------------------------------------------ the object

  class ChannelPersistChains {
    var tails: map<string, nat>      // channelPersistChains; promises are named by their number
    var links: seq<Link>             // the promises

    ghost function View(): State reads this { State(links, tails) }

    constructor ()
      ensures View() == Init
    {
      tails, links := map[], [];
    }

    method ChainChannelPersist(key: string) returns (next: nat)
      modifies this
      ensures next == |old(links)| && View() == Next(old(View()), Chain(key))
    {
      var prev := if key in tails then Some(tails[key]) else None;
      next := |links|;
      links := links + [Link(key, prev, Waiting)];
      tails := tails[key := next];
    }

    /** `next.then(...)` */
    method AfterSettled(n: nat)
      requires n < |links| && links[n].status.Settled?
      modifies this
      ensures View() == Next(old(View()), Prune(n))
    {
      var key := links[n].key;
      if key in tails && tails[key] == n { tails := tails - {key}; }
    }
  }
}
