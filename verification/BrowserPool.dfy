/** BotService/bot/BrowserPool.js: one shared browser, at most `maxContexts`
    contexts, and async operations that interleave at every await. A call that
    is suspended is kept with the point where it waits. */
module BrowserPools {
  import opened Options

  /** What a launch promise resolves to: a browser, null after a destroy, or a failure. */
  datatype Result = Launched(browser: nat) | Orphaned | Failed

  datatype Launch = InFlight | Settling(result: Result) | Settled(result: Result)

  /** Where `_ensureBrowser` gets its browser from. */
  datatype Source = Ready(browser: nat) | From(launch: nat)

  datatype Call =
    | Replacing(id: string, context: nat)        // createContext waiting for the old context to close
    | AwaitBrowser(id: string, source: Source)
    | AwaitContext(id: string, browser: nat)     // newContext
    | AwaitPage(id: string, context: nat)        // newPage
    | Discarding(id: string, context: nat)       // closing a context that must not be kept
    | Initializing(source: Source)               // init
    | ClosingContext(context: nat)               // destroyContext
    | Draining(rest: seq<string>, closing: Option<nat>)   // destroy, closing one context
    | ClosingBrowser(browser: nat)               // destroy
    | AwaitLaunch(launch: nat)                   // destroy

  datatype State = State(
    contexts: map<string, nat>,     // id -> context object
    reserved: int,
    browser: Option<nat>,
    connected: set<nat>,            // browsers that are alive
    launching: Option<nat>,
    destroyed: bool,
    launches: seq<Launch>,
    calls: map<nat, Call>,
    next: nat,                      // numbers browsers and contexts
    open: map<nat, nat>,            // history: contexts opened and not closed, with their browser
    leaked: set<nat>)               // history: those dropped from `contexts` without being closed

  const Init := State(map[], 0, None, {}, None, false, [], map[], 0, map[], {})

  datatype Event =
    | InitCall(c: nat)
    | Create(c: nat, id: string)
    | Resume(c: nat, ok: bool)      // what call c waits for is there; ok: it did not fail
    | DestroyContext(c: nat, id: string)
    | Destroy(c: nat, ids: seq<string>)   // ids: the keys of `contexts`, in some order
    | Crash(browser: nat)           // the browser dies; its event is still to come
    | Disconnected(browser: nat)
    | LaunchDone(l: nat, ok: bool)  // the `.then` of the launch
    | LaunchFinally(l: nat)         // the `.finally` of the launch

  predicate HasSlot(call: Call) { call.AwaitBrowser? || call.AwaitContext? || call.AwaitPage? || call.Discarding? }

  function End(s: State, c: nat): State { s.(calls := s.calls - {c}) }

  function Wait(s: State, c: nat, call: Call): State { s.(calls := s.calls[c := call]) }

  /** `_ensureBrowser` up to its await. */
  function Ensure(s: State): (State, Source) {
    if s.browser.Some? && s.browser.value in s.connected then (s, Ready(s.browser.value))
    else if s.launching.Some? then (s, From(s.launching.value))
    else (s.(launching := Some(|s.launches|), launches := s.launches + [InFlight]), From(|s.launches|))
  }

  /** createContext once no context of that id is registered: reserve a slot. */
  function Reserve(max: nat, s: State, c: nat, id: string): State {
    if |s.contexts| + s.reserved >= max then End(s, c)
    else
      var (n, source) := Ensure(s.(reserved := s.reserved + 1));
      Wait(n, c, AwaitBrowser(id, source))
  }

  function Release(s: State, c: nat): State { End(s, c).(reserved := s.reserved - 1) }

  predicate SourceReady(s: State, source: Source) {
    source.Ready? || (source.launch < |s.launches| && s.launches[source.launch].Settled?)
  }

  /** The browser the call gets, None for null or a failure. */
  function Given(s: State, source: Source): Option<nat>
    requires SourceReady(s, source)
  {
    if source.Ready? then Some(source.browser)
    else if s.launches[source.launch].result.Launched? then Some(s.launches[source.launch].result.browser)
    else None
  }

  function Entry(s: State, id: string): Option<nat> { if id in s.contexts then Some(s.contexts[id]) else None }

  function Closed(s: State, context: nat): State { s.(open := s.open - {context}) }

  /** Without its browser, none of its contexts is open. */
  function Gone(s: State, browser: nat): State {
    s.(connected := s.connected - {browser}, open := map x | x in s.open && s.open[x] != browser :: s.open[x])
  }

  /** `newContext` has answered. */
  function Opened(s: State, browser: nat): State {
    s.(next := s.next + 1, open := if browser in s.connected then s.open[s.next := browser] else s.open)
  }

  /** `this.contexts.set(id, ...)`; an entry already there is overwritten. */
  function Registered(s: State, id: string, context: nat): State {
    s.(contexts := s.contexts[id := context],
       leaked := if id in s.contexts && s.contexts[id] in s.open then s.leaked + {s.contexts[id]} else s.leaked)
  }

  /** `destroy` from the head of its loop: close the next context, then the
      browser, then wait for a launch in flight, then allow new calls. */
  function Drain(s: State, c: nat, rest: seq<string>): State {
    if rest != [] then
      Wait(s.(contexts := s.contexts - {rest[0]}), c, Draining(rest[1..], Entry(s, rest[0])))
    else if s.browser.Some? then Wait(s.(browser := None), c, ClosingBrowser(s.browser.value))
    else AfterClose(s, c)
  }

  function AfterClose(s: State, c: nat): State {
    if s.launching.Some? then Wait(s, c, AwaitLaunch(s.launching.value)) else End(s, c).(destroyed := false)
  }

  predicate Enabled(s: State, e: Event) {
    match e
    case Resume(c, _) => c in s.calls &&
      (match s.calls[c]
       case AwaitBrowser(_, source) => SourceReady(s, source)
       case Initializing(source) => SourceReady(s, source)
       case AwaitLaunch(l) => l < |s.launches| && s.launches[l].Settled?
       case _ => true)
    case Crash(_) => true
    case Disconnected(b) => b !in s.connected
    case LaunchDone(l, _) => l < |s.launches| && s.launches[l].InFlight?
    case LaunchFinally(l) => l < |s.launches| && s.launches[l].Settling?
    case Destroy(c, ids) => c !in s.calls && (set id | id in ids) == s.contexts.Keys
    case _ => e.c !in s.calls
  }

  /** A suspended call goes on to its next await. */
  function Resumed(max: nat, s: State, c: nat, ok: bool): State
    requires c in s.calls && Enabled(s, Resume(c, ok))
  {
    match s.calls[c]
    case Replacing(id, context) => Reserve(max, Closed(s, context), c, id)
    case AwaitBrowser(id, source) =>
      if s.destroyed || Given(s, source).None? then Release(s, c)
      else Wait(s, c, AwaitContext(id, Given(s, source).value))
    case AwaitContext(id, browser) => if ok then Wait(Opened(s, browser), c, AwaitPage(id, s.next)) else Release(s, c)
    case AwaitPage(id, context) =>
      if !ok || s.destroyed then Wait(s, c, Discarding(id, context)) else Release(Registered(s, id, context), c)
    case Discarding(_, context) => Release(Closed(s, context), c)
    case Draining(rest, closing) => Drain(if closing.Some? then Closed(s, closing.value) else s, c, rest)
    case ClosingBrowser(browser) => AfterClose(Gone(s, browser), c)
    case AwaitLaunch(_) => End(s, c).(destroyed := false)
    case ClosingContext(context) => End(Closed(s, context), c)
    case Initializing(_) => End(s, c)
  }

  function Next(max: nat, s: State, e: Event): State
    requires Enabled(s, e)
  {
    match e
    case InitCall(c) => var (n, source) := Ensure(s); Wait(n, c, Initializing(source))
    case Create(c, id) =>
      if s.destroyed then s
      else if id in s.contexts then Wait(s.(contexts := s.contexts - {id}), c, Replacing(id, s.contexts[id]))
      else Reserve(max, s, c, id)
    case Resume(c, ok) => Resumed(max, s, c, ok)
    case DestroyContext(c, id) =>
      if id in s.contexts then Wait(s.(contexts := s.contexts - {id}), c, ClosingContext(s.contexts[id])) else s
    case Destroy(c, ids) => Drain(s.(destroyed := true), c, ids)
    case Crash(b) => Gone(s, b)
    case Disconnected(b) =>
      if s.browser == Some(b) then
        s.(browser := None, contexts := map[], leaked := s.leaked + (s.contexts.Values * s.open.Keys))
      else s
    case LaunchDone(l, ok) =>
      if !ok then s.(launches := s.launches[l := Settling(Failed)])
      else if s.destroyed then s.(launches := s.launches[l := Settling(Orphaned)])
      else s.(launches := s.launches[l := Settling(Launched(s.next))], browser := Some(s.next),
        connected := s.connected + {s.next}, next := s.next + 1)
    case LaunchFinally(l) => s.(launches := s.launches[l := Settled(s.launches[l].result)], launching := None)
  }

  function Exec(max: nat, es: seq<Event>): Option<State> {
    if es == [] then Some(Init) else
    var before := Exec(max, es[..|es| - 1]);
    if before.Some? && Enabled(before.value, es[|es| - 1]) then Some(Next(max, before.value, es[|es| - 1])) else None
  }

  // ------------------------------------------------------ what every step keeps

  /** The creations that hold a slot. */
  function Holders(calls: map<nat, Call>): set<nat> { set c | c in calls && HasSlot(calls[c]) }

  ghost predicate SlotsOk(max: nat, s: State) {
    s.reserved == |Holders(s.calls)| && |s.contexts| + s.reserved <= max
  }

  ghost predicate LaunchesOk(s: State) {
    && (forall l :: 0 <= l < |s.launches| && !s.launches[l].Settled? ==> s.launching == Some(l))
    && (s.launching.Some? ==> s.launching.value < |s.launches| && !s.launches[s.launching.value].Settled?)
  }

  ghost predicate Inv(max: nat, s: State) { SlotsOk(max, s) && LaunchesOk(s) }

  lemma HoldersChange(calls: map<nat, Call>, c: nat, call: Call)
    ensures |Holders(calls[c := call])| ==
      |Holders(calls)| + (if HasSlot(call) then 1 else 0) - (if c in calls && HasSlot(calls[c]) then 1 else 0)
  {
    var rest := Holders(calls) - {c};
    assert Holders(calls[c := call]) == if HasSlot(call) then rest + {c} else rest;
    assert Holders(calls) == if c in calls && HasSlot(calls[c]) then rest + {c} else rest;
  }

  lemma HoldersEnd(calls: map<nat, Call>, c: nat)
    ensures |Holders(calls - {c})| == |Holders(calls)| - (if c in calls && HasSlot(calls[c]) then 1 else 0)
  {
    var rest := Holders(calls) - {c};
    assert Holders(calls - {c}) == rest;
    assert Holders(calls) == if c in calls && HasSlot(calls[c]) then rest + {c} else rest;
  }

  lemma Removed(contexts: map<string, nat>, id: string)
    ensures |contexts - {id}| <= |contexts|
  {
    assert (contexts - {id}).Keys == contexts.Keys - {id};
  }

  lemma Added(contexts: map<string, nat>, id: string, k: nat)
    ensures |contexts[id := k]| <= |contexts| + 1
  {
    assert contexts[id := k].Keys == contexts.Keys + {id};
  }

  predicate Slotted(s: State, c: nat) { c in s.calls && HasSlot(s.calls[c]) }

  /** Call c goes on waiting, with or without its slot as before. */
  lemma WaitKeepsInv(max: nat, s: State, n: State, c: nat, call: Call)
    requires Inv(max, s) && LaunchesOk(n) && n.calls == s.calls[c := call] && HasSlot(call) == Slotted(s, c)
    requires n.reserved == s.reserved && |n.contexts| <= |s.contexts|
    ensures Inv(max, n)
  {
    hide Holders, LaunchesOk;
    HoldersChange(s.calls, c, call);
  }

  /** Call c ends and gives its slot back if it had one. */
  lemma EndKeepsInv(max: nat, s: State, n: State, c: nat)
    requires Inv(max, s) && LaunchesOk(n) && n.calls == s.calls - {c}
    requires n.reserved == s.reserved - (if Slotted(s, c) then 1 else 0)
    requires |n.contexts| <= |s.contexts| + (if Slotted(s, c) then 1 else 0)
    ensures Inv(max, n)
  {
    hide Holders, LaunchesOk;
    HoldersEnd(s.calls, c);
  }

  lemma EnsureKeeps(s: State)
    requires LaunchesOk(s)
    ensures var (n, source) := Ensure(s); LaunchesOk(n) && n == s.(launching := n.launching, launches := n.launches)
  {
  }

  lemma SameLaunches(s: State, n: State)
    requires LaunchesOk(s) && n.launches == s.launches && n.launching == s.launching
    ensures LaunchesOk(n)
  {
  }

  lemma ReserveKeepsInv(max: nat, s: State, c: nat, id: string)
    requires Inv(max, s) && !Slotted(s, c)
    ensures Inv(max, Reserve(max, s, c, id))
  {
    hide Ensure, Holders, LaunchesOk;
    var n := Reserve(max, s, c, id);
    if |s.contexts| + s.reserved >= max {
      SameLaunches(s, n);
      EndKeepsInv(max, s, n, c);
    } else {
      SameLaunches(s, s.(reserved := s.reserved + 1));
      EnsureKeeps(s.(reserved := s.reserved + 1));
      var (t, source) := Ensure(s.(reserved := s.reserved + 1));
      HoldersChange(s.calls, c, AwaitBrowser(id, source));
      SameLaunches(t, n);
    }
  }

  lemma DrainKeepsInv(max: nat, s: State, c: nat, rest: seq<string>)
    requires Inv(max, s) && !Slotted(s, c)
    ensures Inv(max, Drain(s, c, rest))
  {
    hide SlotsOk, LaunchesOk;
    var n := Drain(s, c, rest);
    if rest != [] {
      Removed(s.contexts, rest[0]);
      SameLaunches(s, n);
      WaitKeepsInv(max, s, n, c, Draining(rest[1..], Entry(s, rest[0])));
    } else if s.browser.Some? {
      SameLaunches(s, n);
      WaitKeepsInv(max, s, n, c, ClosingBrowser(s.browser.value));
    } else {
      AfterCloseKeepsInv(max, s, c);
    }
  }

  lemma AfterCloseKeepsInv(max: nat, s: State, c: nat)
    requires Inv(max, s) && !Slotted(s, c)
    ensures Inv(max, AfterClose(s, c))
  {
    hide SlotsOk, LaunchesOk;
    var n := AfterClose(s, c);
    SameLaunches(s, n);
    if s.launching.Some? {
      WaitKeepsInv(max, s, n, c, AwaitLaunch(s.launching.value));
    } else {
      EndKeepsInv(max, s, n, c);
    }
  }

  /** A creation that resumes with its slot. */
  lemma CreationKeepsInv(max: nat, s: State, c: nat, ok: bool)
    requires Inv(max, s) && Enabled(s, Resume(c, ok)) && Slotted(s, c)
    ensures Inv(max, Resumed(max, s, c, ok))
  {
    hide SlotsOk, LaunchesOk, Enabled;
    var n := Resumed(max, s, c, ok);
    SameLaunches(s, n);
    match s.calls[c]
    case AwaitBrowser(id, _) =>
      if n.reserved == s.reserved { WaitKeepsInv(max, s, n, c, n.calls[c]); } else { EndKeepsInv(max, s, n, c); }
    case AwaitContext(id, _) =>
      if ok { WaitKeepsInv(max, s, n, c, AwaitPage(id, s.next)); } else { EndKeepsInv(max, s, n, c); }
    case AwaitPage(id, context) =>
      if !ok || s.destroyed {
        WaitKeepsInv(max, s, n, c, Discarding(id, context));
      } else {
        Added(s.contexts, id, context);
        EndKeepsInv(max, s, n, c);
      }
    case Discarding(_, _) => EndKeepsInv(max, s, n, c);
  }

  /** Slots and launches do not depend on which contexts are open. */
  lemma SameSlots(max: nat, s: State, n: State)
    requires Inv(max, s) && n == s.(connected := n.connected, open := n.open)
    ensures Inv(max, n)
  {
  }

  lemma CallEnds(max: nat, s: State, c: nat, ok: bool)
    requires Inv(max, s) && Enabled(s, Resume(c, ok))
    requires s.calls[c].Initializing? || s.calls[c].ClosingContext? || s.calls[c].AwaitLaunch?
    ensures Inv(max, Resumed(max, s, c, ok))
  {
    hide SlotsOk, LaunchesOk;
    SameLaunches(s, Resumed(max, s, c, ok));
    EndKeepsInv(max, s, Resumed(max, s, c, ok), c);
  }

  lemma ResumeKeepsInv(max: nat, s: State, c: nat, ok: bool)
    requires Inv(max, s) && Enabled(s, Resume(c, ok))
    ensures Inv(max, Resumed(max, s, c, ok))
  {
    hide SlotsOk, LaunchesOk, Reserve, Drain, AfterClose;
    if Slotted(s, c) { CreationKeepsInv(max, s, c, ok); }
    else {
      match s.calls[c]
      case Replacing(id, context) =>
        SameSlots(max, s, Closed(s, context));
        ReserveKeepsInv(max, Closed(s, context), c, id);
      case Draining(rest, closing) =>
        var n := if closing.Some? then Closed(s, closing.value) else s;
        SameSlots(max, s, n);
        DrainKeepsInv(max, n, c, rest);
      case ClosingBrowser(browser) =>
        SameSlots(max, s, Gone(s, browser));
        AfterCloseKeepsInv(max, Gone(s, browser), c);
      case Initializing(_) => CallEnds(max, s, c, ok);
      case ClosingContext(_) => CallEnds(max, s, c, ok);
      case AwaitLaunch(_) => CallEnds(max, s, c, ok);
    }
  }

  lemma CallKeepsInv(max: nat, s: State, e: Event)
    requires Inv(max, s) && Enabled(s, e) && (e.InitCall? || e.Create? || e.DestroyContext? || e.Destroy?)
    ensures Inv(max, Next(max, s, e))
  {
    hide SlotsOk, LaunchesOk, Reserve, Drain, Ensure;
    var n := Next(max, s, e);
    match e
    case InitCall(c) =>
      EnsureKeeps(s);
      SameLaunches(Ensure(s).0, n);
      WaitKeepsInv(max, s, n, c, Initializing(Ensure(s).1));
    case Create(c, id) =>
      if !s.destroyed && id in s.contexts {
        Removed(s.contexts, id);
        SameLaunches(s, n);
        WaitKeepsInv(max, s, n, c, Replacing(id, s.contexts[id]));
      } else if !s.destroyed {
        ReserveKeepsInv(max, s, c, id);
      }
    case DestroyContext(c, id) =>
      if id in s.contexts {
        Removed(s.contexts, id);
        SameLaunches(s, n);
        WaitKeepsInv(max, s, n, c, ClosingContext(s.contexts[id]));
      }
    case Destroy(c, ids) => MarkDestroyed(max, s); DrainKeepsInv(max, s.(destroyed := true), c, ids);
  }

  lemma MarkDestroyed(max: nat, s: State)
    requires Inv(max, s)
    ensures Inv(max, s.(destroyed := true))
  {
  }

  lemma NextKeepsInv(max: nat, s: State, e: Event)
    requires Inv(max, s) && Enabled(s, e)
    ensures Inv(max, Next(max, s, e))
  {
    hide Holders, Resumed;
    if e.InitCall? || e.Create? || e.DestroyContext? || e.Destroy? { CallKeepsInv(max, s, e); }
    else if e.Resume? { ResumeKeepsInv(max, s, e.c, e.ok); }
  }

  lemma {:induction false} ExecInv(max: nat, es: seq<Event>)
    ensures Exec(max, es).Some? ==> Inv(max, Exec(max, es).value)
  {
    hide Inv, Enabled, Next;
    if es == [] {
      InitInv(max);
    } else {
      ExecInv(max, es[..|es| - 1]);
      var before := Exec(max, es[..|es| - 1]);
      if before.Some? && Enabled(before.value, es[|es| - 1]) { NextKeepsInv(max, before.value, es[|es| - 1]); }
    }
  }

  lemma InitInv(max: nat)
    ensures Inv(max, Init)
  {
    assert Holders(map[]) == {};
  }

  // ------------------------------------------------------ the theorems

  /** Over every run, whatever the interleaving: contexts and reservations together
      stay within the capacity, and a slot is reserved exactly for each creation
      in flight, so every way out of a creation gives its slot back. */
  lemma CapacityHolds(max: nat, es: seq<Event>)
    requires Exec(max, es).Some?
    ensures var s := Exec(max, es).value;
            |s.contexts| + s.reserved <= max && s.reserved == |Holders(s.calls)|
  {
    hide Exec;
    ExecInv(max, es);
  }

  // ------------------------------------------------------ open contexts

  /** The context a suspended call is about to register or is closing. */
  function ContextOf(call: Call): Option<nat> {
    match call
    case Replacing(_, x) => Some(x)
    case AwaitPage(_, x) => Some(x)
    case Discarding(_, x) => Some(x)
    case ClosingContext(x) => Some(x)
    case Draining(_, closing) => closing
    case _ => None
  }

  predicate Uses(s: State, c: nat, x: nat) { c in s.calls && ContextOf(s.calls[c]) == Some(x) }

  /** Somebody will still close the context, or it has leaked. */
  ghost predicate Known(s: State, x: nat) {
    x in s.contexts.Values || x in s.leaked || exists c :: Uses(s, c, x)
  }

  ghost predicate OpenOk(s: State) { forall x :: x in s.open ==> Known(s, x) }

  /** A step of call c loses sight of no context but the one it held and the ones
      whose entry it removed. */
  lemma StaysKnown(s: State, n: State, c: nat, x: nat)
    requires Known(s, x) && s.leaked <= n.leaked
    requires forall d :: d in s.calls && d != c ==> d in n.calls && n.calls[d] == s.calls[d]
    requires x in s.contexts.Values ==> Known(n, x)
    requires Uses(s, c, x) ==> Known(n, x)
    ensures Known(n, x)
  {
    if x !in s.contexts.Values && x !in s.leaked {
      var d :| Uses(s, d, x);
      if d != c { assert Uses(n, d, x); }
    }
  }

  /** A context out of the table is closed by the call that removed its entry. */
  lemma RemovedIsKnown(s: State, n: State, c: nat, id: string, x: nat)
    requires x in s.contexts.Values && id in s.contexts && n.contexts == s.contexts - {id}
    requires Uses(n, c, s.contexts[id])
    ensures Known(n, x)
  {
    if x != s.contexts[id] {
      var k :| k in s.contexts && s.contexts[k] == x;
      assert k in n.contexts && n.contexts[k] == x;
    }
  }

  lemma ReserveKeepsOpen(max: nat, s: State, c: nat, id: string)
    requires OpenOk(s) && (c in s.calls ==> forall x :: x in s.open ==> !Uses(s, c, x))
    ensures OpenOk(Reserve(max, s, c, id))
  {
    hide OpenOk, Ensure, ContextOf;
    EnsureKeepsOpen(s.(reserved := s.reserved + 1));
    SameContextKeepsOpen(s, Reserve(max, s, c, id), c);
  }

  lemma RegisteredIsKnown(s: State, x: nat)
    ensures x in s.contexts.Values ==> Known(s, x)
  {
  }

  lemma DrainKeepsOpen(s: State, c: nat, rest: seq<string>)
    requires OpenOk(s) && forall x :: x in s.open ==> !Uses(s, c, x)
    ensures OpenOk(Drain(s, c, rest))
  {
    hide Known;
    var n := Drain(s, c, rest);
    forall x | x in n.open ensures Known(n, x) {
      if x in s.contexts.Values && rest != [] && rest[0] in s.contexts {
        RemovedIsKnown(s, n, c, rest[0], x);
      } else {
        if rest != [] && rest[0] !in s.contexts { assert n.contexts == s.contexts; }
        RegisteredIsKnown(n, x);
      }
      StaysKnown(s, n, c, x);
    }
  }

  lemma AfterCloseKeepsOpen(s: State, c: nat)
    requires OpenOk(s) && forall x :: x in s.open ==> !Uses(s, c, x)
    ensures OpenOk(AfterClose(s, c))
  {
    hide Known;
    var n := AfterClose(s, c);
    forall x | x in n.open ensures Known(n, x) {
      RegisteredIsKnown(n, x);
      StaysKnown(s, n, c, x);
    }
  }

  lemma FewerOpen(s: State, n: State)
    requires OpenOk(s) && n == s.(open := n.open, connected := n.connected) && n.open.Keys <= s.open.Keys
    ensures OpenOk(n)
  {
    forall x | x in n.open ensures Known(n, x) {
      assert Known(s, x);
      if c :| Uses(s, c, x) { assert Uses(n, c, x); }
    }
  }

  lemma RegisterKeepsOpen(s: State, c: nat, id: string, context: nat)
    requires OpenOk(s) && c in s.calls && s.calls[c] == AwaitPage(id, context)
    ensures OpenOk(Release(Registered(s, id, context), c))
  {
    hide Known;
    var n := Release(Registered(s, id, context), c);
    assert n.contexts[id] == context;
    forall x | x in n.open ensures Known(n, x) {
      OverwrittenIsKnown(s, n, id, context, x);
      RegisteredIsKnown(n, x);
      StaysKnown(s, n, c, x);
    }
  }

  lemma OverwrittenIsKnown(s: State, n: State, id: string, context: nat, x: nat)
    requires n.contexts == s.contexts[id := context] && x in s.open
    requires id in s.contexts && s.contexts[id] in s.open ==> s.contexts[id] in n.leaked
    ensures x in s.contexts.Values ==> Known(n, x)
  {
    if x in s.contexts.Values {
      var k :| k in s.contexts && s.contexts[k] == x;
      if k != id { assert k in n.contexts && n.contexts[k] == x; }
    }
  }

  lemma OpenKeepsOpen(s: State, c: nat, id: string, browser: nat)
    requires OpenOk(s) && c in s.calls && s.calls[c] == AwaitContext(id, browser)
    ensures OpenOk(Wait(Opened(s, browser), c, AwaitPage(id, s.next)))
  {
    hide Known;
    var n := Wait(Opened(s, browser), c, AwaitPage(id, s.next));
    assert Uses(n, c, s.next);
    forall x | x in n.open ensures Known(n, x) {
      RegisteredIsKnown(n, x);
      if x == s.next { UsedIsKnown(n, c, x); } else { StaysKnown(s, n, c, x); }
    }
  }

  lemma UsedIsKnown(s: State, c: nat, x: nat)
    requires Uses(s, c, x)
    ensures Known(s, x)
  {
  }

  /** The call ends or goes on, keeping the context it had. */
  lemma SameContextKeepsOpen(s: State, n: State, c: nat)
    requires OpenOk(s) && n.open == s.open && n.contexts == s.contexts && n.leaked == s.leaked
    requires forall d :: d in s.calls && d != c ==> d in n.calls && n.calls[d] == s.calls[d]
    requires c in s.calls ==> forall x :: x in s.open && Uses(s, c, x) ==> Uses(n, c, x)
    ensures OpenOk(n)
  {
    hide Known;
    forall x | x in n.open ensures Known(n, x) {
      RegisteredIsKnown(n, x);
      if Uses(n, c, x) { UsedIsKnown(n, c, x); }
      StaysKnown(s, n, c, x);
    }
  }

  lemma ResumeKeepsOpen(max: nat, s: State, c: nat, ok: bool)
    requires OpenOk(s) && Enabled(s, Resume(c, ok))
    ensures OpenOk(Resumed(max, s, c, ok))
  {
    hide OpenOk, Reserve, Drain, AfterClose;
    var n := Resumed(max, s, c, ok);
    match s.calls[c]
    case Replacing(id, context) =>
      FewerOpen(s, Closed(s, context));
      ReserveKeepsOpen(max, Closed(s, context), c, id);
    case AwaitBrowser(_, _) => SameContextKeepsOpen(s, n, c);
    case AwaitContext(id, browser) =>
      if ok { OpenKeepsOpen(s, c, id, browser); } else { SameContextKeepsOpen(s, n, c); }
    case AwaitPage(id, context) =>
      if !ok || s.destroyed { SameContextKeepsOpen(s, n, c); } else { RegisterKeepsOpen(s, c, id, context); }
    case Discarding(_, context) =>
      FewerOpen(s, Closed(s, context));
      SameContextKeepsOpen(Closed(s, context), n, c);
    case Draining(rest, closing) =>
      var t := if closing.Some? then Closed(s, closing.value) else s;
      FewerOpen(s, t);
      DrainKeepsOpen(t, c, rest);
    case ClosingBrowser(browser) =>
      FewerOpen(s, Gone(s, browser));
      AfterCloseKeepsOpen(Gone(s, browser), c);
    case AwaitLaunch(_) => SameContextKeepsOpen(s, n, c);
    case ClosingContext(context) =>
      FewerOpen(s, Closed(s, context));
      SameContextKeepsOpen(Closed(s, context), n, c);
    case Initializing(_) => SameContextKeepsOpen(s, n, c);
  }

  /** The call takes the entry of id out of the table and closes its context. */
  lemma TakeKeepsOpen(s: State, n: State, c: nat, id: string)
    requires OpenOk(s) && c !in s.calls && id in s.contexts
    requires c in n.calls && n == Wait(s.(contexts := s.contexts - {id}), c, n.calls[c])
    requires ContextOf(n.calls[c]) == Some(s.contexts[id])
    ensures OpenOk(n)
  {
    hide Known;
    forall x | x in n.open ensures Known(n, x) {
      if x in s.contexts.Values { RemovedIsKnown(s, n, c, id, x); }
      StaysKnown(s, n, c, x);
    }
  }

  lemma DisconnectKeepsOpen(s: State, n: State)
    requires OpenOk(s) && n.open == s.open && n.calls == s.calls &&
      n.leaked == s.leaked + (s.contexts.Values * s.open.Keys)
    ensures OpenOk(n)
  {
    forall x | x in n.open ensures Known(n, x) {
      assert Known(s, x);
      if c :| Uses(s, c, x) { assert Uses(n, c, x); }
    }
  }

  lemma NextKeepsOpen(max: nat, s: State, e: Event)
    requires OpenOk(s) && Enabled(s, e)
    ensures OpenOk(Next(max, s, e))
  {
    hide OpenOk, Reserve, Drain, Resumed, Ensure, ContextOf;
    var n := Next(max, s, e);
    match e
    case InitCall(c) => EnsureKeepsOpen(s); SameContextKeepsOpen(s, n, c);
    case Create(c, id) =>
      if !s.destroyed && id in s.contexts {
        TakenContext(s.contexts[id], id);
        TakeKeepsOpen(s, n, c, id);
      } else if !s.destroyed {
        ReserveKeepsOpen(max, s, c, id);
      }
    case Resume(c, ok) => ResumeKeepsOpen(max, s, c, ok);
    case DestroyContext(c, id) =>
      if id in s.contexts {
        TakenContext(s.contexts[id], id);
        TakeKeepsOpen(s, n, c, id);
      }
    case Destroy(c, ids) =>
      SameContextKeepsOpen(s, s.(destroyed := true), c);
      DrainKeepsOpen(s.(destroyed := true), c, ids);
    case Crash(b) => FewerOpen(s, n);
    case Disconnected(b) => if s.browser == Some(b) { DisconnectKeepsOpen(s, n); }
    case LaunchDone(_, _) => SameContextKeepsOpen(s, n, 0);
    case LaunchFinally(_) => SameContextKeepsOpen(s, n, 0);
  }

  lemma EnsureKeepsOpen(s: State)
    ensures var n := Ensure(s).0; n == s.(launching := n.launching, launches := n.launches)
  {
  }

  lemma TakenContext(x: nat, id: string)
    ensures ContextOf(Replacing(id, x)) == Some(x) && ContextOf(ClosingContext(x)) == Some(x)
  {
  }

  lemma {:induction false} ExecOpen(max: nat, es: seq<Event>)
    requires Exec(max, es).Some?
    ensures OpenOk(Exec(max, es).value)
  {
    hide OpenOk, Enabled, Next;
    if es == [] {
      InitOpen();
    } else {
      ExecOpen(max, es[..|es| - 1]);
      NextKeepsOpen(max, Exec(max, es[..|es| - 1]).value, es[|es| - 1]);
    }
  }

  lemma InitOpen()
    ensures OpenOk(Init)
  {
  }

  /** The contexts that calls are closing, their entry gone. */
  function Closing(calls: map<nat, Call>): set<nat> {
    set c | c in calls && !HasSlot(calls[c]) && ContextOf(calls[c]).Some? :: ContextOf(calls[c]).value
  }

  function Held(calls: map<nat, Call>): map<nat, nat> {
    map c | c in calls && HasSlot(calls[c]) && ContextOf(calls[c]).Some? :: ContextOf(calls[c]).value
  }

  lemma SubsetSize(a: set<nat>, b: set<nat>)
    requires a <= b
    ensures |a| <= |b|
  {
    assert b == a + (b - a);
  }

  lemma {:induction false} ValuesSize<K>(m: map<K, nat>)
    ensures |m.Values| <= |m|
    decreases m.Keys
  {
    if k :| k in m {
      var rest := m - {k};
      assert rest.Keys == m.Keys - {k};
      ValuesSize(rest);
      assert m.Values <= rest.Values + {m[k]} by {
        forall x | x in m.Values ensures x in rest.Values + {m[k]} {
          var j :| j in m && m[j] == x;
          if j != k { assert j in rest && rest[j] == x; }
        }
      }
      SubsetSize(m.Values, rest.Values + {m[k]});
    } else {
      assert m.Values == {};
    }
  }

  lemma OpenIsBounded(max: nat, s: State)
    requires SlotsOk(max, s) && OpenOk(s)
    ensures |s.open.Keys - Closing(s.calls) - s.leaked| <= max
  {
    var kept := s.open.Keys - Closing(s.calls) - s.leaked;
    forall x | x in kept ensures x in s.contexts.Values + Held(s.calls).Values {
      assert Known(s, x);
      if c :| Uses(s, c, x) { assert HasSlot(s.calls[c]) ==> Held(s.calls)[c] == x; }
    }
    SubsetSize(kept, s.contexts.Values + Held(s.calls).Values);
    ValuesSize(s.contexts);
    ValuesSize(Held(s.calls));
    SubsetSize(Held(s.calls).Keys, Holders(s.calls));
  }

  /** A step drops an entry without closing its context: a creation registers over
      another of the same id, or the current browser's end clears the table while
      it holds a context of another browser. */
  predicate Displaces(s: State, e: Event, x: nat) {
    || (e.Resume? && e.ok && !s.destroyed && e.c in s.calls && s.calls[e.c].AwaitPage? &&
        s.calls[e.c].id in s.contexts && s.contexts[s.calls[e.c].id] == x)
    || (e.Disconnected? && s.browser == Some(e.browser) && x in s.contexts.Values)
  }

  /** Exactly these steps leak a context, if it is open. */
  lemma LeaksHaveCauses(max: nat, s: State, e: Event, x: nat)
    requires Enabled(s, e)
    ensures x in Next(max, s, e).leaked <==> x in s.leaked || (x in s.open && Displaces(s, e, x))
  {
    hide Reserve, Drain, AfterClose, Ensure;
    if e.InitCall? { EnsureKeepsOpen(s); }
    if e.Create? { ReserveLeaksNothing(max, s, e.c, e.id); }
    if e.Destroy? { DrainLeaksNothing(s.(destroyed := true), e.c, e.ids); }
    if e.Resume? { ResumeLeaks(max, s, e.c, e.ok, x); }
  }

  lemma ReserveLeaksNothing(max: nat, s: State, c: nat, id: string)
    ensures Reserve(max, s, c, id).leaked == s.leaked
  {
    hide Ensure;
    EnsureKeepsOpen(s.(reserved := s.reserved + 1));
  }

  lemma DrainLeaksNothing(s: State, c: nat, rest: seq<string>)
    ensures Drain(s, c, rest).leaked == s.leaked && AfterClose(s, c).leaked == s.leaked
  {
  }

  lemma ResumeLeaks(max: nat, s: State, c: nat, ok: bool, x: nat)
    requires Enabled(s, Resume(c, ok))
    ensures x in Resumed(max, s, c, ok).leaked <==> x in s.leaked || (x in s.open && Displaces(s, Resume(c, ok), x))
  {
    hide Reserve, Drain, AfterClose;
    match s.calls[c]
    case Replacing(id, context) => ReserveLeaksNothing(max, Closed(s, context), c, id);
    case Draining(rest, closing) => DrainLeaksNothing(if closing.Some? then Closed(s, closing.value) else s, c, rest);
    case ClosingBrowser(browser) => DrainLeaksNothing(Gone(s, browser), c, []);
    case _ =>
  }

  ghost predicate TidyRun(max: nat, es: seq<Event>) {
    forall n, x :: 0 <= n < |es| && Exec(max, es[..n]).Some? && x in Exec(max, es[..n]).value.open ==>
      !Displaces(Exec(max, es[..n]).value, es[n], x)
  }

  lemma {:induction false} TidyRunsLeakNothing(max: nat, es: seq<Event>)
    requires Exec(max, es).Some? && TidyRun(max, es)
    ensures Exec(max, es).value.leaked == {}
  {
    hide Next, Enabled, Displaces;
    if es != [] {
      var rest, last := es[..|es| - 1], es[|es| - 1];
      forall n | 0 <= n < |rest| ensures rest[..n] == es[..n] && rest[n] == es[n] {}
      TidyRunsLeakNothing(max, rest);
      forall x | x in Exec(max, es).value.leaked ensures false {
        LeaksHaveCauses(max, Exec(max, rest).value, last, x);
      }
    }
  }

  /** Over every run: the contexts really open, those being closed aside, stay
      within the capacity up to the leaked ones; and none leaks in a run where no
      creation registers over an open context of its id, and no browser's end
      clears the entry of a context that is still open. */
  lemma OpenContextsAreBounded(max: nat, es: seq<Event>)
    requires Exec(max, es).Some?
    ensures var s := Exec(max, es).value; |s.open.Keys - Closing(s.calls) - s.leaked| <= max
    ensures var s := Exec(max, es).value; TidyRun(max, es) ==> |s.open.Keys - Closing(s.calls)| <= max
  {
    hide Exec, OpenOk, LaunchesOk, TidyRun, Closing;
    ExecInv(max, es);
    ExecOpen(max, es);
    var s := Exec(max, es).value;
    OpenIsBounded(max, s);
    if TidyRun(max, es) {
      TidyRunsLeakNothing(max, es);
      assert s.open.Keys - Closing(s.calls) - s.leaked == s.open.Keys - Closing(s.calls);
    }
  }

  lemma Then(es: seq<Event>, s: State, e: Event, n: State)
    requires Exec(2, es) == Some(s) && Enabled(s, e) && Next(2, s, e) == n
    ensures Exec(2, es + [e]) == Some(n)
  {
    hide Enabled, Next;
    assert (es + [e])[..|es|] == es;
  }

  const Asked := Init.(reserved := 1, launching := Some(0), launches := [InFlight],
    calls := map[1 := AwaitBrowser("a", From(0))])
  const Both := Asked.(reserved := 2, calls := map[1 := AwaitBrowser("a", From(0)), 2 := AwaitBrowser("a", From(0))])
  const Up := Both.(launches := [Settling(Launched(0))], browser := Some(0), connected := {0}, next := 1)
  const Ran := Up.(launches := [Settled(Launched(0))], launching := None)
  const Given1 := Ran.(calls := map[1 := AwaitContext("a", 0), 2 := AwaitBrowser("a", From(0))])
  const Given2 := Ran.(calls := map[1 := AwaitContext("a", 0), 2 := AwaitContext("a", 0)])
  const Opened1 := Ran.(calls := map[1 := AwaitPage("a", 1), 2 := AwaitContext("a", 0)], next := 2, open := map[1 := 0])
  const Opened2 := Ran.(calls := map[1 := AwaitPage("a", 1), 2 := AwaitPage("a", 2)], next := 3,
    open := map[1 := 0, 2 := 0])
  const Listed1 := Opened2.(reserved := 1, calls := map[2 := AwaitPage("a", 2)], contexts := map["a" := 1])
  const Listed2 := Opened2.(reserved := 0, calls := map[], contexts := map["a" := 2], leaked := {1})
  const Third := Listed2.(reserved := 1, calls := map[3 := AwaitBrowser("b", Ready(0))])
  const ThirdGiven := Third.(calls := map[3 := AwaitContext("b", 0)])
  const ThirdOpen := Third.(calls := map[3 := AwaitPage("b", 3)], next := 4, open := map[1 := 0, 2 := 0, 3 := 0])
  const Full := ThirdOpen.(reserved := 0, calls := map[], contexts := map["a" := 2, "b" := 3])

  lemma TwoCreations()
    ensures Next(2, Init, Create(1, "a")) == Asked && Next(2, Asked, Create(2, "a")) == Both
  {
    assert Init.launches + [InFlight] == [InFlight];
    assert Next(2, Init, Create(1, "a")).calls == Asked.calls && Next(2, Asked, Create(2, "a")).calls == Both.calls;
  }

  lemma TheLaunch()
    ensures Enabled(Both, LaunchDone(0, true)) && Next(2, Both, LaunchDone(0, true)) == Up
    ensures Enabled(Up, LaunchFinally(0)) && Next(2, Up, LaunchFinally(0)) == Ran
  {
    assert Next(2, Both, LaunchDone(0, true)).launches == Up.launches;
    assert Next(2, Up, LaunchFinally(0)).launches == Ran.launches;
    assert {} + {0} == {0};
  }

  lemma BothGoOn()
    ensures Enabled(Ran, Resume(1, true)) && Next(2, Ran, Resume(1, true)) == Given1
    ensures Enabled(Given1, Resume(2, true)) && Next(2, Given1, Resume(2, true)) == Given2
  {
    assert Next(2, Ran, Resume(1, true)).calls == Given1.calls;
    assert Next(2, Given1, Resume(2, true)).calls == Given2.calls;
  }

  lemma BothOpen()
    ensures Enabled(Given2, Resume(1, true)) && Next(2, Given2, Resume(1, true)) == Opened1
    ensures Enabled(Opened1, Resume(2, true)) && Next(2, Opened1, Resume(2, true)) == Opened2
  {
    assert Next(2, Given2, Resume(1, true)).open == Opened1.open;
    assert Next(2, Given2, Resume(1, true)).calls == Opened1.calls;
    assert Next(2, Opened1, Resume(2, true)).open == Opened2.open;
    assert Next(2, Opened1, Resume(2, true)).calls == Opened2.calls;
  }

  lemma BothRegister()
    ensures Enabled(Opened2, Resume(1, true)) && Next(2, Opened2, Resume(1, true)) == Listed1
    ensures Enabled(Listed1, Resume(2, true)) && Next(2, Listed1, Resume(2, true)) == Listed2
  {
    assert Next(2, Opened2, Resume(1, true)).contexts == Listed1.contexts;
    assert Next(2, Opened2, Resume(1, true)).calls == Listed1.calls;
    assert Next(2, Listed1, Resume(2, true)).contexts == Listed2.contexts;
    assert Next(2, Listed1, Resume(2, true)).calls == Listed2.calls;
  }

  lemma ThirdStarts()
    ensures Next(2, Listed2, Create(3, "b")) == Third
    ensures Enabled(Third, Resume(3, true)) && Next(2, Third, Resume(3, true)) == ThirdGiven
  {
    assert |Listed2.contexts| == 1;
    assert Next(2, Listed2, Create(3, "b")).calls == Third.calls;
    assert Next(2, Third, Resume(3, true)).calls == ThirdGiven.calls;
  }

  lemma ThirdRegisters()
    ensures Enabled(ThirdGiven, Resume(3, true)) && Next(2, ThirdGiven, Resume(3, true)) == ThirdOpen
    ensures Enabled(ThirdOpen, Resume(3, true)) && Next(2, ThirdOpen, Resume(3, true)) == Full
  {
    assert Next(2, ThirdGiven, Resume(3, true)).open == ThirdOpen.open;
    assert Next(2, ThirdGiven, Resume(3, true)).calls == ThirdOpen.calls;
    assert Next(2, ThirdOpen, Resume(3, true)).contexts == Full.contexts;
    assert Next(2, ThirdOpen, Resume(3, true)).calls == Full.calls;
  }

  /** A reachable run of a pool of two that ends with three contexts open: two
      overlapping creations of one id, then one of another. */
  lemma OverlappingCreationsOverflow()
    ensures exists es: seq<Event> :: Exec(2, es) == Some(Full)
    ensures Full.open.Keys == {1, 2, 3} && |Full.open.Keys| == 3 && Full.calls == map[] && |Full.contexts| == 2
  {
    hide Exec, Enabled, Next;
    NoEvents();
    Creatable();
    TwoCreations();
    TheLaunch();
    BothGoOn();
    var e2 := [] + [Create(1, "a")] + [Create(2, "a")];
    Then([], Init, Create(1, "a"), Asked);
    Then([] + [Create(1, "a")], Asked, Create(2, "a"), Both);
    var e4 := e2 + [LaunchDone(0, true)] + [LaunchFinally(0)];
    Then(e2, Both, LaunchDone(0, true), Up);
    Then(e2 + [LaunchDone(0, true)], Up, LaunchFinally(0), Ran);
    Then(e4, Ran, Resume(1, true), Given1);
    Then(e4 + [Resume(1, true)], Given1, Resume(2, true), Given2);
    OverflowFrom(e4 + [Resume(1, true)] + [Resume(2, true)]);
  }

  lemma OverflowFrom(es: seq<Event>)
    requires Exec(2, es) == Some(Given2)
    ensures exists fs: seq<Event> :: Exec(2, fs) == Some(Full)
  {
    hide Exec, Enabled, Next;
    Creatable();
    BothOpen();
    BothRegister();
    ThirdStarts();
    ThirdRegisters();
    Then(es, Given2, Resume(1, true), Opened1);
    var e2 := es + [Resume(1, true)] + [Resume(2, true)];
    Then(es + [Resume(1, true)], Opened1, Resume(2, true), Opened2);
    Then(e2, Opened2, Resume(1, true), Listed1);
    var e4 := e2 + [Resume(1, true)] + [Resume(2, true)];
    Then(e2 + [Resume(1, true)], Listed1, Resume(2, true), Listed2);
    Then(e4, Listed2, Create(3, "b"), Third);
    var e6 := e4 + [Create(3, "b")] + [Resume(3, true)];
    Then(e4 + [Create(3, "b")], Third, Resume(3, true), ThirdGiven);
    Then(e6, ThirdGiven, Resume(3, true), ThirdOpen);
    Then(e6 + [Resume(3, true)], ThirdOpen, Resume(3, true), Full);
  }

  lemma NoEvents()
    ensures Exec(2, []) == Some(Init)
  {
  }

  lemma Creatable()
    ensures Enabled(Init, Create(1, "a")) && Enabled(Asked, Create(2, "a")) && Enabled(Listed2, Create(3, "b"))
  {
  }

  /** Over every run: at most one launch is in flight, the one new calls wait for. */
  lemma OneLaunchInFlight(max: nat, es: seq<Event>, k: nat, l: nat)
    requires Exec(max, es).Some?
    ensures var s := Exec(max, es).value;
            && (k < |s.launches| && l < |s.launches| && s.launches[k].InFlight? && s.launches[l].InFlight? ==> k == l)
            && (k < |s.launches| && s.launches[k].InFlight? ==> s.launching == Some(k))
  {
    hide Exec, SlotsOk;
    ExecInv(max, es);
  }

  /** A pool at rest accepts as many new contexts as its capacity leaves. */
  lemma IdlePoolHasRoom(max: nat, es: seq<Event>, c: nat, id: string)
    requires Exec(max, es).Some? && Exec(max, es).value.calls == map[] && !Exec(max, es).value.destroyed
    requires id !in Exec(max, es).value.contexts
    ensures var s := Exec(max, es).value;
            s.reserved == 0 && (Next(max, s, Create(c, id)).reserved == 1 <==> |s.contexts| < max)
  {
    hide Exec, LaunchesOk, Ensure;
    ExecInv(max, es);
    var s := Exec(max, es).value;
    assert Holders(s.calls) == {};
    SameLaunches(s, s.(reserved := 1));
    EnsureKeeps(s.(reserved := 1));
  }

  /** A creation is refused exactly when the pool is destroyed or full. */
  lemma RefusedWhenFull(max: nat, s: State, c: nat, id: string)
    requires Enabled(s, Create(c, id)) && id !in s.contexts && LaunchesOk(s)
    ensures c in Next(max, s, Create(c, id)).calls <==> !s.destroyed && |s.contexts| + s.reserved < max
  {
    hide Ensure;
    SameLaunches(s, s.(reserved := s.reserved + 1));
    EnsureKeeps(s.(reserved := s.reserved + 1));
  }

  /** Destroying a context, or replacing one, takes just its entry out and goes on
      to close it. */
  lemma RemovalIsExact(max: nat, s: State, e: Event)
    requires Enabled(s, e) && (e.DestroyContext? || (e.Create? && !s.destroyed)) && e.id in s.contexts
    ensures var n := Next(max, s, e);
            && n.contexts == s.contexts - {e.id} && e.c in n.calls
            && ContextOf(n.calls[e.c]) == Some(s.contexts[e.id]) && !HasSlot(n.calls[e.c])
  {
    hide Reserve;
  }

  /** A launch starts exactly when neither a live browser nor a launch in flight is
      there, and a live browser is used at once. */
  lemma LaunchesWhenNeeded(s: State)
    ensures var (n, source) := Ensure(s);
            var live := s.browser.Some? && s.browser.value in s.connected;
            && n.launches == s.launches + (if !live && s.launching.None? then [InFlight] else [])
            && (live ==> source == Ready(s.browser.value) && n.launching == s.launching)
            && (!live ==> n.launching.Some? && source == From(n.launching.value))
            && n.browser == s.browser && n.contexts == s.contexts && n.calls == s.calls
  {
    assert s.launches + [] == s.launches;
  }

  /** A browser that dies takes its contexts with it; its event then clears the pool,
      and the event of any other browser changes nothing. */
  lemma DeathClearsThePool(max: nat, s: State, b: nat)
    ensures var n := Next(max, s, Crash(b));
            && b !in n.connected && n.connected == s.connected - {b}
            && (forall x :: x in n.open <==> x in s.open && s.open[x] != b)
            && n.contexts == s.contexts && n.browser == s.browser && Enabled(n, Disconnected(b))
            && var d := Next(max, n, Disconnected(b));
            && d.contexts == (if s.browser == Some(b) then map[] else s.contexts)
            && d.browser == (if s.browser == Some(b) then None else s.browser)
  {
  }

  // ------------------------------------------------------ destroying the pool

  predicate Destroying(call: Call) { call.Draining? || call.ClosingBrowser? || call.AwaitLaunch? }

  function Left(call: Call): set<string> { if call.Draining? then set id | id in call.rest else {} }

  predicate Destroys(s: State, c: nat) { c in s.calls && Destroying(s.calls[c]) }

  /** The pool is destroyed as long as its one destroying call runs; only the
      contexts this call has still to close are registered, and after them no
      browser is. */
  ghost predicate DestroyOk(s: State) {
    && (s.destroyed <==> exists c :: Destroys(s, c))
    && (forall c, d :: Destroys(s, c) && Destroys(s, d) ==> c == d)
    && (forall c :: Destroys(s, c) ==> s.contexts.Keys <= Left(s.calls[c]))
    && (forall c :: Destroys(s, c) && !s.calls[c].Draining? ==> s.browser.None?)
  }

  /** Steps of other calls. */
  lemma OthersKeepDestroyOk(s: State, n: State, c: nat)
    requires DestroyOk(s) && n.destroyed == s.destroyed && !Destroys(s, c) && !Destroys(n, c)
    requires forall d :: d != c ==> (d in s.calls <==> d in n.calls) && (d in s.calls ==> n.calls[d] == s.calls[d])
    requires s.destroyed ==> n.contexts.Keys <= s.contexts.Keys && (n.browser == s.browser || n.browser.None?)
    ensures DestroyOk(n)
  {
    assert forall d :: Destroys(n, d) <==> Destroys(s, d);
  }

  /** The destroying call goes on, the contexts before `rest` being gone. */
  lemma DrainKeepsDestroyOk(s: State, c: nat, rest: seq<string>)
    requires s.destroyed && s.contexts.Keys <= (set id | id in rest)
    requires forall d :: Destroys(s, d) ==> d == c
    ensures DestroyOk(Drain(s, c, rest))
    ensures !Drain(s, c, rest).destroyed ==> Drain(s, c, rest).contexts == map[] && Drain(s, c, rest).browser.None?
  {
    var n := Drain(s, c, rest);
    forall d | d != c ensures Destroys(n, d) ==> Destroys(s, d) {}
    if rest != [] {
      assert Destroys(n, c);
      forall id | id in n.contexts.Keys ensures id in rest[1..] {
        assert id in rest && id != rest[0];
        var i :| 0 <= i < |rest| && rest[i] == id;
        assert rest[1..][i - 1] == id;
      }
    } else if s.browser.Some? {
      assert Destroys(n, c);
    } else {
      CloseKeepsDestroyOk(s, c);
    }
  }

  lemma CloseKeepsDestroyOk(s: State, c: nat)
    requires s.destroyed && s.contexts == map[] && s.browser.None?
    requires forall d :: Destroys(s, d) ==> d == c
    ensures DestroyOk(AfterClose(s, c))
    ensures !AfterClose(s, c).destroyed ==> AfterClose(s, c).contexts == map[] && AfterClose(s, c).browser.None?
  {
    var n := AfterClose(s, c);
    forall d | d != c ensures Destroys(n, d) ==> Destroys(s, d) {}
    if s.launching.Some? { assert Destroys(n, c); }
  }

  lemma ResumeKeepsDestroyOk(max: nat, s: State, c: nat, ok: bool)
    requires DestroyOk(s) && Enabled(s, Resume(c, ok))
    ensures DestroyOk(Resumed(max, s, c, ok))
    ensures s.destroyed && !Resumed(max, s, c, ok).destroyed ==>
      Resumed(max, s, c, ok).contexts == map[] && Resumed(max, s, c, ok).browser.None?
  {
    hide DestroyOk, Drain, AfterClose, Resumed;
    var n := Resumed(max, s, c, ok);
    if Destroys(s, c) {
      DestroyStep(max, s, c, ok);
    } else {
      CreationDestroysNothing(max, s, c, ok);
      OthersKeepDestroyOk(s, n, c);
    }
  }

  lemma ReserveDestroysNothing(max: nat, s: State, c: nat, id: string)
    ensures var n := Reserve(max, s, c, id);
            && n.destroyed == s.destroyed && n.browser == s.browser && !Destroys(n, c) && n.contexts == s.contexts
            && forall d :: d != c ==> (d in s.calls <==> d in n.calls) && (d in s.calls ==> n.calls[d] == s.calls[d])
  {
    hide Ensure;
    EnsureKeepsOpen(s.(reserved := s.reserved + 1));
    if |s.contexts| + s.reserved < max {
      var (t, source) := Ensure(s.(reserved := s.reserved + 1));
      assert Reserve(max, s, c, id) == Wait(t, c, AwaitBrowser(id, source));
    } else {
      assert Reserve(max, s, c, id) == End(s, c);
    }
  }

  lemma CreationDestroysNothing(max: nat, s: State, c: nat, ok: bool)
    requires Enabled(s, Resume(c, ok)) && !Destroying(s.calls[c])
    ensures var n := Resumed(max, s, c, ok);
            && n.destroyed == s.destroyed && n.browser == s.browser && !Destroys(n, c)
            && (s.destroyed ==> n.contexts == s.contexts)
            && forall d :: d != c ==> (d in s.calls <==> d in n.calls) && (d in s.calls ==> n.calls[d] == s.calls[d])
  {
    hide Reserve, Drain, AfterClose;
    if s.calls[c].Replacing? { ReserveDestroysNothing(max, Closed(s, s.calls[c].context), c, s.calls[c].id); }
  }

  lemma DestroyStep(max: nat, s: State, c: nat, ok: bool)
    requires DestroyOk(s) && Enabled(s, Resume(c, ok)) && Destroys(s, c)
    ensures DestroyOk(Resumed(max, s, c, ok))
    ensures !Resumed(max, s, c, ok).destroyed ==>
      Resumed(max, s, c, ok).contexts == map[] && Resumed(max, s, c, ok).browser.None?
  {
    hide Drain, AfterClose, Enabled;
    assert s.destroyed;
    match s.calls[c]
    case Draining(rest, closing) =>
      var t := if closing.Some? then Closed(s, closing.value) else s;
      forall d ensures Destroys(t, d) ==> Destroys(s, d) {}
      DrainKeepsDestroyOk(t, c, rest);
    case ClosingBrowser(browser) =>
      var t := Gone(s, browser);
      forall d ensures Destroys(t, d) ==> Destroys(s, d) {}
      assert t.contexts.Keys == {};
      CloseKeepsDestroyOk(t, c);
    case AwaitLaunch(_) =>
      var n := End(s, c).(destroyed := false);
      forall d ensures Destroys(n, d) ==> d != c && Destroys(s, d) {}
      assert n.contexts.Keys == {};
    case _ =>
  }

  lemma NextKeepsDestroyOk(max: nat, s: State, e: Event)
    requires DestroyOk(s) && Enabled(s, e) && (e.Destroy? ==> !s.destroyed)
    ensures DestroyOk(Next(max, s, e))
    ensures s.destroyed && !Next(max, s, e).destroyed ==>
      Next(max, s, e).contexts == map[] && Next(max, s, e).browser.None?
  {
    hide DestroyOk, Drain, Resumed, Left, Reserve, Ensure;
    var n := Next(max, s, e);
    match e
    case Resume(c, ok) => ResumeKeepsDestroyOk(max, s, c, ok);
    case Destroy(c, ids) =>
      NobodyDestroys(s);
      var t := s.(destroyed := true);
      forall d ensures Destroys(t, d) ==> Destroys(s, d) {}
      DrainKeepsDestroyOk(t, c, ids);
    case InitCall(c) =>
      EnsureKeepsOpen(s);
      OthersKeepDestroyOk(s, n, c);
    case Create(c, id) =>
      ReserveDestroysNothing(max, s, c, id);
      OthersKeepDestroyOk(s, n, c);
    case DestroyContext(c, id) => OthersKeepDestroyOk(s, n, c);
    case _ => ElsewhereKeepsDestroyOk(s, n);
  }

  lemma NobodyDestroys(s: State)
    requires DestroyOk(s)
    ensures !s.destroyed ==> forall c :: !Destroys(s, c)
  {
  }

  lemma ElsewhereKeepsDestroyOk(s: State, n: State)
    requires DestroyOk(s) && n.destroyed == s.destroyed && n.calls == s.calls
    requires s.destroyed ==> n.contexts.Keys <= s.contexts.Keys && (n.browser == s.browser || n.browser.None?)
    ensures DestroyOk(n)
  {
    assert forall d :: Destroys(n, d) <==> Destroys(s, d);
  }

  /** No destroy is called during another one. */
  ghost predicate OneDestroyAtATime(max: nat, es: seq<Event>) {
    forall n :: 0 <= n < |es| && es[n].Destroy? && Exec(max, es[..n]).Some? ==> !Exec(max, es[..n]).value.destroyed
  }

  lemma {:induction false} ExecDestroyOk(max: nat, es: seq<Event>)
    requires Exec(max, es).Some? && OneDestroyAtATime(max, es)
    ensures DestroyOk(Exec(max, es).value)
  {
    hide DestroyOk, Next, Enabled;
    if es == [] {
      InitDestroyOk();
    } else {
      var rest := es[..|es| - 1];
      forall n | 0 <= n < |rest| ensures rest[..n] == es[..n] && rest[n] == es[n] {}
      ExecDestroyOk(max, rest);
      NextKeepsDestroyOk(max, Exec(max, rest).value, es[|es| - 1]);
    }
  }

  lemma InitDestroyOk()
    ensures DestroyOk(Init)
  {
  }

  /** Destroying empties the pool: over every run in which no destroy is called
      during another, whatever creations, crashes and launches are in flight, the
      step that ends a destroy leaves no context registered and no browser, and
      until then only contexts still to be closed are registered. */
  lemma DestroyEmptiesThePool(max: nat, es: seq<Event>, e: Event, c: nat)
    requires Exec(max, es).Some? && OneDestroyAtATime(max, es)
    requires Enabled(Exec(max, es).value, e) && (e.Destroy? ==> !Exec(max, es).value.destroyed)
    ensures var s := Exec(max, es).value;
            && (Destroys(s, c) ==> s.destroyed && s.contexts.Keys <= Left(s.calls[c]))
            && (s.destroyed && !Next(max, s, e).destroyed ==>
                 Next(max, s, e).contexts == map[] && Next(max, s, e).browser.None?)
  {
    hide Exec, Next, Enabled;
    ExecDestroyOk(max, es);
    NextKeepsDestroyOk(max, Exec(max, es).value, e);
  }

  // ------------------------------------------------------ the object

  /** The pool's fields; each method is one stretch of an async method between two
      awaits, `c` names the call. */
  class BrowserPool {
    const maxContexts: nat
    var contexts: map<string, nat>
    var reserved: int
    var browser: Option<nat>
    var launching: Option<nat>
    var destroyed: bool
    ghost var pool: State

    ghost predicate Valid()
      reads this
    {
      && pool.contexts == contexts && pool.reserved == reserved && pool.browser == browser
      && pool.launching == launching && pool.destroyed == destroyed
      && Inv(maxContexts, pool)
    }

    constructor (max: nat)
      ensures Valid() && pool == Init && maxContexts == max
    {
      maxContexts := max;
      contexts, reserved, browser, launching, destroyed, pool := map[], 0, None, None, false, Init;
      new;
      InitInv(max);
    }

    /** `isConnected` is the browser's answer. */
    method EnsureBrowser(isConnected: bool, nextLaunch: nat) returns (launch: bool)
      requires browser.Some? ==> isConnected == (browser.value in pool.connected)
      requires pool.browser == browser && pool.launching == launching && nextLaunch == |pool.launches|
      modifies this`launching, this`pool
      ensures pool == Ensure(old(pool)).0 && launching == pool.launching
    {
      launch := !(browser.Some? && isConnected) && launching.None?;
      if launch { launching := Some(nextLaunch); }
      pool := Ensure(pool).0;
    }

    /** `createContext` up to its first await. */
    method CreateContext(c: nat, id: string, isConnected: bool, nextLaunch: nat)
      requires Valid() && c !in pool.calls && nextLaunch == |pool.launches|
      requires browser.Some? ==> isConnected == (browser.value in pool.connected)
      modifies this
      ensures Valid() && pool == Next(maxContexts, old(pool), Create(c, id))
      ensures |contexts| + reserved <= maxContexts
    {
      hide Inv, Next, Ensure;
      ghost var after := Next(maxContexts, pool, Create(c, id));
      Creating(maxContexts, pool, c, id);
      NextKeepsInv(maxContexts, pool, Create(c, id));
      WithinCapacity(maxContexts, after);
      if !destroyed {
        if id in contexts {
          contexts := contexts - {id};
        } else if |contexts| + reserved < maxContexts {
          reserved := reserved + 1;
          pool := pool.(reserved := reserved);
          var launch := EnsureBrowser(isConnected, nextLaunch);
        }
      }
      pool := after;
    }

    /** After `await _ensureBrowser()`. */
    method AfterBrowser(c: nat, given: Option<nat>) returns (goesOn: bool)
      requires Valid() && c in pool.calls && pool.calls[c].AwaitBrowser? && SourceReady(pool, pool.calls[c].source)
      requires given == Given(pool, pool.calls[c].source)
      modifies this
      ensures Valid() && pool == Resumed(maxContexts, old(pool), c, true)
      ensures goesOn <==> !destroyed && given.Some?
      ensures reserved == old(reserved) - (if goesOn then 0 else 1)
    {
      hide Inv;
      NextKeepsInv(maxContexts, pool, Resume(c, true));
      pool := Resumed(maxContexts, pool, c, true);
      goesOn := !destroyed && given.Some?;
      if !goesOn { reserved := reserved - 1; }
    }

    /** After `await context.newPage()`, which succeeded. */
    method AfterPage(c: nat, id: string, context: nat) returns (kept: bool)
      requires Valid() && c in pool.calls && pool.calls[c] == AwaitPage(id, context)
      modifies this
      ensures Valid() && pool == Resumed(maxContexts, old(pool), c, true)
      ensures kept <==> !destroyed
      ensures contexts == if kept then old(contexts)[id := context] else old(contexts)
    {
      hide Inv;
      NextKeepsInv(maxContexts, pool, Resume(c, true));
      pool := Resumed(maxContexts, pool, c, true);
      kept := !destroyed;
      if kept {
        contexts := contexts[id := context];
        reserved := reserved - 1;
      }
    }

    /** The `disconnected` event. */
    method OnDisconnected(closed: nat)
      requires Valid() && closed !in pool.connected
      modifies this
      ensures Valid() && pool == Next(maxContexts, old(pool), Disconnected(closed))
    {
      hide Inv;
      NextKeepsInv(maxContexts, pool, Disconnected(closed));
      pool := Next(maxContexts, pool, Disconnected(closed));
      if browser == Some(closed) { browser, contexts := None, map[]; }
    }
  }

  /** The fields a creation changes before its first await. */
  lemma Creating(max: nat, s: State, c: nat, id: string)
    requires Enabled(s, Create(c, id))
    ensures var n := Next(max, s, Create(c, id));
            var goesOn := !s.destroyed && id !in s.contexts && |s.contexts| + s.reserved < max;
            && n.browser == s.browser && n.destroyed == s.destroyed
            && n.contexts == (if !s.destroyed && id in s.contexts then s.contexts - {id} else s.contexts)
            && n.reserved == s.reserved + (if goesOn then 1 else 0)
            && n.launching == if goesOn then Ensure(s.(reserved := s.reserved + 1)).0.launching else s.launching
  {
    hide Ensure;
    EnsureKeepsOpen(s.(reserved := s.reserved + 1));
  }

  lemma WithinCapacity(max: nat, s: State)
    requires Inv(max, s)
    ensures |s.contexts| + s.reserved <= max
  {
  }
}
