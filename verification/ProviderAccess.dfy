/** TranslatorPython/translator/scheduler.py:62-76 and 126-134: the global
    semaphore and the per-key locks in front of the provider, one event per
    stretch of code between two awaits. Requests are numbered in arrival order. */
module ProviderAccess {
  import opened Options
  import opened Sequences

  datatype Phase = ForLock | ForPermit | Calling

  /** A request inside `freeze` (with its lock) or `_translate` for a tail. */
  datatype Request = Request(key: string, lock: Option<nat>, phase: Phase)

  /** An asyncio lock: requests enter in the order they queued. */
  datatype Lock = Lock(holder: Option<nat>, waiters: seq<nat>, granted: seq<nat>)

  datatype State = State(
    value: int,                     // free permits of the semaphore
    inflight: int,
    table: map<string, nat>,        // _key_locks
    locks: map<nat, Lock>,          // every lock object still referenced
    requests: map<nat, Request>,
    next: nat,
    passed: seq<Pass>)              // history: freezes let in by their lock

  /** A freeze past its lock. */
  datatype Pass = Pass(key: string, request: nat)

  function Init(maxConcurrent: nat): State { State(maxConcurrent, 0, map[], map[], map[], 0, []) }

  datatype Event =
    | FreezeArrives(key: string)
    | TailArrives(key: string)
    | Granted(r: nat)               // the first waiter of a free lock resumes
    | Admitted(r: nat)              // the semaphore lets a request through
    | Over(r: nat)                  // the provider returned, raised or was cancelled
    | Cancelled(r: nat)             // while waiting for the lock or a permit
    | Purge(key: string)

  const NewLock := Lock(None, [], [])

  function Without(s: seq<nat>, r: nat): seq<nat> {
    if s == [] then [] else if s[0] == r then Without(s[1..], r) else [s[0]] + Without(s[1..], r)
  }

  /** `async with lock` by request r: enter, or queue behind the others. */
  function Asked(l: Lock, r: nat): Lock {
    if l.holder.None? && l.waiters == [] then l.(holder := Some(r), granted := l.granted + [r])
    else l.(waiters := l.waiters + [r])
  }

  /** `setdefault(key, Lock())` */
  function LockOf(s: State, key: string): nat { if key in s.table then s.table[key] else s.next }

  function OldLock(s: State, key: string): Lock {
    if key in s.table && s.table[key] in s.locks then s.locks[s.table[key]] else NewLock
  }

  function Released(s: State, r: nat): map<nat, Lock>
    requires r in s.requests
  {
    var l := s.requests[r].lock;
    if l.Some? && l.value in s.locks && s.locks[l.value].holder == Some(r) then
      s.locks[l.value := s.locks[l.value].(holder := None)]
    else s.locks
  }

  function Dequeued(s: State, r: nat): map<nat, Lock>
    requires r in s.requests
  {
    var l := s.requests[r].lock;
    if l.Some? && l.value in s.locks then
      s.locks[l.value := s.locks[l.value].(waiters := Without(s.locks[l.value].waiters, r))]
    else s.locks
  }

  predicate Enabled(s: State, e: Event) {
    match e
    case Granted(r) =>
      r in s.requests && s.requests[r].phase.ForLock? && s.requests[r].lock.Some? &&
        s.requests[r].lock.value in s.locks &&
      (var l := s.locks[s.requests[r].lock.value]; l.holder.None? && l.waiters != [] && l.waiters[0] == r)
    case Admitted(r) => r in s.requests && s.requests[r].phase.ForPermit? && s.value > 0
    case Over(r) => r in s.requests && s.requests[r].phase.Calling?
    case Cancelled(r) => r in s.requests && !s.requests[r].phase.Calling?
    case _ => true
  }

  function Next(s: State, e: Event): State
    requires Enabled(s, e)
  {
    match e
    case FreezeArrives(key) =>
      var l := LockOf(s, key);
      var lock := Asked(OldLock(s, key), s.next);
      s.(table := s.table[key := l], locks := s.locks[l := lock], next := s.next + 1,
         passed := if lock.holder == Some(s.next) then s.passed + [Pass(key, s.next)] else s.passed,
         requests := s.requests[s.next := Request(key, Some(l), if lock.holder == Some(s.next) then ForPermit
           else ForLock)])
    case TailArrives(key) => s.(next := s.next + 1, requests := s.requests[s.next := Request(key, None, ForPermit)])
    case Granted(r) =>
      var l := s.requests[r].lock.value;
      var lock := s.locks[l];
      s.(locks := s.locks[l := Lock(Some(r), lock.waiters[1..], lock.granted + [r])],
         requests := s.requests[r := s.requests[r].(phase := ForPermit)],
           passed := s.passed + [Pass(s.requests[r].key, r)])
    case Admitted(r) => s.(value := s.value - 1, inflight := s.inflight + 1,
      requests := s.requests[r := s.requests[r].(phase := Calling)])
    case Over(r) => s.(value := s.value + 1, inflight := s.inflight - 1, locks := Released(s, r),
      requests := s.requests - {r})
    case Cancelled(r) => s.(locks := if s.requests[r].phase.ForLock? then Dequeued(s, r)
      else Released(s, r), requests := s.requests - {r})
    case Purge(key) =>
      if key in s.table && s.table[key] in s.locks && s.locks[s.table[key]].holder.None? then
        s.(table := s.table - {key}) else s
  }

  function Exec(max: nat, es: seq<Event>): Option<State> {
    if es == [] then Some(Init(max)) else
    var before := Exec(max, es[..|es| - 1]);
    if before.Some? && Enabled(before.value, es[|es| - 1]) then Some(Next(before.value, es[|es| - 1])) else None
  }

  // ------------------------------------------------------ what every step keeps

  function InProvider(requests: map<nat, Request>): set<nat> { set r | r in requests && requests[r].phase.Calling? }

  ghost predicate PermitsOk(max: nat, s: State) {
    s.value >= 0 && s.inflight == |InProvider(s.requests)| == max - s.value
  }

  /** A lock lets in one request at a time, in the order they arrived. */
  ghost predicate LockOk(s: State, id: nat, l: Lock) {
    && id < s.next
    && Increasing(l.granted + l.waiters)
    && (forall i :: 0 <= i < |l.granted + l.waiters| ==> (l.granted + l.waiters)[i] < s.next)
    && (l.holder.Some? ==>
         && l.holder.value in s.requests
         && s.requests[l.holder.value].lock == Some(id)
         && !s.requests[l.holder.value].phase.ForLock?)
    && (forall i :: 0 <= i < |l.waiters| ==>
         l.waiters[i] in s.requests && s.requests[l.waiters[i]].lock == Some(id) &&
           s.requests[l.waiters[i]].phase.ForLock?)
  }

  ghost predicate RequestOk(s: State, r: nat, q: Request) {
    && r < s.next
    && (q.lock.None? ==> !q.phase.ForLock?)
    && (q.lock.Some? ==>
         && q.lock.value in s.locks
         && (if q.phase.ForLock? then r in s.locks[q.lock.value].waiters else s.locks[q.lock.value].holder == Some(r)))
  }

  ghost predicate Inv(max: nat, s: State) {
    && PermitsOk(max, s)
    && (forall id :: id in s.locks ==> LockOk(s, id, s.locks[id]))
    && (forall r :: r in s.requests ==> RequestOk(s, r, s.requests[r]))
    && (forall key :: key in s.table ==> s.table[key] in s.locks)
    && (forall j, k :: j in s.table && k in s.table && s.table[j] == s.table[k] ==> j == k)
  }

  lemma {:induction false} WithoutRemoves(s: seq<nat>, r: nat)
    requires Increasing(s)
    ensures Increasing(Without(s, r))
    ensures forall x :: x in Without(s, r) <==> x in s && x != r
  {
    if s != [] {
      assert Increasing(s[1..]);
      WithoutRemoves(s[1..], r);
      assert s == [s[0]] + s[1..];
      assert forall x :: x in s[1..] ==> s[0] < x;
      var rest := Without(s[1..], r);
      forall j | 0 <= j < |rest| ensures s[0] < rest[j] { assert rest[j] in rest; }
    }
  }

  /** The rest of the state in which a lock's facts were established may change
      as long as its requests do not. */
  lemma LockStays(s: State, n: State, id: nat, r: nat)
    requires id in s.locks && LockOk(s, id, s.locks[id]) && s.next <= n.next
    requires forall q :: q in s.requests && q != r ==> q in n.requests && n.requests[q] == s.requests[q]
    requires s.locks[id].holder != Some(r) && r !in s.locks[id].waiters
    ensures LockOk(n, id, s.locks[id])
  {
    hide Increasing;
  }

  lemma CancelledWaiter(s: State, n: State, id: nat, r: nat)
    requires id in s.locks && LockOk(s, id, s.locks[id]) && s.next == n.next
    requires forall q :: q in s.requests && q != r ==> q in n.requests && n.requests[q] == s.requests[q]
    requires r in s.locks[id].waiters && r in s.requests && s.requests[r].phase.ForLock?
    ensures LockOk(n, id, s.locks[id].(waiters := Without(s.locks[id].waiters, r)))
  {
    var l := s.locks[id];
    IncreasingSum(l.granted, l.waiters);
    WithoutRemoves(l.waiters, r);
    var w := Without(l.waiters, r);
    IncreasingSum(l.granted, w);
    forall i | 0 <= i < |l.granted + w| ensures (l.granted + w)[i] < s.next {
      var x := (l.granted + w)[i];
      assert x in l.granted + l.waiters by { if i >= |l.granted| { assert w[i - |l.granted|] in l.waiters; } }
    }
    forall i | 0 <= i < |w|
      ensures w[i] in n.requests && n.requests[w[i]].lock == Some(id) && n.requests[w[i]].phase.ForLock? {
      assert w[i] in w;
    }
  }

  lemma AskedLock(s: State, n: State, id: nat, l: Lock)
    requires if id in s.locks then l == s.locks[id] && LockOk(s, id, l) else l == NewLock
    requires id < n.next == s.next + 1
    requires forall q :: q in s.requests ==> q < s.next && q in n.requests && n.requests[q] == s.requests[q]
    requires s.next in n.requests && n.requests[s.next].lock == Some(id)
    requires n.requests[s.next].phase == if Asked(l, s.next).holder == Some(s.next) then ForPermit else ForLock
    ensures LockOk(n, id, Asked(l, s.next))
  {
    var a := Asked(l, s.next);
    assert a.granted + a.waiters == (l.granted + l.waiters) + [s.next];
  }

  lemma GrantedLock(s: State, n: State, r: nat)
    requires Enabled(s, Granted(r)) && n == Next(s, Granted(r)) &&
      LockOk(s, s.requests[r].lock.value, s.locks[s.requests[r].lock.value])
    ensures var id := s.requests[r].lock.value; LockOk(n, id, n.locks[id])
  {
    var l := s.locks[s.requests[r].lock.value];
    assert (l.granted + [r]) + l.waiters[1..] == l.granted + l.waiters;
    IncreasingSum(l.granted, l.waiters);
    assert forall i :: 0 < i < |l.waiters| ==> l.waiters[i] != r;
  }

  lemma ReleasedLock(s: State, n: State, id: nat, r: nat)
    requires id in s.locks && LockOk(s, id, s.locks[id]) && s.next == n.next && s.locks[id].holder == Some(r)
    requires forall q :: q in s.requests && q != r ==> q in n.requests && n.requests[q] == s.requests[q]
    ensures LockOk(n, id, s.locks[id].(holder := None))
  {
    hide Increasing;
  }

  lemma Numbered(max: nat, s: State)
    requires Inv(max, s)
    ensures forall r :: r in s.requests ==> r < s.next
    ensures forall id :: id in s.locks ==>
      id < s.next && s.next !in s.locks[id].waiters && s.locks[id].holder != Some(s.next)
  {
    hide PermitsOk, Increasing;
    forall id | id in s.locks
      ensures id < s.next && s.next !in s.locks[id].waiters && s.locks[id].holder != Some(s.next) {
      var l := s.locks[id];
      assert LockOk(s, id, l);
      assert forall i :: 0 <= i < |l.waiters| ==> l.waiters[i] == (l.granted + l.waiters)[|l.granted| + i];
      assert forall r :: r in s.requests ==> RequestOk(s, r, s.requests[r]);
    }
    assert forall r :: r in s.requests ==> RequestOk(s, r, s.requests[r]);
  }

  lemma ArrivalKeepsInv(max: nat, s: State, e: Event)
    requires Inv(max, s) && (e.FreezeArrives? || e.TailArrives?)
    ensures Inv(max, Next(s, e))
  {
    hide Asked, LockOk, RequestOk;
    var n := Next(s, e);
    Numbered(max, s);
    assert InProvider(n.requests) == InProvider(s.requests);
    forall id | id in n.locks ensures LockOk(n, id, n.locks[id]) {
      if e.FreezeArrives? && id == LockOf(s, e.key) { AskedLock(s, n, id, OldLock(s, e.key)); }
      else { LockStays(s, n, id, s.next); }
    }
    forall r | r in n.requests ensures RequestOk(n, r, n.requests[r]) {
      NewcomerOk(max, s, n, e, r);
    }
  }

  lemma NewcomerOk(max: nat, s: State, n: State, e: Event, r: nat)
    requires Inv(max, s) && (e.FreezeArrives? || e.TailArrives?) && n == Next(s, e) && r in n.requests
    ensures RequestOk(n, r, n.requests[r])
  {
    Numbered(max, s);
    hide LockOk, PermitsOk;
    if r != s.next { assert RequestOk(s, r, s.requests[r]); }
    else if e.FreezeArrives? {
      var l := OldLock(s, e.key);
      assert l.holder != Some(s.next);
    }
  }

  lemma GrantKeepsInv(max: nat, s: State, e: Event)
    requires Inv(max, s) && e.Granted? && Enabled(s, e)
    ensures Inv(max, Next(s, e))
  {
    hide LockOk;
    var n := Next(s, e);
    var mine := s.requests[e.r].lock.value;
    assert InProvider(n.requests) == InProvider(s.requests);
    GrantedLock(s, n, e.r);
    forall id | id in n.locks ensures LockOk(n, id, n.locks[id]) {
      if id != mine { NotMine(max, s, id, e.r); LockStays(s, n, id, e.r); }
    }
    forall r | r in n.requests ensures RequestOk(n, r, n.requests[r]) { assert RequestOk(s, r, s.requests[r]); }
  }

  /** A request holds or waits for its own lock only. */
  lemma NotMine(max: nat, s: State, id: nat, r: nat)
    requires Inv(max, s) && id in s.locks && r in s.requests && s.requests[r].lock != Some(id)
    ensures s.locks[id].holder != Some(r) && r !in s.locks[id].waiters
  {
    hide Increasing, PermitsOk, RequestOk;
    assert LockOk(s, id, s.locks[id]);
  }

  lemma AdmitKeepsInv(max: nat, s: State, e: Event)
    requires Inv(max, s) && e.Admitted? && Enabled(s, e)
    ensures Inv(max, Next(s, e))
  {
    hide Increasing;
    var n := Next(s, e);
    assert InProvider(n.requests) == InProvider(s.requests) + {e.r};
    forall id | id in n.locks ensures LockOk(n, id, n.locks[id]) { assert LockOk(s, id, s.locks[id]); }
    forall r | r in n.requests ensures RequestOk(n, r, n.requests[r]) { assert RequestOk(s, r, s.requests[r]); }
  }

  /** The lock side of a request's end. */
  lemma EndKeepsLocks(max: nat, s: State, n: State, r: nat)
    requires Inv(max, s) && r in s.requests && n.requests == s.requests - {r} && n.next == s.next
    requires n.locks == if s.requests[r].phase.ForLock? then Dequeued(s, r) else Released(s, r)
    ensures forall id :: id in n.locks ==> LockOk(n, id, n.locks[id])
    ensures forall q :: q in n.requests ==> RequestOk(n, q, n.requests[q])
  {
    hide LockOk, PermitsOk;
    assert RequestOk(s, r, s.requests[r]);
    forall id | id in n.locks ensures LockOk(n, id, n.locks[id]) {
      if s.requests[r].lock != Some(id) { NotMine(max, s, id, r); LockStays(s, n, id, r); }
      else if s.requests[r].phase.ForLock? { CancelledWaiter(s, n, id, r); }
      else { ReleasedLock(s, n, id, r); }
    }
    forall q | q in n.requests ensures RequestOk(n, q, n.requests[q]) {
      assert RequestOk(s, q, s.requests[q]);
      OthersWait(max, s, r, q);
    }
  }

  lemma OthersWait(max: nat, s: State, r: nat, q: nat)
    requires Inv(max, s) && r in s.requests && q in s.requests && q != r
    ensures s.requests[q].lock.Some? && s.requests[q].lock.value in s.locks && s.requests[q].phase.ForLock? ==>
      q in Without(s.locks[s.requests[q].lock.value].waiters, r)
  {
    hide PermitsOk;
    assert RequestOk(s, q, s.requests[q]);
    if s.requests[q].lock.Some? && s.requests[q].phase.ForLock? {
      var l := s.locks[s.requests[q].lock.value];
      assert LockOk(s, s.requests[q].lock.value, l);
      IncreasingSum(l.granted, l.waiters);
      WithoutRemoves(l.waiters, r);
    }
  }

  lemma EndKeepsInv(max: nat, s: State, e: Event)
    requires Inv(max, s) && (e.Over? || e.Cancelled?) && Enabled(s, e)
    ensures Inv(max, Next(s, e))
  {
    hide LockOk, RequestOk;
    var n := Next(s, e);
    EndKeepsLocks(max, s, n, e.r);
    assert InProvider(n.requests) == InProvider(s.requests) - {e.r};
  }

  lemma NextKeepsInv(max: nat, s: State, e: Event)
    requires Inv(max, s) && Enabled(s, e)
    ensures Inv(max, Next(s, e))
  {
    hide Enabled;
    match e
    case FreezeArrives(_) => ArrivalKeepsInv(max, s, e);
    case TailArrives(_) => ArrivalKeepsInv(max, s, e);
    case Granted(_) => GrantKeepsInv(max, s, e);
    case Admitted(_) => AdmitKeepsInv(max, s, e);
    case Purge(_) => PurgeKeepsInv(max, s, e);
    case _ => EndKeepsInv(max, s, e);
  }

  lemma PurgeKeepsInv(max: nat, s: State, e: Event)
    requires Inv(max, s) && e.Purge?
    ensures Inv(max, Next(s, e))
  {
    hide Increasing;
    var n := Next(s, e);
    forall id | id in n.locks ensures LockOk(n, id, n.locks[id]) { assert LockOk(s, id, s.locks[id]); }
    forall r | r in n.requests ensures RequestOk(n, r, n.requests[r]) { assert RequestOk(s, r, s.requests[r]); }
  }

  lemma {:induction false} ExecInv(max: nat, es: seq<Event>)
    ensures Exec(max, es).Some? ==> Inv(max, Exec(max, es).value)
  {
    hide Inv, Enabled, Next;
    if es == [] {
      InitInv(max);
    } else {
      ExecInv(max, es[..|es| - 1]);
      var before := Exec(max, es[..|es| - 1]);
      if before.Some? && Enabled(before.value, es[|es| - 1]) { NextKeepsInv(max, before.value, es[|es| - 1]); }
    }
  }

  lemma InitInv(max: nat)
    ensures Inv(max, Init(max))
  {
    assert InProvider(map[]) == {};
  }

  // ------------------------------------------------------ the theorems

  /** Over every run, with any failures and cancellations: `inflight` counts the
      requests in the provider, equals the permits held and never exceeds the cap. */
  lemma InflightIsPermitsHeld(max: nat, es: seq<Event>)
    requires Exec(max, es).Some?
    ensures var s := Exec(max, es).value; s.inflight == |InProvider(s.requests)| == max - s.value <= max
  {
    hide Exec;
    ExecInv(max, es);
  }

  predicate PastLock(s: State, id: nat, r: nat) {
    r in s.requests && s.requests[r].lock == Some(id) && !s.requests[r].phase.ForLock?
  }

  /** Over every run: past one lock there is at most one request, and requests
      pass it in the order they arrived. */
  lemma LocksAreFifo(max: nat, es: seq<Event>, id: nat, q: nat, r: nat)
    requires Exec(max, es).Some? && id in Exec(max, es).value.locks
    ensures var s := Exec(max, es).value;
            && (forall i, j :: 0 <= i < j < |s.locks[id].granted| ==> s.locks[id].granted[i] < s.locks[id].granted[j])
            && (forall g, w :: g in s.locks[id].granted && w in s.locks[id].waiters ==> g < w)
            && (PastLock(s, id, q) && PastLock(s, id, r) ==> q == r)
  {
    hide Exec;
    ExecInv(max, es);
    var s := Exec(max, es).value;
    assert LockOk(s, id, s.locks[id]);
    IncreasingSum(s.locks[id].granted, s.locks[id].waiters);
    if q in s.requests && r in s.requests { assert RequestOk(s, q, s.requests[q]) && RequestOk(s, r, s.requests[r]); }
  }

  /** An arrival is one more request and changes no other. A tail waits for a permit
      at once; a freeze is past the lock its key has in the table when that lock is
      free and nobody queues there, and else queues behind everyone. */
  lemma ArrivalsQueueUp(max: nat, es: seq<Event>, e: Event)
    requires Exec(max, es).Some? && (e.FreezeArrives? || e.TailArrives?)
    ensures var s := Exec(max, es).value;
            var n := Next(s, e);
            && s.next !in s.requests && s.next in n.requests && n.requests - {s.next} == s.requests
            && n.requests[s.next].key == e.key
            && (e.TailArrives? ==> n.requests[s.next] == Request(e.key, None, ForPermit) && n.locks == s.locks)
            && (e.FreezeArrives? ==>
                 && e.key in n.table && n.requests[s.next].lock == Some(n.table[e.key])
                 && n.table[e.key] in n.locks
                 && (e.key in s.table ==> n.table[e.key] == s.table[e.key])
                 && var l, before := n.locks[n.table[e.key]], OldLock(s, e.key);
                    var free := before.holder.None? && before.waiters == [];
                    && (free ==>
                         n.requests[s.next].phase.ForPermit? && l.holder == Some(s.next) && l.waiters == [])
                    && (!free ==>
                         && n.requests[s.next].phase.ForLock?
                         && l.holder == before.holder && l.waiters == before.waiters + [s.next]))
  {
    hide Exec, PermitsOk, LockOk, RequestOk;
    ExecInv(max, es);
    Numbered(max, Exec(max, es).value);
  }

  /** Nobody is stuck: with a permit at all, in every reachable state with requests
      some request can go on, whoever waits for what. */
  lemma SomebodyGoesOn(max: nat, es: seq<Event>)
    requires Exec(max, es).Some? && max >= 1 && Exec(max, es).value.requests != map[]
    ensures var s := Exec(max, es).value;
            exists r :: r in s.requests && (Enabled(s, Granted(r)) || Enabled(s, Admitted(r)) || Enabled(s, Over(r)))
  {
    hide Exec, Inv, Enabled;
    ExecInv(max, es);
    var s := Exec(max, es).value;
    var r :| r in s.requests;
    if !s.requests[r].phase.ForLock? {
      PastLockGoesOn(max, s, r);
    } else {
      LockedOut(max, s, r);
      var l := s.locks[s.requests[r].lock.value];
      if l.holder.Some? { PastLockGoesOn(max, s, l.holder.value); }
    }
  }

  /** Who waits for a lock waits for its holder, or for the first waiter to resume. */
  lemma LockedOut(max: nat, s: State, r: nat)
    requires Inv(max, s) && r in s.requests && s.requests[r].phase.ForLock?
    ensures s.requests[r].lock.Some? && s.requests[r].lock.value in s.locks
    ensures var l := s.locks[s.requests[r].lock.value];
            && l.waiters != [] && l.waiters[0] in s.requests
            && (if l.holder.None? then Enabled(s, Granted(l.waiters[0]))
                else l.holder.value in s.requests && !s.requests[l.holder.value].phase.ForLock?)
  {
    hide PermitsOk, Increasing;
    assert RequestOk(s, r, s.requests[r]);
    assert LockOk(s, s.requests[r].lock.value, s.locks[s.requests[r].lock.value]);
  }

  lemma PastLockGoesOn(max: nat, s: State, r: nat)
    requires Inv(max, s) && max >= 1 && r in s.requests && !s.requests[r].phase.ForLock?
    ensures exists q :: q in s.requests && (Enabled(s, Granted(q)) || Enabled(s, Admitted(q)) || Enabled(s, Over(q)))
  {
    hide LockOk, RequestOk;
    if s.requests[r].phase.Calling? {
      assert Enabled(s, Over(r));
    } else if s.value > 0 {
      assert Enabled(s, Admitted(r));
    } else {
      assert InProvider(s.requests) != {};
      var q :| q in InProvider(s.requests);
      assert Enabled(s, Over(q));
    }
  }

  // ------------------------------------------------------ one lock per key?

  /** Every freeze uses the lock its key has in the table. */
  predicate Attached(s: State) {
    forall r :: r in s.requests && s.requests[r].lock.Some? ==>
      s.requests[r].key in s.table && s.table[s.requests[r].key] == s.requests[r].lock.value
  }

  /** As long as freezes are attached, at most one per key is past its lock. */
  lemma AttachedKeysAreExclusive(max: nat, s: State, q: nat, r: nat)
    requires Inv(max, s) && Attached(s) && q in s.requests && r in s.requests
    requires s.requests[q].key == s.requests[r].key && s.requests[q].lock.Some? && s.requests[r].lock.Some?
    requires !s.requests[q].phase.ForLock? && !s.requests[r].phase.ForLock?
    ensures q == r
  {
    hide PermitsOk, LockOk;
    assert RequestOk(s, q, s.requests[q]) && RequestOk(s, r, s.requests[r]);
  }

  /** Only a purge can detach freezes. */
  lemma OthersKeepAttached(max: nat, s: State, e: Event)
    requires Inv(max, s) && Attached(s) && Enabled(s, e) && !e.Purge?
    ensures Attached(Next(s, e))
  {
    hide LockOk, PermitsOk, RequestOk, Asked, Released, Dequeued;
  }

  /** A purge detaches freezes exactly when the lock is free with requests still
      queued: `locked()` is false between a release and the next waiter's turn. */
  lemma PurgeDetaches(max: nat, s: State, key: string)
    requires Inv(max, s) && Attached(s)
    ensures Attached(Next(s, Purge(key))) <==>
      !(key in s.table && s.locks[s.table[key]].holder.None? && s.locks[s.table[key]].waiters != [])
  {
    hide PermitsOk, Increasing;
    if key in s.table && s.locks[s.table[key]].holder.None? {
      var id := s.table[key];
      assert LockOk(s, id, s.locks[id]);
      if s.locks[id].waiters == [] {
        forall r | r in s.requests && s.requests[r].lock.Some? ensures s.requests[r].key != key {
          assert RequestOk(s, r, s.requests[r]);
        }
      } else {
        var w := s.locks[id].waiters[0];
        assert w in s.requests && s.requests[w].lock == Some(id) && s.requests[w].key == key;
      }
    }
  }

  // ------------------------------------------------------ freezes of one key, in order

  /** A purge of a lock that is free with requests queued on it. */
  predicate Hasty(s: State, e: Event) {
    e.Purge? && e.key in s.table && s.table[e.key] in s.locks &&
    s.locks[s.table[e.key]].holder.None? && s.locks[s.table[e.key]].waiters != []
  }

  ghost predicate PatientRun(max: nat, es: seq<Event>) {
    forall n :: 0 <= n < |es| && Exec(max, es[..n]).Some? ==> !Hasty(Exec(max, es[..n]).value, es[n])
  }

  /** Freezes of one key pass in arrival order, before those still waiting. */
  ghost predicate KeyOrder(s: State) {
    && (forall i :: 0 <= i < |s.passed| ==> s.passed[i].request < s.next)
    && (forall i, j :: 0 <= i < j < |s.passed| && s.passed[i].key == s.passed[j].key ==>
         s.passed[i].request < s.passed[j].request)
    && (forall i, r :: 0 <= i < |s.passed| && r in s.requests ==>
         (s.requests[r].phase.ForLock? && s.requests[r].key == s.passed[i].key ==> s.passed[i].request < r))
  }

  lemma PassKeepsOrder(s: State, n: State, r: nat)
    requires KeyOrder(s) && r < n.next && s.next <= n.next && r in n.requests &&
      n.passed == s.passed + [Pass(n.requests[r].key, r)]
    requires forall i :: 0 <= i < |s.passed| && s.passed[i].key == n.requests[r].key ==> s.passed[i].request < r
    requires forall q :: q in n.requests && n.requests[q].phase.ForLock? ==>
      q in s.requests && n.requests[q] == s.requests[q]
    requires forall q :: q in n.requests && n.requests[q].phase.ForLock? && n.requests[q].key == n.requests[r].key ==>
      r < q
    ensures KeyOrder(n)
  {
    assert forall i :: 0 <= i < |s.passed| ==> n.passed[i] == s.passed[i];
  }

  lemma WaitKeepsOrder(s: State, n: State)
    requires KeyOrder(s) && n.passed == s.passed && s.next <= n.next
    requires forall q :: q in n.requests && n.requests[q].phase.ForLock? ==>
      q >= s.next || (q in s.requests && n.requests[q] == s.requests[q])
    ensures KeyOrder(n)
  {
  }

  lemma ArrivalKeepsOrder(max: nat, s: State, e: Event)
    requires Inv(max, s) && Attached(s) && KeyOrder(s) && e.FreezeArrives?
    ensures KeyOrder(Next(s, e))
  {
    hide KeyOrder, PermitsOk, LockOk, Increasing;
    var n := Next(s, e);
    Numbered(max, s);
    if n.passed == s.passed { WaitKeepsOrder(s, n); return; }
    forall q | q in s.requests && s.requests[q].key == e.key ensures !s.requests[q].phase.ForLock? {
      assert RequestOk(s, q, s.requests[q]);
    }
    PassedAreOld(s);
    PassKeepsOrder(s, n, s.next);
  }

  lemma PassedAreOld(s: State)
    requires KeyOrder(s)
    ensures forall i :: 0 <= i < |s.passed| ==> s.passed[i].request < s.next
  {
  }

  lemma GrantKeepsOrder(max: nat, s: State, e: Event)
    requires Inv(max, s) && Attached(s) && KeyOrder(s) && e.Granted? && Enabled(s, e)
    ensures KeyOrder(Next(s, e))
  {
    hide PermitsOk;
    var n := Next(s, e);
    Numbered(max, s);
    var id := s.requests[e.r].lock.value;
    var l := s.locks[id];
    assert LockOk(s, id, l);
    IncreasingSum(l.granted, l.waiters);
    forall q | q in n.requests && n.requests[q].phase.ForLock? && n.requests[q].key == s.requests[e.r].key
      ensures e.r < q {
      assert RequestOk(s, q, s.requests[q]) && q in l.waiters;
    }
    PassKeepsOrder(s, n, e.r);
  }

  lemma NextKeepsOrder(max: nat, s: State, e: Event)
    requires Inv(max, s) && Attached(s) && KeyOrder(s) && Enabled(s, e)
    ensures KeyOrder(Next(s, e))
  {
    hide KeyOrder, Inv, Attached;
    match e
    case FreezeArrives(_) => ArrivalKeepsOrder(max, s, e);
    case Granted(_) => GrantKeepsOrder(max, s, e);
    case _ => WaitKeepsOrder(s, Next(s, e));
  }

  lemma PatientStep(max: nat, s: State, e: Event)
    requires Inv(max, s) && Attached(s) && Enabled(s, e) && !Hasty(s, e)
    ensures Attached(Next(s, e))
  {
    hide LockOk, RequestOk, PermitsOk, Attached, Next;
    if e.Purge? { PurgeDetaches(max, s, e.key); } else { OthersKeepAttached(max, s, e); }
  }

  lemma InitOrdered(max: nat)
    ensures Attached(Init(max)) && KeyOrder(Init(max))
  {
  }

  lemma {:induction false} PatientRunsStayAttached(max: nat, es: seq<Event>)
    ensures Exec(max, es).Some? && PatientRun(max, es) ==>
              Attached(Exec(max, es).value) && KeyOrder(Exec(max, es).value)
  {
    hide Enabled, Next, Attached, KeyOrder, Hasty, Inv;
    if es == [] {
      InitOrdered(max);
    } else if Exec(max, es).Some? && PatientRun(max, es) {
      var rest, last := es[..|es| - 1], es[|es| - 1];
      forall n | 0 <= n < |rest| ensures rest[..n] == es[..n] && rest[n] == es[n] {}
      PatientRunsStayAttached(max, rest);
      ExecInv(max, rest);
      PatientStep(max, Exec(max, rest).value, last);
      NextKeepsOrder(max, Exec(max, rest).value, last);
    }
  }

  /** Two freezes of one key are with the provider. */
  ghost predicate TwoOfOneKey(s: State) {
    exists q, r :: q in s.requests && r in s.requests && Rivals(s, q, r)
  }

  predicate Rivals(s: State, q: nat, r: nat)
    requires q in s.requests && r in s.requests
  {
    && q != r && s.requests[q].key == s.requests[r].key
    && s.requests[q].lock.Some? && s.requests[r].lock.Some?
    && s.requests[q].phase.Calling? && s.requests[r].phase.Calling?
  }

  /** In every run whose purges never hit a free lock with requests queued on it,
      freezes are sequential per key: each uses its key's lock, at most one is
      with the provider, and they pass in arrival order. */
  lemma FreezesAreSequentialPerKey(max: nat, es: seq<Event>)
    ensures Exec(max, es).Some? && PatientRun(max, es) ==>
              var s := Exec(max, es).value;
              && Attached(s)
              && !TwoOfOneKey(s)
              && (forall i, j :: 0 <= i < j < |s.passed| && s.passed[i].key == s.passed[j].key ==>
                   s.passed[i].request < s.passed[j].request)
  {
    hide Exec, Attached, PatientRun, Inv;
    if Exec(max, es).Some? && PatientRun(max, es) {
      ExecInv(max, es);
      PatientRunsStayAttached(max, es);
      AttachedExcludesRivals(max, Exec(max, es).value);
    }
  }

  lemma AttachedExcludesRivals(max: nat, s: State)
    requires Inv(max, s) && Attached(s)
    ensures !TwoOfOneKey(s)
  {
    hide Inv, Attached;
    forall q, r | q in s.requests && r in s.requests && q != r ensures !Rivals(s, q, r) {
      if Rivals(s, q, r) { AttachedKeysAreExclusive(max, s, q, r); }
    }
  }

  // ------------------------------------------------------ once a freeze is detached

  /** The freeze uses a lock that is not its key's in the table. */
  predicate Detached(s: State, r: nat) {
    r in s.requests && s.requests[r].lock.Some? &&
    !(s.requests[r].key in s.table && s.table[s.requests[r].key] == s.requests[r].lock.value)
  }

  /** The lock of a key in the table is used by freezes of that key only. */
  ghost predicate Keyed(s: State) {
    forall r, key :: r in s.requests && key in s.table && s.requests[r].lock == Some(s.table[key]) ==>
      s.requests[r].key == key
  }

  lemma NextKeepsKeyed(max: nat, s: State, e: Event)
    requires Inv(max, s) && Keyed(s) && Enabled(s, e)
    ensures Keyed(Next(s, e))
  {
    Numbered(max, s);
    hide LockOk, PermitsOk, Asked, Released, Dequeued;
    if e.FreezeArrives? {
      forall r | r in s.requests && s.requests[r].lock.Some? ensures s.requests[r].lock.value < s.next {
        assert RequestOk(s, r, s.requests[r]);
      }
    }
  }

  lemma {:induction false} ExecKeyed(max: nat, es: seq<Event>)
    requires Exec(max, es).Some?
    ensures Keyed(Exec(max, es).value)
  {
    hide Inv, Enabled, Next, Keyed;
    if es == [] {
      InitKeyed(max);
    } else {
      ExecKeyed(max, es[..|es| - 1]);
      ExecInv(max, es[..|es| - 1]);
      NextKeepsKeyed(max, Exec(max, es[..|es| - 1]).value, es[|es| - 1]);
    }
  }

  lemma InitKeyed(max: nat)
    ensures Keyed(Init(max))
  {
  }

  /** Events that follow from a state, without a purge. */
  function Follow(s: State, es: seq<Event>): Option<State>
    decreases |es|
  {
    if es == [] then Some(s)
    else if Enabled(s, es[0]) && !es[0].Purge? then Follow(Next(s, es[0]), es[1..])
    else None
  }

  lemma {:induction false} FollowSum(s: State, a: seq<Event>, b: seq<Event>)
    requires Follow(s, a).Some?
    ensures Follow(s, a + b) == Follow(Follow(s, a).value, b)
    decreases |a|
  {
    hide Enabled, Next;
    if a == [] {
      assert a + b == b;
    } else {
      assert (a + b)[1..] == a[1..] + b;
      FollowSum(Next(s, a[0]), a[1..], b);
    }
  }

  lemma FollowOne(s: State, e: Event)
    requires Enabled(s, e) && !e.Purge?
    ensures Follow(s, [e]) == Some(Next(s, e))
  {
    assert [e][1..] == [];
  }

  /** Without a purge, what is attached stays so. */
  lemma {:induction false} FollowStaysAttached(max: nat, s: State, es: seq<Event>)
    requires Inv(max, s) && Attached(s) && Follow(s, es).Some?
    ensures Inv(max, Follow(s, es).value) && Attached(Follow(s, es).value)
    decreases |es|
  {
    hide Inv, Attached, Enabled, Next;
    if es != [] {
      NextKeepsInv(max, s, es[0]);
      OthersKeepAttached(max, s, es[0]);
      FollowStaysAttached(max, Next(s, es[0]), es[1..]);
    }
  }

  predicate Past(s: State, r: nat) { r in s.requests && s.requests[r].lock.Some? && !s.requests[r].phase.ForLock? }

  /** Some other freeze of the key gets past the lock the key has now. */
  lemma Companion(max: nat, s: State, r: nat) returns (es: seq<Event>, t: State, n: nat)
    requires Inv(max, s) && Keyed(s) && Detached(s, r)
    ensures Follow(s, es) == Some(t) && Inv(max, t)
    ensures Past(t, n) && t.requests[n].key == s.requests[r].key && t.requests[n].lock != s.requests[r].lock
    ensures r in t.requests && t.requests[r] == s.requests[r] && t.value == s.value
  {
    hide PermitsOk, Increasing;
    Numbered(max, s);
    assert RequestOk(s, r, s.requests[r]);
    var key := s.requests[r].key;
    var lock := OldLock(s, key);
    if key in s.table { assert LockOk(s, s.table[key], lock); }
    if lock.holder.Some? {
      return [], s, lock.holder.value;
    }
    var e := if lock.waiters != [] then Granted(lock.waiters[0]) else FreezeArrives(key);
    n := if lock.waiters != [] then lock.waiters[0] else s.next;
    FollowOne(s, e);
    NextKeepsInv(max, s, e);
    return [e], Next(s, e), n;
  }

  /** The request at the head of r's lock is ended or let in. */
  function Clearing(s: State, r: nat): Event
    requires r in s.requests && s.requests[r].lock.Some? && s.requests[r].lock.value in s.locks
    requires s.locks[s.requests[r].lock.value].waiters != []
  {
    var l := s.locks[s.requests[r].lock.value];
    if l.holder.Some? then
      if l.holder.value in s.requests && s.requests[l.holder.value].phase.Calling? then Over(l.holder.value)
      else Cancelled(l.holder.value)
    else if l.waiters[0] == r then Granted(r)
    else Cancelled(l.waiters[0])
  }

  function Ahead(s: State, r: nat): nat
    requires r in s.requests && s.requests[r].lock.Some? && s.requests[r].lock.value in s.locks
  {
    var l := s.locks[s.requests[r].lock.value];
    2 * |l.waiters| + if l.holder.Some? then 1 else 0
  }

  lemma ClearingStep(max: nat, s: State, r: nat, n: nat)
    requires Inv(max, s) && r in s.requests && s.requests[r].lock.Some? && s.requests[r].phase.ForLock?
    requires Past(s, n) && s.requests[n].lock != s.requests[r].lock
    ensures s.requests[r].lock.value in s.locks && s.locks[s.requests[r].lock.value].waiters != []
    ensures var e := Clearing(s, r);
            && Enabled(s, e) && !e.Purge?
            && var t := Next(s, e);
            && t.value >= s.value && n in t.requests && t.requests[n] == s.requests[n]
            && r in t.requests && t.requests[r].key == s.requests[r].key && t.requests[r].lock == s.requests[r].lock
            && s.requests[r].lock.value in t.locks
            && (!t.requests[r].phase.ForLock? || (t.requests[r] == s.requests[r] && Ahead(t, r) < Ahead(s, r)))
  {
    hide PermitsOk;
    var id := s.requests[r].lock.value;
    assert RequestOk(s, r, s.requests[r]) && RequestOk(s, n, s.requests[n]);
    var l := s.locks[id];
    assert LockOk(s, id, l);
    if l.holder.None? && l.waiters[0] != r {
      ShorterWithout(l.waiters, l.waiters[0]);
    }
  }

  lemma {:induction false} ShorterWithout(s: seq<nat>, r: nat)
    ensures |Without(s, r)| <= |s| && (r in s ==> |Without(s, r)| < |s|)
  {
    if s != [] {
      ShorterWithout(s[1..], r);
      assert s == [s[0]] + s[1..];
    }
  }

  /** Permits r still needs before it is with the provider. */
  function Needs(s: State, r: nat): nat
    requires r in s.requests
  {
    if s.requests[r].phase.Calling? then 0 else 1
  }

  /** r gets past its lock once what is ahead of it has ended. */
  lemma {:induction false} GetPast(max: nat, s: State, r: nat, n: nat) returns (es: seq<Event>, t: State)
    requires Inv(max, s) && r in s.requests && s.requests[r].lock.Some? && s.requests[r].lock.value in s.locks
    requires Past(s, n) && s.requests[n].lock != s.requests[r].lock
    ensures Follow(s, es) == Some(t) && Inv(max, t) && t.value >= s.value
    ensures Past(t, r) && t.requests[r].key == s.requests[r].key && t.requests[r].lock == s.requests[r].lock
    ensures Needs(t, r) <= Needs(s, r)
    ensures n in t.requests && t.requests[n] == s.requests[n]
    decreases Ahead(s, r)
  {
    hide Inv, Next, Enabled, Clearing;
    if !s.requests[r].phase.ForLock? {
      return [], s;
    }
    ClearingStep(max, s, r, n);
    var e := Clearing(s, r);
    FollowOne(s, e);
    NextKeepsInv(max, s, e);
    if !Next(s, e).requests[r].phase.ForLock? {
      return [e], Next(s, e);
    }
    var rest;
    rest, t := GetPast(max, Next(s, e), r, n);
    FollowSum(s, [e], rest);
    es := [e] + rest;
  }

  /** A request past its lock reaches the provider when a permit is free. */
  lemma Admit(max: nat, s: State, r: nat, n: nat) returns (es: seq<Event>, t: State)
    requires Past(s, r) && s.value >= Needs(s, r) && n in s.requests && n != r
    ensures Follow(s, es) == Some(t) && t.value == s.value - Needs(s, r)
    ensures r in t.requests && t.requests[r] == s.requests[r].(phase := Calling)
    ensures n in t.requests && t.requests[n] == s.requests[n]
  {
    if s.requests[r].phase.Calling? { return [], s; }
    FollowOne(s, Admitted(r));
    return [Admitted(r)], Next(s, Admitted(r));
  }

  /** The other calls end, and their permits are free. */
  lemma {:induction false} EndOtherCalls(max: nat, s: State, r: nat) returns (es: seq<Event>, t: State)
    requires Inv(max, s) && Keyed(s) && Detached(s, r)
    ensures Follow(s, es) == Some(t) && Inv(max, t) && Keyed(t) && Detached(t, r)
    ensures t.requests[r] == s.requests[r] && t.value == max - 1 + Needs(t, r)
    decreases InProvider(s.requests) - {r}
  {
    hide LockOk, RequestOk, Keyed;
    if q :| q in InProvider(s.requests) && q != r {
      NextKeepsInv(max, s, Over(q));
      NextKeepsKeyed(max, s, Over(q));
      FollowOne(s, Over(q));
      var n := Next(s, Over(q));
      assert InProvider(n.requests) - {r} < InProvider(s.requests) - {r} by {
        assert q in InProvider(s.requests) - {r} && q !in InProvider(n.requests);
      }
      var rest;
      rest, t := EndOtherCalls(max, n, r);
      FollowSum(s, [Over(q)], rest);
      es := [Over(q)] + rest;
    } else {
      assert InProvider(s.requests) == if s.requests[r].phase.Calling? then {r} else {};
      es, t := [], s;
    }
  }

  /** A detached freeze is all it takes, with two permits in all: events other than
      purges lead to two freezes of its key with the provider at once. */
  lemma DetachedLeadsToRivals(max: nat, s: State, r: nat) returns (es: seq<Event>, t: State)
    requires Inv(max, s) && Keyed(s) && Detached(s, r) && max >= 2
    ensures Follow(s, es) == Some(t) && TwoOfOneKey(t)
  {
    hide Inv, Keyed, Follow, Past;
    var e0, s0 := EndOtherCalls(max, s, r);
    var e1, s1, n := Companion(max, s0, r);
    LockIsKept(max, s1, r);
    var e2, s2 := GetPast(max, s1, r, n);
    StillPast(s1, s2, n);
    var e3, s3 := Admit(max, s2, r, n);
    StillPast(s2, s3, n);
    var e4, s4 := Admit(max, s3, n, r);
    FollowSum(s, e0, e1);
    FollowSum(s, e0 + e1, e2);
    FollowSum(s, e0 + e1 + e2, e3);
    FollowSum(s, e0 + e1 + e2 + e3, e4);
    es, t := e0 + e1 + e2 + e3 + e4, s4;
    assert Rivals(t, r, n);
  }

  lemma LockIsKept(max: nat, s: State, r: nat)
    requires Inv(max, s) && r in s.requests && s.requests[r].lock.Some?
    ensures s.requests[r].lock.value in s.locks
  {
    assert RequestOk(s, r, s.requests[r]);
  }

  lemma StillPast(s: State, t: State, n: nat)
    requires Past(s, n) && n in t.requests && t.requests[n] == s.requests[n]
    ensures Past(t, n)
  {
  }

  /** With two permits or more, in every reachable state: freezes stay sequential
      per key, whatever follows without a purge, exactly when each uses the lock
      its key has in the table. */
  lemma AttachedIsExact(max: nat, run: seq<Event>)
    requires Exec(max, run).Some? && max >= 2
    ensures var s := Exec(max, run).value;
            Attached(s) <==> forall es: seq<Event> :: Follow(s, es).Some? ==> !TwoOfOneKey(Follow(s, es).value)
  {
    hide Exec, Inv, Keyed, Follow, TwoOfOneKey;
    var s := Exec(max, run).value;
    ExecInv(max, run);
    ExecKeyed(max, run);
    if Attached(s) {
      forall es: seq<Event> | Follow(s, es).Some? ensures !TwoOfOneKey(Follow(s, es).value) {
        FollowStaysAttached(max, s, es);
        AttachedExcludesRivals(max, Follow(s, es).value);
      }
    } else {
      var r :| r in s.requests && Detached(s, r);
      var es, t := DetachedLeadsToRivals(max, s, r);
    }
  }

  lemma Then(max: nat, es: seq<Event>, s: State, e: Event, n: State)
    requires Exec(max, es) == Some(s) && Enabled(s, e) && Next(s, e) == n
    ensures Exec(max, es + [e]) == Some(n)
  {
    hide Enabled, Next;
    assert (es + [e])[..|es|] == es;
  }

  const K := "s/c/en"
  const First := Request(K, Some(0), Calling)
  const Queued := Request(K, Some(0), ForLock)
  const Late := Request(K, Some(2), ForPermit)

  const T1 := State(2, 0, map[K := 0], map[0 := Lock(Some(0), [], [0])], map[0 := First.(phase := ForPermit)], 1,
    [Pass(K, 0)])
  const T2 := T1.(value := 1, inflight := 1, requests := map[0 := First])
  const T3 := T2.(locks := map[0 := Lock(Some(0), [1], [0])], requests := map[0 := First, 1 := Queued], next := 2)
  const T4 := T3.(value := 2, inflight := 0, locks := map[0 := Lock(None, [1], [0])], requests := map[1 := Queued])
  const T5 := T4.(table := map[])
  const T6 := T5.(table := map[K := 2], locks := map[0 := Lock(None, [1], [0]), 2 := Lock(Some(2), [], [2])],
    requests := map[1 := Queued, 2 := Late], next := 3, passed := [Pass(K, 0), Pass(K, 2)])
  const T7 := T6.(locks := map[0 := Lock(Some(1), [], [0, 1]), 2 := Lock(Some(2), [], [2])],
    requests := map[1 := Queued.(phase := ForPermit), 2 := Late],
    passed := [Pass(K, 0), Pass(K, 2), Pass(K, 1)])
  const T8 := T7.(value := 1, inflight := 1, requests := map[1 := Queued.(phase := Calling), 2 := Late])
  const T9 := T8.(value := 0, inflight := 2,
    requests := map[1 := Queued.(phase := Calling), 2 := Late.(phase := Calling)])

  lemma FirstArrival()
    ensures Next(Init(2), FreezeArrives(K)) == T1
  {
    assert Asked(NewLock, 0) == Lock(Some(0), [], [0]);
    assert Init(2).passed + [Pass(K, 0)] == T1.passed;
    assert Next(Init(2), FreezeArrives(K)).requests == T1.requests;
  }

  lemma SecondArrival()
    ensures Next(T2, FreezeArrives(K)) == T3
  {
    assert Asked(OldLock(T2, K), 1) == Lock(Some(0), [1], [0]);
    assert Next(T2, FreezeArrives(K)).requests == T3.requests && Next(T2, FreezeArrives(K)).locks == T3.locks;
  }

  lemma ThirdArrival()
    ensures Next(T5, FreezeArrives(K)) == T6
  {
    assert OldLock(T5, K) == NewLock && Asked(NewLock, 2) == Lock(Some(2), [], [2]);
    assert T5.passed + [Pass(K, 2)] == T6.passed;
    assert Next(T5, FreezeArrives(K)).requests == T6.requests && Next(T5, FreezeArrives(K)).locks == T6.locks;
  }

  lemma FirstOfTheRun()
    ensures Enabled(T1, Admitted(0)) && Next(T1, Admitted(0)) == T2
    ensures Enabled(T3, Over(0)) && Next(T3, Over(0)) == T4
    ensures Next(T4, Purge(K)) == T5
  {
    assert T3.requests - {0} == T4.requests && T4.table - {K} == T5.table;
  }

  lemma WaiterOfTheRun()
    ensures Enabled(T6, Granted(1)) && Next(T6, Granted(1)) == T7
  {
    assert [1][1..] == [] && [0] + [1] == [0, 1];
    assert T6.passed + [Pass(K, 1)] == T7.passed;
    assert Next(T6, Granted(1)).locks == T7.locks;
  }

  lemma LastOfTheRun()
    ensures Enabled(T7, Admitted(1)) && Next(T7, Admitted(1)) == T8
    ensures Enabled(T8, Admitted(2)) && Next(T8, Admitted(2)) == T9
  {
  }

  /** Such a run: two freezes of one key are with the provider at once. */
  lemma PurgeBreaksKeyOrder()
    ensures exists es: seq<Event>, s: State ::
      && Exec(2, es) == Some(s)
      && InProvider(s.requests) == {1, 2} && s.requests[1].key == s.requests[2].key
      && s.requests[1].lock.Some? && s.requests[2].lock.Some?
  {
    hide Exec, Enabled, Next, InProvider;
    NoEvents();
    FirstArrival();
    SecondArrival();
    ThirdArrival();
    FirstOfTheRun();
    WaiterOfTheRun();
    LastOfTheRun();
    AlwaysEnabled(Init(2)); AlwaysEnabled(T2); AlwaysEnabled(T4); AlwaysEnabled(T5);
    var e1 := [] + [FreezeArrives(K)];
    Then(2, [], Init(2), FreezeArrives(K), T1);
    Then(2, e1, T1, Admitted(0), T2);
    var e3 := e1 + [Admitted(0)] + [FreezeArrives(K)];
    Then(2, e1 + [Admitted(0)], T2, FreezeArrives(K), T3);
    Then(2, e3, T3, Over(0), T4);
    var e5 := e3 + [Over(0)] + [Purge(K)];
    Then(2, e3 + [Over(0)], T4, Purge(K), T5);
    Then(2, e5, T5, FreezeArrives(K), T6);
    var e7 := e5 + [FreezeArrives(K)] + [Granted(1)];
    Then(2, e5 + [FreezeArrives(K)], T6, Granted(1), T7);
    Then(2, e7, T7, Admitted(1), T8);
    Then(2, e7 + [Admitted(1)], T8, Admitted(2), T9);
    BothCalling();
    assert Exec(2, e7 + [Admitted(1)] + [Admitted(2)]) == Some(T9);
  }

  lemma NoEvents()
    ensures Exec(2, []) == Some(Init(2))
  {
  }

  lemma AlwaysEnabled(s: State)
    ensures Enabled(s, FreezeArrives(K)) && Enabled(s, Purge(K))
  {
  }

  lemma BothCalling()
    ensures InProvider(T9.requests) == {1, 2}
  {
    assert 1 in T9.requests && 2 in T9.requests;
  }
}
