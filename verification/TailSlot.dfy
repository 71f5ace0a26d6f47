/** TranslatorPython/translator/scheduler.py:78-134: the latest-wins slot of one
    key and its runner task, one event per stretch of code between two awaits;
    and, from pipeline.py, the tail counter of the key state that submits to it.
    A key state starts counting at 0, and a later one may take over the slot. */
module TailSlots {
  import opened Options

  /** Which key state of this slot submitted, and the value of its counter. */
  datatype Stamp = Stamp(generation: nat, version: int)

  /** A submitted tail; the ticket numbers the submissions of this slot. */
  datatype Tail = Tail(ticket: nat, stamp: Stamp)

  datatype Runner =
    | Absent                        // never created, or done
    | Created                       // created, and has not run yet
    | Sleeping(until: real)
    | Calling(tail: Tail)           // waiting for the provider
    | Reporting(tail: Tail)         // waiting for on_done

  datatype Fire = Fire(tail: Tail, time: real)

  datatype Slot = Slot(
    pending: Option<Tail>,
    runner: Runner,
    lastFire: Option<real>,         // None is -inf
    now: real,
    purged: bool,
    superseded: nat,
    counter: Stamp,                 // the key state in charge and its tail_version
    stamps: seq<Stamp>,             // history: one for each submission
    cancelled: nat,                 // history: pending tails dropped by cancel_key
    fires: seq<Fire>,               // history: tails sent to the provider
    ended: nat)                     // history: provider calls that are over

  const NewSlot := Slot(None, Absent, None, 0.0, false, 0, Stamp(0, 0), [], 0, [], 0)

  datatype Event =
    | Elapse(dt: real)
    | NewKeyState                   // a fresh key state takes the slot over
    | AssemblerReset                // its counter advances without a submission
    | Submit                        // its counter advances, then submit_tail
    | Start
    | Wake
    | Answered(ok: bool)
    | Reported
    | CancelKey
    | Purge
    | Stopped                       // the purged runner receives its CancelledError

  function Fired(s: Slot): Slot
    requires s.pending.Some?
  {
    s.(pending := None, lastFire := Some(s.now), runner := Calling(s.pending.value),
      fires := s.fires + [Fire(s.pending.value, s.now)])
  }

  /** The head of the `while` loop, up to the next await. */
  function Head(interval: real, s: Slot): Slot {
    if s.pending.None? then s.(runner := Absent)
    else if s.lastFire.Some? && s.lastFire.value + interval - s.now > 0.0 then
      s.(runner := Sleeping(s.lastFire.value + interval))
    else Fired(s)
  }

  /** `st.tail_version += 1` */
  function Advanced(counter: Stamp): Stamp { counter.(version := counter.version + 1) }

  function Dropped(s: Slot): Slot {
    s.(pending := None, cancelled := if s.pending.Some? then s.cancelled + 1 else s.cancelled)
  }

  /** A sleep does not end early; a purged slot is out of the table. */
  predicate Enabled(s: Slot, e: Event) {
    match e
    case Elapse(dt) => dt >= 0.0
    case NewKeyState => true
    case AssemblerReset => true
    case Submit => !s.purged
    case CancelKey => !s.purged
    case Purge => !s.purged
    case Start => s.runner.Created? && !s.purged
    case Wake => s.runner.Sleeping? && s.now >= s.runner.until && !s.purged
    case Answered(_) => s.runner.Calling? && !s.purged
    case Reported => s.runner.Reporting? && !s.purged
    case Stopped => !s.runner.Absent? && s.purged
  }

  function Next(interval: real, s: Slot, e: Event): Slot
    requires Enabled(s, e)
  {
    match e
    case Elapse(dt) => s.(now := s.now + dt)
    case NewKeyState => s.(counter := Stamp(s.counter.generation + 1, 0))
    case AssemblerReset => s.(counter := Advanced(s.counter))
    case Submit =>
      s.(counter := Advanced(s.counter), pending := Some(Tail(|s.stamps|, Advanced(s.counter))),
         stamps := s.stamps + [Advanced(s.counter)],
         superseded := if s.pending.Some? then s.superseded + 1 else s.superseded,
         runner := if s.runner.Absent? then Created else s.runner)
    case Start => Head(interval, s)
    case Wake => if s.pending.None? then s.(runner := Absent) else Fired(s)
    case Answered(ok) => if ok then s.(runner := Reporting(s.runner.tail), ended := s.ended + 1)
      else Head(interval, s.(ended := s.ended + 1))
    case Reported => Head(interval, s)
    case CancelKey => Dropped(s)
    case Purge => Dropped(s).(purged := true)
    case Stopped => s.(runner := Absent, ended := if s.runner.Calling? then s.ended + 1 else s.ended)
  }

  function Exec(interval: real, es: seq<Event>): Option<Slot> {
    if es == [] then Some(NewSlot) else
    var before := Exec(interval, es[..|es| - 1]);
    if before.Some? && Enabled(before.value, es[|es| - 1]) then Some(Next(interval, before.value, es[|es| - 1]))
    else None
  }

  // ------------------------------------------------------ what every step keeps

  /** Fire b comes after fire a: a later submission, at least the interval later. */
  predicate Later(interval: real, a: Fire, b: Fire) {
    a.tail.ticket < b.tail.ticket && a.time + interval <= b.time
  }

  predicate IsSubmission(s: Slot, t: Tail) { t.ticket < |s.stamps| && s.stamps[t.ticket] == t.stamp }

  /** A later key state, or a higher version of the same one. */
  predicate Precedes(a: Stamp, b: Stamp) {
    a.generation < b.generation || (a.generation == b.generation && a.version < b.version)
  }

  ghost predicate StampsOk(s: Slot) {
    && (forall i, j :: 0 <= i < j < |s.stamps| ==> Precedes(s.stamps[i], s.stamps[j]))
    && (forall i :: 0 <= i < |s.stamps| ==> s.stamps[i] == s.counter || Precedes(s.stamps[i], s.counter))
  }

  ghost predicate FiresOk(interval: real, s: Slot) {
    && (forall i :: 0 <= i < |s.fires| ==> IsSubmission(s, s.fires[i].tail) && s.fires[i].time <= s.now)
    && (forall i, j :: 0 <= i < j < |s.fires| ==> Later(interval, s.fires[i], s.fires[j]))
    && s.lastFire == if s.fires == [] then None else Some(s.fires[|s.fires| - 1].time)
  }

  ghost predicate PendingOk(s: Slot) {
    s.pending.Some? ==>
      && IsSubmission(s, s.pending.value)
      && s.pending.value.ticket == |s.stamps| - 1
      && (forall i :: 0 <= i < |s.fires| ==> s.fires[i].tail.ticket < s.pending.value.ticket)
      && !s.runner.Absent?
  }

  ghost predicate RunnerOk(interval: real, s: Slot) {
    && (s.runner.Sleeping? ==> s.lastFire.Some? && s.runner.until == s.lastFire.value + interval)
    && (s.runner.Calling? || s.runner.Reporting? ==> s.fires != [] && s.fires[|s.fires| - 1].tail == s.runner.tail)
    && (s.runner.Created? ==> s.pending.Some? || s.cancelled > 0)
    && |s.fires| == s.ended + (if s.runner.Calling? then 1 else 0)
  }

  ghost predicate Inv(interval: real, s: Slot) {
    && FiresOk(interval, s) && PendingOk(s) && RunnerOk(interval, s) && StampsOk(s)
    && (s.purged ==> s.pending.None?)
    && |s.stamps| == |s.fires| + s.superseded + s.cancelled + (if s.pending.Some? then 1 else 0)
  }

  lemma FiredKeepsInv(interval: real, s: Slot)
    requires s.pending.Some? && FiresOk(interval, s) && PendingOk(s)
    requires s.lastFire.Some? ==> s.lastFire.value + interval <= s.now
    requires |s.stamps| == |s.fires| + s.superseded + s.cancelled + 1 && |s.fires| == s.ended && !s.purged
    requires StampsOk(s)
    ensures Inv(interval, Fired(s))
  {
    var n := Fired(s);
    forall i, j | 0 <= i < j < |n.fires| ensures Later(interval, n.fires[i], n.fires[j]) {
      if j == |s.fires| {
        var last := |s.fires| - 1;
        if i < last { assert Later(interval, s.fires[i], s.fires[last]); }
      }
    }
  }

  lemma HeadKeepsInv(interval: real, s: Slot)
    requires interval >= 0.0 && FiresOk(interval, s) && PendingOk(s)
    requires |s.stamps| == |s.fires| + s.superseded + s.cancelled + (if s.pending.Some? then 1 else 0) &&
      |s.fires| == s.ended && !s.purged
    requires StampsOk(s)
    ensures Inv(interval, Head(interval, s))
  {
    hide FiresOk, Later;
    if s.pending.Some? && !(s.lastFire.Some? && s.lastFire.value + interval - s.now > 0.0) {
      FiredKeepsInv(interval, s);
    }
    else { SameFires(interval, s, Head(interval, s)); }
  }

  lemma SameFires(interval: real, s: Slot, n: Slot)
    requires FiresOk(interval, s) && n.fires == s.fires && n.lastFire == s.lastFire && s.stamps <= n.stamps &&
      s.now <= n.now
    ensures FiresOk(interval, n)
  {
  }

  lemma NextKeepsStamps(interval: real, s: Slot, e: Event)
    requires StampsOk(s) && Enabled(s, e)
    ensures StampsOk(Next(interval, s, e))
  {
  }

  /** Steps that fire nothing. */
  lemma QuietKeepsInv(interval: real, s: Slot, e: Event)
    requires Inv(interval, s) && Enabled(s, e) && !e.Start? && !e.Wake? && !e.Reported? && e != Answered(false)
    ensures Inv(interval, Next(interval, s, e))
  {
    NextKeepsStamps(interval, s, e);
    hide FiresOk, StampsOk;
    SameFires(interval, s, Next(interval, s, e));
    FiredWereSubmitted(interval, s);
  }

  lemma FiredWereSubmitted(interval: real, s: Slot)
    requires FiresOk(interval, s)
    ensures forall i :: 0 <= i < |s.fires| ==> s.fires[i].tail.ticket < |s.stamps|
  {
  }

  lemma NextKeepsInv(interval: real, s: Slot, e: Event)
    requires interval >= 0.0 && Inv(interval, s) && Enabled(s, e)
    ensures Inv(interval, Next(interval, s, e))
  {
    hide Head, Fired, FiresOk, PendingOk;
    match e
    case Start => HeadKeepsInv(interval, s);
    case Reported => HeadKeepsInv(interval, s);
    case Wake => WakeKeepsInv(interval, s);
    case Answered(ok) =>
      if ok {
        QuietKeepsInv(interval, s, e);
      } else {
        FailureKeeps(interval, s);
        HeadKeepsInv(interval, s.(ended := s.ended + 1));
      }
    case _ => QuietKeepsInv(interval, s, e);
  }

  lemma WakeKeepsInv(interval: real, s: Slot)
    requires Inv(interval, s) && Enabled(s, Wake)
    ensures Inv(interval, Next(interval, s, Wake))
  {
    hide FiresOk, Fired;
    if s.pending.Some? { FiredKeepsInv(interval, s); } else { SameFires(interval, s, s.(runner := Absent)); }
  }

  lemma FailureKeeps(interval: real, s: Slot)
    requires Inv(interval, s)
    ensures FiresOk(interval, s.(ended := s.ended + 1)) && PendingOk(s.(ended := s.ended + 1))
  {
    hide FiresOk;
    SameFires(interval, s, s.(ended := s.ended + 1));
  }

  lemma {:induction false} ExecInv(interval: real, es: seq<Event>)
    requires interval >= 0.0
    ensures Exec(interval, es).Some? ==> Inv(interval, Exec(interval, es).value)
  {
    hide Inv, Enabled, Next;
    if es == [] {
      NewSlotInv(interval);
    } else {
      ExecInv(interval, es[..|es| - 1]);
      var before := Exec(interval, es[..|es| - 1]);
      if before.Some? && Enabled(before.value, es[|es| - 1]) { NextKeepsInv(interval, before.value, es[|es| - 1]); }
    }
  }

  lemma NewSlotInv(interval: real)
    ensures Inv(interval, NewSlot)
  {
  }

  // ------------------------------------------------------ the theorems

  /** No lost wake-up, over every run: a pending tail is the latest submission,
      and some event leads its live runner on, at
      the latest one interval after the last fire. */
  lemma PendingHasRunner(interval: real, es: seq<Event>)
    requires interval >= 0.0 && Exec(interval, es).Some? && Exec(interval, es).value.pending.Some?
    ensures var s := Exec(interval, es).value;
            && s.pending.value.ticket == |s.stamps| - 1 && IsSubmission(s, s.pending.value)
            && (Enabled(s, Start) || Enabled(s, Answered(true)) || Enabled(s, Reported) ||
                (s.runner.Sleeping? && s.lastFire.Some? && s.runner.until == s.lastFire.value + interval))
  {
    hide Exec, FiresOk;
    ExecInv(interval, es);
  }

  /** When the runner is gone nothing is pending. */
  lemma IdleMeansDone(interval: real, es: seq<Event>)
    requires interval >= 0.0 && Exec(interval, es).Some? && Exec(interval, es).value.runner.Absent?
    ensures Exec(interval, es).value.pending.None?
    ensures var s := Exec(interval, es).value;
      |s.stamps| == |s.fires| + s.superseded + s.cancelled && s.ended == |s.fires|
  {
    hide Exec, FiresOk;
    ExecInv(interval, es);
  }

  /** Over every run: at most one call in flight, every submission is fired,
      superseded, cancelled or pending, and consecutive fires are of later
      submissions, at least the minimum interval apart. */
  lemma FiresAreOrderedAndSpaced(interval: real, es: seq<Event>)
    requires interval >= 0.0 && Exec(interval, es).Some?
    ensures var s := Exec(interval, es).value;
            && s.ended <= |s.fires| <= s.ended + 1
            && |s.stamps| == |s.fires| + s.superseded + s.cancelled + (if s.pending.Some? then 1 else 0)
            && forall i, j :: 0 <= i < j < |s.fires| ==>
                 s.fires[i].tail.ticket < s.fires[j].tail.ticket && s.fires[i].time + interval <= s.fires[j].time
  {
    hide Exec;
    ExecInv(interval, es);
    var s := Exec(interval, es).value;
    forall i, j | 0 <= i < j < |s.fires|
      ensures s.fires[i].tail.ticket < s.fires[j].tail.ticket && s.fires[i].time + interval <= s.fires[j].time
    {
      assert Later(interval, s.fires[i], s.fires[j]);
    }
  }

  /** What the runner does next is settled by the pending tail and the clock: with
      none it ends; with one that is due, no fire within the interval, it sends
      that tail at once; otherwise it sleeps until it is due. */
  lemma RunnerIsPunctual(interval: real, s: Slot, e: Event)
    requires interval >= 0.0 && Inv(interval, s) && Enabled(s, e)
    requires e.Start? || e.Wake? || e.Reported? || e == Answered(false)
    ensures var n := Next(interval, s, e);
            var due := s.lastFire.None? || s.lastFire.value + interval <= s.now;
            && n.pending == (if due then None else s.pending)
            && (s.pending.None? ==> n.runner.Absent? && n.fires == s.fires)
            && (s.pending.Some? && due ==>
                 n.runner == Calling(s.pending.value) && n.fires == s.fires + [Fire(s.pending.value, s.now)])
            && (s.pending.Some? && !due ==>
                 n.runner == Sleeping(s.lastFire.value + interval) && n.fires == s.fires)
  {
    hide StampsOk;
  }

  /** The answer to a tail is reported: on_done is called for the tail last sent,
      and the runner goes on only after it. A failed call is not reported. */
  lemma AnswersAreReported(interval: real, s: Slot, ok: bool)
    requires interval >= 0.0 && Inv(interval, s) && Enabled(s, Answered(ok))
    ensures var n := Next(interval, s, Answered(ok));
            && s.fires != [] && (ok <==> n.runner.Reporting?)
            && (ok ==>
                 && n.runner.tail == s.fires[|s.fires| - 1].tail && Enabled(n, Reported)
                 && n.pending == s.pending && n.fires == s.fires)
  {
    hide StampsOk;
  }

  /** Nothing submitted so far will be sent any more. */
  ghost predicate Void(s: Slot, fired: nat, submitted: nat) {
    && submitted <= |s.stamps| && fired <= |s.fires|
    && (s.pending.Some? ==> s.pending.value.ticket >= submitted)
    && forall i :: fired <= i < |s.fires| ==> s.fires[i].tail.ticket >= submitted
  }

  lemma StaysVoid(interval: real, s: Slot, e: Event, fired: nat, submitted: nat)
    requires Enabled(s, e) && Void(s, fired, submitted)
    ensures Void(Next(interval, s, e), fired, submitted)
  {
  }

  /** Over every run: once a key is cancelled or purged, nothing that was submitted
      before is sent to the provider, whatever follows. */
  lemma {:induction false} CancelledIsNeverFired(interval: real, es: seq<Event>, e: Event, more: seq<Event>, i: nat)
    requires interval >= 0.0 && Exec(interval, es).Some? && (e.CancelKey? || e.Purge?)
    requires Exec(interval, es + [e] + more).Some?
    ensures var s, n := Exec(interval, es).value, Exec(interval, es + [e] + more).value;
            |s.fires| <= i < |n.fires| ==> n.fires[i].tail.ticket >= |s.stamps|
  {
    hide Exec;
    VoidAfter(interval, es, e, more);
  }

  lemma {:induction false} VoidAfter(interval: real, es: seq<Event>, e: Event, more: seq<Event>)
    requires interval >= 0.0 && Exec(interval, es).Some? && (e.CancelKey? || e.Purge?)
    requires Exec(interval, es + [e] + more).Some?
    ensures var s := Exec(interval, es).value;
            Void(Exec(interval, es + [e] + more).value, |s.fires|, |s.stamps|)
    decreases |more|
  {
    hide Next, Enabled;
    var all := es + [e] + more;
    if more == [] {
      assert all[..|all| - 1] == es;
      CancelVoids(interval, Exec(interval, es).value, e);
    } else {
      assert all[..|all| - 1] == es + [e] + more[..|more| - 1];
      VoidAfter(interval, es, e, more[..|more| - 1]);
      var s := Exec(interval, es).value;
      StaysVoid(interval, Exec(interval, all[..|all| - 1]).value, all[|all| - 1], |s.fires|, |s.stamps|);
    }
  }

  lemma CancelVoids(interval: real, s: Slot, e: Event)
    requires Enabled(s, e) && (e.CancelKey? || e.Purge?)
    ensures Void(Next(interval, s, e), |s.fires|, |s.stamps|)
  {
  }

  /** Over every run, resets and changes of key state included: each fire comes
      from a later key state than the one before, or carries a higher version of
      the same one. So within a key state's lifetime fired versions strictly increase. */
  lemma FiredVersionsIncrease(interval: real, es: seq<Event>, i: nat, j: nat)
    requires interval >= 0.0 && Exec(interval, es).Some? && i < j < |Exec(interval, es).value.fires|
    ensures var fires := Exec(interval, es).value.fires;
            Precedes(fires[i].tail.stamp, fires[j].tail.stamp)
  {
    hide Exec, Precedes;
    ExecInv(interval, es);
    var s := Exec(interval, es).value;
    assert Later(interval, s.fires[i], s.fires[j]);
    assert IsSubmission(s, s.fires[i].tail) && IsSubmission(s, s.fires[j].tail);
  }

  lemma Then(interval: real, es: seq<Event>, s: Slot, e: Event)
    requires Exec(interval, es) == Some(s) && Enabled(s, e)
    ensures Exec(interval, es + [e]) == Some(Next(interval, s, e))
  {
    hide Enabled, Next;
    assert (es + [e])[..|es|] == es;
  }

  const One := Stamp(0, 1)
  const Other := Stamp(1, 1)
  const Once := NewSlot.(counter := One, stamps := [One], fires := [Fire(Tail(0, One), 0.0)], lastFire := Some(0.0))
  const Taken := Once.(ended := 1, counter := Stamp(1, 0))
  const Queued := Taken.(counter := Other, stamps := [One, Other], pending := Some(Tail(1, Other)), runner := Created)

  function Twice(interval: real): Slot {
    Queued.(pending := None, now := interval, lastFire := Some(interval), runner := Calling(Tail(1, Other)),
            fires := [Fire(Tail(0, One), 0.0), Fire(Tail(1, Other), interval)])
  }

  /** Across key states the number alone may repeat, at any interval: a final
      cancels the slot's pending tail, the next partial creates a key state that
      takes the slot over before it is purged and counts from one again, and the
      slot fires version 1 twice. */
  lemma FiredVersionsMayRepeat(interval: real)
    requires interval > 0.0
    ensures exists es: seq<Event> :: Exec(interval, es) == Some(Twice(interval))
    ensures Twice(interval).fires[0].tail.stamp.version == Twice(interval).fires[1].tail.stamp.version
  {
    hide Exec;
    NoEvents(interval);
    assert NewSlot.stamps + [One] == [One] && [One] + [Other] == [One, Other];
    assert NewSlot.fires + [Fire(Tail(0, One), 0.0)] == Once.fires;
    assert Once.fires + [Fire(Tail(1, Other), interval)] == Twice(interval).fires;
    var e1 := [] + [Submit];
    Then(interval, [], NewSlot, Submit);
    Then(interval, e1, NewSlot.(counter := One, stamps := [One], pending := Some(Tail(0, One)), runner := Created),
      Start);
    var e3 := e1 + [Start] + [Answered(true)];
    Then(interval, e1 + [Start], Once.(runner := Calling(Tail(0, One))), Answered(true));
    Then(interval, e3, Once.(runner := Reporting(Tail(0, One)), ended := 1), Reported);
    var e5 := e3 + [Reported] + [CancelKey];
    Then(interval, e3 + [Reported], Once.(ended := 1), CancelKey);
    Then(interval, e5, Once.(ended := 1), NewKeyState);
    Then(interval, e5 + [NewKeyState], Taken, Submit);
    SecondFire(interval, e5 + [NewKeyState] + [Submit]);
  }

  /** The second tail waits for the interval to pass. */
  lemma SecondFire(interval: real, es: seq<Event>)
    requires interval > 0.0 && Exec(interval, es) == Some(Queued)
    ensures Exec(interval, es + [Start] + [Elapse(interval)] + [Wake]) == Some(Twice(interval))
  {
    hide Exec;
    var asleep := Queued.(runner := Sleeping(0.0 + interval));
    Then(interval, es, Queued, Start);
    Then(interval, es + [Start], asleep, Elapse(interval));
    Then(interval, es + [Start] + [Elapse(interval)], asleep.(now := interval), Wake);
    assert Once.fires + [Fire(Tail(1, Other), interval)] == Twice(interval).fires;
  }

  lemma NoEvents(interval: real)
    ensures Exec(interval, []) == Some(NewSlot)
  {
  }

  // ------------------------------------------------------ the object

  class TailSlot {
    const interval: real
    var pending: Option<Tail>
    var runner: Runner
    var lastFire: Option<real>
    var superseded: nat
    ghost var slot: Slot             // these fields and their history

    ghost predicate Valid() reads this {
      slot.pending == pending && slot.runner == runner && slot.lastFire == lastFire && slot.superseded == superseded
    }

    constructor (minTailInterval: real)
      ensures Valid() && slot == NewSlot && interval == minTailInterval
    {
      interval := minTailInterval;
      pending, runner, lastFire, superseded, slot := None, Absent, None, 0, NewSlot;
    }

    method SubmitTail(ticket: nat, stamp: Stamp)
      requires Valid() && !slot.purged && ticket == |slot.stamps| && stamp == Advanced(slot.counter)
      modifies this
      ensures Valid() && slot == Next(interval, old(slot), Submit)
    {
      if pending.Some? { superseded := superseded + 1; }
      pending := Some(Tail(ticket, stamp));
      if runner.Absent? { runner := Created; }
      slot := Next(interval, slot, Submit);
    }

    /** The loop of `_run_tail` from its head, or from a wake-up, to its next await. */
    method RunHead(now: real, woken: bool)
      requires Valid() && slot.now == now
      modifies this
      ensures Valid() && slot == if woken && old(pending).Some? then Fired(old(slot)) else Head(interval, old(slot))
    {
      ghost var before := slot;
      if pending.None? {
        runner := Absent;
      } else if !woken && lastFire.Some? && lastFire.value + interval - now > 0.0 {
        runner := Sleeping(lastFire.value + interval);
      } else {
        runner, pending, lastFire := Calling(pending.value), None, Some(now);
      }
      slot := if woken && before.pending.Some? then Fired(before) else Head(interval, before);
    }

    method Cancel()
      requires Valid() && !slot.purged
      modifies this
      ensures Valid() && slot == Next(interval, old(slot), CancelKey)
    {
      pending := None;
      slot := Dropped(slot);
    }
  }
}
