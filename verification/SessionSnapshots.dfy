/** Transcriber/components/BrokerClient/index.js:46-105: successive snapshots of
    the sessions, the paused and resumed events their differences raise, and the
    list of sessions handed to the streaming servers. */
module SessionSnapshots {
  datatype Session = Session(id: string, status: string, content: int)

  datatype Change = Paused(id: string) | Resumed(id: string)

  const PausedStatus := "paused"

  type Statuses = map<string, string>

  /** Session ids are primary keys: a snapshot lists each once. */
  predicate Distinct(sessions: seq<Session>) {
    forall i, j :: 0 <= i < j < |sessions| ==> sessions[i].id != sessions[j].id
  }

  predicate Lists(sessions: seq<Session>, id: string) { exists i :: 0 <= i < |sessions| && sessions[i].id == id }

  predicate WasPaused(previous: Statuses, id: string) { id in previous && previous[id] == PausedStatus }

  // ------------------------------------------------------ one snapshot

  function ChangeOf(previous: Statuses, s: Session): seq<Change> {
    if s.status == PausedStatus && !WasPaused(previous, s.id) then [Paused(s.id)]
    else if WasPaused(previous, s.id) && s.status != PausedStatus then [Resumed(s.id)]
    else []
  }

  function Changes(previous: Statuses, sessions: seq<Session>): seq<Change> {
    if sessions == [] then []
    else Changes(previous, sessions[..|sessions| - 1]) + ChangeOf(previous, sessions[|sessions| - 1])
  }

  function StatusesOf(sessions: seq<Session>): Statuses {
    if sessions == [] then map[]
    else StatusesOf(sessions[..|sessions| - 1])[sessions[|sessions| - 1].id := sessions[|sessions| - 1].status]
  }

  /** Sessions that were paused and have vanished are still remembered as paused. */
  function Remembered(previous: Statuses, current: Statuses): Statuses {
    current + map id | id in previous && previous[id] == PausedStatus && id !in current :: PausedStatus
  }

  /** `findIndex`, |list| for -1. */
  function IndexOf(list: seq<Session>, id: string): (k: nat)
    ensures k <= |list|
    ensures k < |list| ==> list[k].id == id
    ensures forall i :: 0 <= i < k ==> list[i].id != id
  {
    if list == [] || list[0].id == id then 0 else 1 + IndexOf(list[1..], id)
  }

  function Upserted(list: seq<Session>, s: Session): seq<Session> {
    if IndexOf(list, s.id) == |list| then list + [s] else list[IndexOf(list, s.id) := s]
  }

  function Merged(list: seq<Session>, sessions: seq<Session>): seq<Session> {
    if sessions == [] then list else Upserted(Merged(list, sessions[..|sessions| - 1]), sessions[|sessions| - 1])
  }

  function Present(list: seq<Session>, sessions: seq<Session>): seq<Session> {
    if list == [] then []
    else
      var last := list[|list| - 1];
      Present(list[..|list| - 1], sessions) + (if Lists(sessions, last.id) then [last] else [])
  }

  datatype State = State(statuses: Statuses, sessions: seq<Session>, changes: seq<Change>)

  const Init := State(map[], [], [])

  /** `handleSessions` */
  function Next(s: State, sessions: seq<Session>): State {
    State(Remembered(s.statuses, StatusesOf(sessions)), Merged(Present(s.sessions, sessions), sessions),
          s.changes + Changes(s.statuses, sessions))
  }

  function Run(snapshots: seq<seq<Session>>): State {
    if snapshots == [] then Init else Next(Run(snapshots[..|snapshots| - 1]), snapshots[|snapshots| - 1])
  }

  // ------------------------------------------------------ events

  /** What a consumer of the events believes about a session. */
  function BelievedPaused(changes: seq<Change>, id: string): bool {
    if changes == [] then false
    else if changes[|changes| - 1].id == id then changes[|changes| - 1].Paused?
    else BelievedPaused(changes[..|changes| - 1], id)
  }

  /** Paused only when believed running, resumed only when believed paused. */
  ghost predicate Alternates(changes: seq<Change>) {
    forall i :: 0 <= i < |changes| ==> changes[i].Paused? == !BelievedPaused(changes[..i], changes[i].id)
  }

  lemma BelievedAfter(changes: seq<Change>, c: Change, id: string)
    ensures BelievedPaused(changes + [c], id) == if c.id == id then c.Paused? else BelievedPaused(changes, id)
  {
    assert (changes + [c])[..|changes|] == changes;
  }

  lemma AlternatesAfter(changes: seq<Change>, c: Change)
    requires Alternates(changes) && c.Paused? == !BelievedPaused(changes, c.id)
    ensures Alternates(changes + [c])
  {
    var n := changes + [c];
    forall i | 0 <= i < |n| ensures n[i].Paused? == !BelievedPaused(n[..i], n[i].id) {
      assert n[..i] == changes[..i];
      if i == |changes| { assert changes[..i] == changes; }
    }
  }

  lemma LastIsNew(sessions: seq<Session>)
    requires Distinct(sessions) && sessions != []
    ensures var rest, last := sessions[..|sessions| - 1], sessions[|sessions| - 1];
            && Distinct(rest) && !Lists(rest, last.id)
            && (forall i :: 0 <= i < |rest| ==> sessions[i] == rest[i] && rest[i].id != last.id)
            && forall id :: !Lists(sessions, id) ==> !Lists(rest, id) && id != last.id
  {
    var rest, last := sessions[..|sessions| - 1], sessions[|sessions| - 1];
    forall id | !Lists(sessions, id) ensures !Lists(rest, id) && id != last.id {
      assert forall i :: 0 <= i < |rest| ==> rest[i].id == sessions[i].id;
      assert sessions[|sessions| - 1].id == last.id;
    }
  }

  /** The first n sessions of a snapshot have been compared with the previous one. */
  lemma {:induction false} ChangesReplay(before: seq<Change>, previous: Statuses, sessions: seq<Session>)
    requires Distinct(sessions) && Alternates(before)
    requires forall id :: BelievedPaused(before, id) <==> WasPaused(previous, id)
    ensures var after := before + Changes(previous, sessions);
            && Alternates(after)
            && (forall i :: 0 <= i < |sessions| ==>
                 BelievedPaused(after, sessions[i].id) == (sessions[i].status == PausedStatus))
            && (forall id :: !Lists(sessions, id) ==> BelievedPaused(after, id) == WasPaused(previous, id))
  {
    hide BelievedPaused, Lists, Alternates, Distinct;
    if sessions == [] {
      assert before + [] == before;
    } else {
      var rest, last := sessions[..|sessions| - 1], sessions[|sessions| - 1];
      LastIsNew(sessions);
      ChangesReplay(before, previous, rest);
      var after := before + Changes(previous, rest);
      var change := ChangeOf(previous, last);
      assert before + Changes(previous, sessions) == after + change;
      if change == [] {
        assert after + change == after;
      } else {
        AlternatesAfter(after, change[0]);
        assert change == [change[0]];
        forall id | true
          ensures BelievedPaused(after + change, id) ==
            if id == last.id then change[0].Paused? else BelievedPaused(after, id)
        {
          BelievedAfter(after, change[0], id);
        }
      }
    }
  }

  lemma {:induction false} StatusesAreListed(sessions: seq<Session>)
    requires Distinct(sessions)
    ensures forall i :: 0 <= i < |sessions| ==>
      sessions[i].id in StatusesOf(sessions) && StatusesOf(sessions)[sessions[i].id] == sessions[i].status
    ensures forall id :: id in StatusesOf(sessions) <==> Lists(sessions, id)
  {
    if sessions != [] {
      var rest := sessions[..|sessions| - 1];
      StatusesAreListed(rest);
      forall id | Lists(rest, id) ensures Lists(sessions, id) {
        var i :| 0 <= i < |rest| && rest[i].id == id;
        assert sessions[i].id == id;
      }
      forall id | Lists(sessions, id) && id != sessions[|sessions| - 1].id ensures Lists(rest, id) {
        var i :| 0 <= i < |sessions| && sessions[i].id == id;
        assert rest[i].id == id;
      }
    }
  }

  /** What the consumers believe is what the object remembers. */
  ghost predicate Synced(s: State) {
    Alternates(s.changes) && forall id :: BelievedPaused(s.changes, id) <==> WasPaused(s.statuses, id)
  }

  lemma NextKeepsSynced(s: State, sessions: seq<Session>)
    requires Synced(s) && Distinct(sessions)
    ensures Synced(Next(s, sessions))
    ensures forall i :: 0 <= i < |sessions| ==>
      BelievedPaused(Next(s, sessions).changes, sessions[i].id) == (sessions[i].status == PausedStatus)
  {
    hide BelievedPaused, Alternates, Merged, Present, Changes, StatusesOf;
    ChangesReplay(s.changes, s.statuses, sessions);
    StatusesAreListed(sessions);
    var n := Next(s, sessions);
    forall id | true ensures BelievedPaused(n.changes, id) <==> WasPaused(n.statuses, id) {
      if Lists(sessions, id) {
        var i :| 0 <= i < |sessions| && sessions[i].id == id;
        assert BelievedPaused(n.changes, sessions[i].id) == (sessions[i].status == PausedStatus);
      }
    }
  }

  // ------------------------------------------------------ the list of sessions

  /** The same sessions, possibly in another order. */
  predicate SameSessions(list: seq<Session>, sessions: seq<Session>) {
    && Distinct(list)
    && (forall i :: 0 <= i < |list| ==> list[i] in sessions)
    && (forall i :: 0 <= i < |sessions| ==> sessions[i] in list)
  }

  lemma {:induction false} PresentAreListed(list: seq<Session>, sessions: seq<Session>)
    requires Distinct(list)
    ensures Distinct(Present(list, sessions))
    ensures forall i :: 0 <= i < |Present(list, sessions)| ==>
      Present(list, sessions)[i] in list && Lists(sessions, Present(list, sessions)[i].id)
  {
    if list != [] {
      var rest, last := list[..|list| - 1], list[|list| - 1];
      PresentAreListed(rest, sessions);
      forall i | 0 <= i < |Present(rest, sessions)| ensures Present(rest, sessions)[i].id != last.id {
        assert Present(rest, sessions)[i] in rest;
      }
      assert forall s :: s in rest ==> s in list;
    }
  }

  lemma UpsertedKeeps(list: seq<Session>, s: Session)
    requires Distinct(list)
    ensures Distinct(Upserted(list, s)) && s in Upserted(list, s)
    ensures forall t :: t in Upserted(list, s) ==> t == s || (t in list && t.id != s.id)
    ensures forall t :: t in list && t.id != s.id ==> t in Upserted(list, s)
  {
    var k := IndexOf(list, s.id);
    var n := Upserted(list, s);
    assert n[k] == s;
    forall t | t in list && t.id != s.id ensures t in n {
      var i :| 0 <= i < |list| && list[i] == t;
      assert n[i] == t;
    }
  }

  /** After merging, a session is listed as the snapshot has it, or is an old one
      the snapshot has not reached. */
  lemma {:induction false} MergedHolds(list: seq<Session>, sessions: seq<Session>)
    requires Distinct(list) && Distinct(sessions)
    ensures var m := Merged(list, sessions);
            && Distinct(m)
            && (forall t :: t in sessions ==> t in m)
            && (forall t :: t in m ==> t in sessions || (t in list && !Lists(sessions, t.id)))
  {
    hide IndexOf, Upserted;
    if sessions != [] {
      var rest, last := sessions[..|sessions| - 1], sessions[|sessions| - 1];
      MergedHolds(list, rest);
      UpsertedKeeps(Merged(list, rest), last);
      forall t | t in sessions ensures t in Merged(list, sessions) {
        if t != last {
          var i :| 0 <= i < |sessions| && sessions[i] == t;
          assert rest[i] == t && sessions[i].id != last.id;
        }
      }
      forall t | t in Merged(list, sessions) ensures t in sessions || (t in list && !Lists(sessions, t.id)) {
        if t != last && t !in rest {
          forall i | 0 <= i < |sessions| ensures sessions[i].id != t.id {
            if i < |rest| { assert rest[i].id == sessions[i].id; }
          }
        }
      }
    }
  }

  lemma NextListsLatest(s: State, sessions: seq<Session>)
    requires Distinct(s.sessions) && Distinct(sessions)
    ensures SameSessions(Next(s, sessions).sessions, sessions)
  {
    hide Merged, Present, Changes, StatusesOf;
    PresentAreListed(s.sessions, sessions);
    MergedHolds(Present(s.sessions, sessions), sessions);
    var m := Next(s, sessions).sessions;
    forall i | 0 <= i < |m| ensures m[i] in sessions { assert m[i] in m; }
  }

  /** A snapshot raises events about its own sessions only: one that vanished while
      paused raises none, and is resumed, if at all, when it is back. */
  lemma {:induction false} ChangesAreListed(previous: Statuses, sessions: seq<Session>)
    ensures forall i :: 0 <= i < |Changes(previous, sessions)| ==> Lists(sessions, Changes(previous, sessions)[i].id)
    ensures |Changes(previous, sessions)| <= |sessions|
  {
    if sessions != [] {
      var rest, last := sessions[..|sessions| - 1], sessions[|sessions| - 1];
      ChangesAreListed(previous, rest);
      forall id | Lists(rest, id) ensures Lists(sessions, id) {
        var i :| 0 <= i < |rest| && rest[i].id == id;
        assert sessions[i].id == id;
      }
      assert sessions[|sessions| - 1].id == last.id;
    }
  }

  /** Sessions already listed keep their places; new ones follow. */
  lemma {:induction false} MergedKeepsPlaces(list: seq<Session>, sessions: seq<Session>)
    ensures |list| <= |Merged(list, sessions)|
    ensures forall i :: 0 <= i < |list| ==> Merged(list, sessions)[i].id == list[i].id
  {
    hide IndexOf;
    if sessions != [] { MergedKeepsPlaces(list, sessions[..|sessions| - 1]); }
  }

  // ------------------------------------------------------ the theorem

  /** Over any sequence of snapshots, with sessions vanishing and reappearing:
      each session's events strictly alternate, starting with paused; for every
      session of the latest snapshot they say paused exactly when it is; and the
      list holds exactly the sessions of the latest snapshot. */
  lemma {:induction false} EventsTellStatus(snapshots: seq<seq<Session>>)
    requires forall i :: 0 <= i < |snapshots| ==> Distinct(snapshots[i])
    ensures Synced(Run(snapshots)) && Distinct(Run(snapshots).sessions)
    ensures snapshots != [] ==>
      var s, latest := Run(snapshots), snapshots[|snapshots| - 1];
      && SameSessions(s.sessions, latest)
      && forall i :: 0 <= i < |latest| ==> BelievedPaused(s.changes, latest[i].id) == (latest[i].status == PausedStatus)
  {
    hide Next, Synced, BelievedPaused;
    if snapshots == [] {
      InitSynced();
    } else {
      var rest, latest := snapshots[..|snapshots| - 1], snapshots[|snapshots| - 1];
      EventsTellStatus(rest);
      NextKeepsSynced(Run(rest), latest);
      NextListsLatest(Run(rest), latest);
    }
  }

  lemma InitSynced()
    ensures Synced(Init)
  {
  }

  // ------------------------------------------------------ the object

  lemma PresentStep(list: seq<Session>, sessions: seq<Session>, n: nat)
    requires n < |list|
    ensures Present(list[..n + 1], sessions) ==
      Present(list[..n], sessions) + (if Lists(sessions, list[n].id) then [list[n]] else [])
  {
    assert list[..n + 1][..n] == list[..n];
  }

  class BrokerClient {
    var statusSnapshot: Statuses
    var sessions: seq<Session>
    var emitted: seq<Change>

    ghost function View(): State reads this { State(statusSnapshot, sessions, emitted) }

    method HandleSessions(incoming: seq<Session>)
      modifies this
      ensures View() == Next(old(View()), incoming)
    {
      hide Lists, IndexOf;
      var snapshot: Statuses := map[];
      for n := 0 to |incoming|
        invariant snapshot == StatusesOf(incoming[..n])
        invariant emitted == old(emitted) + Changes(statusSnapshot, incoming[..n])
        modifies this`emitted
      {
        var s := incoming[n];
        assert incoming[..n + 1][..n] == incoming[..n];
        snapshot := snapshot[s.id := s.status];
        if s.status == PausedStatus && !WasPaused(statusSnapshot, s.id) { emitted := emitted + [Paused(s.id)]; }
        else if WasPaused(statusSnapshot, s.id) && s.status != PausedStatus { emitted := emitted + [Resumed(s.id)]; }
      }
      assert incoming[..|incoming|] == incoming;
      statusSnapshot := Remembered(statusSnapshot, snapshot);
      var list := FilterPresent(sessions, incoming);
      sessions := Merge(list, incoming);
    }
  }

  method FilterPresent(list: seq<Session>, incoming: seq<Session>) returns (kept: seq<Session>)
    ensures kept == Present(list, incoming)
  {
    hide Lists;
    kept := [];
    for n := 0 to |list|
      invariant kept == Present(list[..n], incoming)
    {
      PresentStep(list, incoming, n);
      if Lists(incoming, list[n].id) { kept := kept + [list[n]]; }
    }
    assert list[..|list|] == list;
  }

  /** Update existing sessions or add new ones. */
  method Merge(list: seq<Session>, incoming: seq<Session>) returns (merged: seq<Session>)
    ensures merged == Merged(list, incoming)
  {
    hide IndexOf;
    merged := list;
    for n := 0 to |incoming|
      invariant merged == Merged(list, incoming[..n])
    {
      assert incoming[..n + 1][..n] == incoming[..n];
      var index := IndexOf(merged, incoming[n].id);
      if index == |merged| { merged := merged + [incoming[n]]; } else { merged := merged[index := incoming[n]]; }
    }
    assert incoming[..|incoming|] == incoming;
  }
}
