/** Transcriber/components/StreamingServer/index.js:168-179 and ASR/index.js: the
    numbering of a channel's segments across streams, one stream at a time. */
module SegmentIds {
  import opened Options
  import opened Sequences

  /** The counters of a running ASR. */
  datatype Counter = Counter(segmentId: nat, lastPrimary: nat)

  datatype State = State(
    remembered: Option<nat>,        // lastSegmentIds
    asr: Option<Counter>,
    used: seq<nat>,                 // history: ids of canonical finals, in order
    secondary: seq<nat>)            // history: ids given to secondary (translation) results

  const Init := State(None, None, [], [])

  datatype Event =
    | Start(lastSegmentId: nat)     // the channel's id in the sessions snapshot, 0 for none
    | Result(isFinal: bool, isPrimary: bool)
    | ProviderError                 // published as a final
    | Stop
    | Crash                         // the stream is gone without a stop
    | Clear                         // clearSession

  /** `resolveInitialSegmentId` */
  function Initial(remembered: Option<nat>, lastSegmentId: nat): nat {
    if remembered.Some? && remembered.value != 0 then remembered.value
    else if lastSegmentId != 0 then lastSegmentId + 1
    else 1
  }

  predicate Enabled(s: State, e: Event) {
    match e
    case Start(_) => s.asr.None?
    case Clear => true
    case _ => s.asr.Some?
  }

  /** `_segmentIdFor` */
  function IdFor(c: Counter, isPrimary: bool): (Counter, nat) {
    if isPrimary then (c.(lastPrimary := c.segmentId), c.segmentId) else (c, c.lastPrimary)
  }

  function AfterResult(s: State, isFinal: bool, isPrimary: bool): State
    requires s.asr.Some?
  {
    var (c, id) := IdFor(s.asr.value, isPrimary);
    if !isPrimary then s.(asr := Some(c), secondary := s.secondary + [id])
    else if isFinal then s.(asr := Some(c.(segmentId := c.segmentId + 1)), used := s.used + [id])
    else s.(asr := Some(c))
  }

  function Next(s: State, e: Event): State
    requires Enabled(s, e)
  {
    match e
    case Start(last) => s.(remembered := None,
      asr := Some(Counter(Initial(s.remembered, last), Initial(s.remembered, last))))
    case Result(isFinal, isPrimary) => AfterResult(s, isFinal, isPrimary)
    case ProviderError =>
      s.(asr := Some(s.asr.value.(segmentId := s.asr.value.segmentId + 1)), used := s.used + [s.asr.value.segmentId])
    case Stop => s.(asr := None, remembered := Some(s.asr.value.segmentId + 1))
    case Crash => s.(asr := None)
    case Clear => s.(remembered := None)
  }

  function Exec(es: seq<Event>): Option<State> {
    if es == [] then Some(Init) else
    var before := Exec(es[..|es| - 1]);
    if before.Some? && Enabled(before.value, es[|es| - 1]) then Some(Next(before.value, es[|es| - 1])) else None
  }

  // ------------------------------------------------------ fresh ids

  ghost predicate Fresh(s: State) {
    && Increasing(s.used)
    && (s.asr.Some? ==> s.remembered.None? && Below(s.used, s.asr.value.segmentId))
    && (s.remembered.Some? ==> s.remembered.value > 0 && Below(s.used, s.remembered.value))
  }

  /** A stream numbers its segments afresh exactly when the channel's cursor is
      remembered, or the snapshot knows every id used so far. */
  lemma StartIsFresh(s: State, last: nat)
    requires Fresh(s) && Enabled(s, Start(last)) && forall i :: 0 <= i < |s.used| ==> s.used[i] > 0
    ensures Fresh(Next(s, Start(last))) <==> s.remembered.Some? || Below(s.used, last + 1)
  {
  }

  /** Every other step keeps the ids fresh. */
  lemma OthersStayFresh(s: State, e: Event)
    requires Fresh(s) && Enabled(s, e) && !e.Start?
    ensures Fresh(Next(s, e))
  {
  }

  /** Starts without a remembered cursor use a snapshot that knows the last id. */
  ghost predicate Informed(es: seq<Event>) {
    forall n :: 0 <= n < |es| && es[n].Start? && Exec(es[..n]).Some? ==> Knows(Exec(es[..n]).value, es[n].lastSegmentId)
  }

  predicate Knows(s: State, last: nat) { s.remembered.Some? || Below(s.used, last + 1) }

  /** A secondary result never gets an id ahead of the primary's. */
  ghost predicate Positive(s: State) {
    && (s.asr.Some? ==> 0 < s.asr.value.lastPrimary <= s.asr.value.segmentId)
    && (forall i :: 0 <= i < |s.used| ==> s.used[i] > 0)
  }

  /** Over every run whose starts are informed, stops and restarts included, the
      ids of canonical finals strictly increase, so no segment is written twice. */
  lemma {:induction false} IdsIncrease(es: seq<Event>)
    requires Exec(es).Some? && Informed(es)
    ensures Fresh(Exec(es).value) && Positive(Exec(es).value)
  {
    hide Next, Enabled, Fresh, Positive;
    if es == [] {
      InitFresh();
    } else {
      var rest, last := es[..|es| - 1], es[|es| - 1];
      forall n | 0 <= n < |rest| ensures rest[..n] == es[..n] && rest[n] == es[n] {}
      IdsIncrease(rest);
      var s := Exec(rest).value;
      StaysPositive(s, last);
      if last.Start? {
        assert Knows(s, last.lastSegmentId);
        InformedStart(s, last.lastSegmentId);
      } else {
        OthersStayFresh(s, last);
      }
    }
  }

  lemma InitFresh()
    ensures Fresh(Init) && Positive(Init)
  {
  }

  lemma StaysPositive(s: State, e: Event)
    requires Positive(s) && Enabled(s, e)
    ensures Positive(Next(s, e))
  {
  }

  lemma InformedStart(s: State, last: nat)
    requires Fresh(s) && Positive(s) && Enabled(s, Start(last)) && Knows(s, last)
    ensures Fresh(Next(s, Start(last)))
  {
    StartIsFresh(s, last);
  }

  /** The event publishes a canonical final. */
  predicate Canonical(e: Event) { e.ProviderError? || (e.Result? && e.isFinal && e.isPrimary) }

  function CanonicalFinals(es: seq<Event>): nat {
    if es == [] then 0 else CanonicalFinals(es[..|es| - 1]) + (if Canonical(es[|es| - 1]) then 1 else 0)
  }

  predicate OneStream(es: seq<Event>) { forall i :: 0 <= i < |es| ==> es[i].Result? || es[i].ProviderError? }

  lemma OneResult(s: State, e: Event)
    requires s.asr.Some? && (e.Result? || e.ProviderError?)
    ensures Enabled(s, e)
    ensures var n := Next(s, e);
            && n.asr.Some? && n.remembered == s.remembered
            && n.asr.value.segmentId == s.asr.value.segmentId + (if Canonical(e) then 1 else 0)
            && n.used == s.used + (if Canonical(e) then [s.asr.value.segmentId] else [])
  {
    assert s.used + [] == s.used;
  }

  /** A stream numbers its finals one by one: from the id it starts with, each
      canonical final takes the next, and nothing else takes one. */
  lemma {:induction false} IdsAreConsecutive(es: seq<Event>, last: nat, results: seq<Event>)
    requires Exec(es).Some? && Exec(es).value.asr.None? && OneStream(results)
    ensures var s, run := Exec(es).value, Exec(es + [Start(last)] + results);
            var first := Initial(s.remembered, last);
            && run.Some? && run.value.asr.Some? && run.value.remembered.None?
            && run.value.asr.value.segmentId == first + CanonicalFinals(results)
            && |run.value.used| == |s.used| + CanonicalFinals(results)
            && (forall i :: 0 <= i < |run.value.used| ==>
                 run.value.used[i] == if i < |s.used| then s.used[i] else first + (i - |s.used|))
    decreases |results|
  {
    hide Canonical, Initial;
    var all := es + [Start(last)] + results;
    if results == [] {
      assert all[..|all| - 1] == es;
    } else {
      hide Next, Enabled;
      IdsAreConsecutive(es, last, results[..|results| - 1]);
      assert all[..|all| - 1] == es + [Start(last)] + results[..|results| - 1];
      OneResult(Exec(all[..|all| - 1]).value, results[|results| - 1]);
    }
  }

  /** The next stream of the channel goes on after the counter a stop preserved,
      whatever the snapshot says; after a crash or a clear it goes on after the
      snapshot's id, or from one. */
  lemma NextStreamContinues(s: State, last: nat)
    requires s.asr.Some?
    ensures Next(Next(s, Stop), Start(last)).asr == Some(Counter(s.asr.value.segmentId + 1, s.asr.value.segmentId + 1))
    ensures Next(Next(Next(s, Stop), Clear), Start(last)).asr == Some(Counter(last + 1, last + 1))
    ensures s.remembered.None? ==> Next(Next(s, Crash), Start(last)).asr == Some(Counter(last + 1, last + 1))
  {
  }

  /** A secondary result joins the segment of the latest primary one, and never
      opens or advances a segment. */
  lemma SecondaryJoinsPrimary(s: State, isFinal: bool, wasFinal: bool)
    requires Enabled(s, Result(isFinal, false))
    ensures var n := Next(s, Result(isFinal, false));
            n.used == s.used && n.asr == s.asr && n.secondary == s.secondary + [s.asr.value.lastPrimary]
    ensures var p := Next(s, Result(wasFinal, true));
            Next(p, Result(isFinal, false)).secondary == s.secondary + [s.asr.value.segmentId]
  {
  }

  // ------------------------------------------------------ the objects

  class Asr {
    var segmentId: nat
    var lastPrimarySegmentId: nat

    ghost function View(): Counter reads this { Counter(segmentId, lastPrimarySegmentId) }

    constructor (initial: nat)
      ensures View() == Counter(initial, initial)
    {
      segmentId, lastPrimarySegmentId := initial, initial;
    }

    method SegmentIdFor(isPrimary: bool) returns (id: nat)
      modifies this`lastPrimarySegmentId
      ensures (View(), id) == IdFor(old(View()), isPrimary)
    {
      if !isPrimary { return lastPrimarySegmentId; }
      lastPrimarySegmentId := segmentId;
      id := segmentId;
    }
  }

  class StreamingServer {
    var lastSegmentIds: map<string, nat>

    function Cursor(key: string): Option<nat> reads this {
      if key in lastSegmentIds then Some(lastSegmentIds[key]) else None
    }

    method ResolveInitialSegmentId(key: string, lastSegmentId: nat) returns (id: nat)
      modifies this
      ensures id == Initial(old(Cursor(key)), lastSegmentId)
      ensures lastSegmentIds == old(lastSegmentIds) - {key}
    {
      var memory := if key in lastSegmentIds then lastSegmentIds[key] else 0;
      lastSegmentIds := lastSegmentIds - {key};
      id := if memory != 0 then memory else if lastSegmentId != 0 then lastSegmentId + 1 else 1;
    }

    method PreserveSegmentId(key: string, segmentId: nat)
      modifies this
      ensures Cursor(key) == Some(segmentId + 1)
      ensures forall k :: k != key ==> Cursor(k) == old(Cursor(k))
    {
      lastSegmentIds := lastSegmentIds[key := segmentId + 1];
    }
  }
}
