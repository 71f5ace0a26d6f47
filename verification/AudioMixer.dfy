/** BotService/bot/AudioMixer.js: one ring buffer per participant, the saturating
    mix of their frames, and the energy-based choice of the current speaker. */
module AudioMixers {
  import opened Options

  type Sample = x: int | -32768 <= x <= 32767

  const FrameSize := 320
  const FrameMs := 20

  // ------------------------------------------------------ a bounded drop-oldest queue

  datatype Queue = Queue(
    samples: seq<Sample>,           // oldest first
    dropped: nat,
    drained: nat,                   // history: samples mixed
    written: seq<Sample>)           // history: every sample added

  const EmptyQueue := Queue([], 0, 0, [])

  /** The newest n elements. */
  function Newest(s: seq<Sample>, n: nat): (r: seq<Sample>)
    ensures |r| == if |s| <= n then |s| else n
  {
    if |s| <= n then s else s[|s| - n..]
  }

  function Written(q: Queue, samples: seq<Sample>, capacity: nat): Queue {
    var all := q.samples + samples;
    Queue(Newest(all, capacity), q.dropped + (|all| - |Newest(all, capacity)|), q.drained, q.written + samples)
  }

  /** One frame is taken when it is there. */
  function Drained(q: Queue): Queue {
    if |q.samples| < FrameSize then q else q.(samples := q.samples[FrameSize..], drained := q.drained + FrameSize)
  }

  datatype Use = Add(samples: seq<Sample>) | Mix

  function AfterUses(capacity: nat, uses: seq<Use>): Queue {
    if uses == [] then EmptyQueue else
    var q := AfterUses(capacity, uses[..|uses| - 1]);
    match uses[|uses| - 1]
    case Add(samples) => Written(q, samples, capacity)
    case Mix => Drained(q)
  }

  /** The queue holds the newest samples written, and every sample written was
      drained, dropped or is still there. */
  ghost predicate QueueOk(q: Queue, capacity: nat) {
    && |q.samples| <= capacity
    && |q.written| == q.drained + q.dropped + |q.samples|
    && forall i :: 0 <= i < |q.samples| ==> q.samples[i] == q.written[|q.written| - |q.samples| + i]
  }

  lemma {:induction false} QueueConserves(capacity: nat, uses: seq<Use>)
    ensures QueueOk(AfterUses(capacity, uses), capacity)
  {
    if uses != [] {
      QueueConserves(capacity, uses[..|uses| - 1]);
      UseConserves(AfterUses(capacity, uses[..|uses| - 1]), capacity, uses[|uses| - 1]);
    }
  }

  lemma UseConserves(q: Queue, capacity: nat, use: Use)
    requires QueueOk(q, capacity)
    ensures QueueOk(match use case Add(samples) => Written(q, samples, capacity) case Mix => Drained(q), capacity)
  {
  }

  /** Samples are dropped only when the queue overflows, and only as many as do not
      fit; a tick takes one whole frame when there is one, and nothing otherwise. */
  lemma QueueIsTight(capacity: nat, uses: seq<Use>, use: Use)
    ensures var q, n := AfterUses(capacity, uses), AfterUses(capacity, uses + [use]);
            && (use.Add? ==>
                 && var all := |q.samples| + |use.samples|;
                 && |n.samples| == (if all <= capacity then all else capacity)
                 && n.dropped == q.dropped + all - |n.samples|
                 && n.written == q.written + use.samples && n.drained == q.drained)
            && (use.Mix? ==>
                 && n.samples == (if |q.samples| < FrameSize then q.samples else q.samples[FrameSize..])
                 && n.dropped == q.dropped && n.written == q.written)
  {
    assert (uses + [use])[..|uses|] == uses;
  }

  // ------------------------------------------------------ the ring

  /** Position k steps after p in a ring of n. */
  function Around(p: nat, k: nat, n: nat): (r: nat)
    requires p < n && k <= n
    ensures r < n
  {
    if p + k < n then p + k else p + k - n
  }

  lemma StepAround(p: nat, n: nat)
    requires p < n
    ensures (p + 1) % n == Around(p, 1, n)
  {
    if p + 1 == n { assert (p + 1) % n == 0; } else { assert (p + 1) % n == p + 1; }
  }

  class Ring {
    const buffer: array<Sample>
    var writePos: nat
    var readPos: nat
    var samplesAvailable: nat
    var droppedSamples: nat

    ghost predicate Valid()
      reads this
    {
      && 0 < buffer.Length
      && readPos < buffer.Length && samplesAvailable <= buffer.Length
      && writePos == Around(readPos, samplesAvailable, buffer.Length)
    }

    ghost function Contents(): (s: seq<Sample>)
      reads this, buffer
      requires Valid()
      ensures |s| == samplesAvailable
      ensures forall k :: 0 <= k < |s| ==> s[k] == buffer[Around(readPos, k, buffer.Length)]
    {
      seq(samplesAvailable, k requires 0 <= k < samplesAvailable && Valid() reads this, buffer =>
        buffer[Around(readPos, k, buffer.Length)])
    }

    /** The ring holds this queue. */
    ghost predicate Holds(queue: seq<Sample>)
      reads this, buffer
    {
      Valid() && Contents() == queue
    }

    constructor (size: nat)
      requires size > 0
      ensures Valid() && fresh(buffer) && buffer.Length == size && Contents() == [] && droppedSamples == 0
    {
      buffer := new Sample[size](_ => 0);
      writePos, readPos, samplesAvailable, droppedSamples := 0, 0, 0, 0;
    }

    /** One sample of `addAudio`. */
    method Put(x: Sample)
      requires Valid()
      modifies this, buffer
      ensures Valid()
      ensures Contents() == Newest(old(Contents()) + [x], buffer.Length)
      ensures droppedSamples == old(droppedSamples) + (if old(samplesAvailable) == buffer.Length then 1 else 0)
    {
      ghost var before := Contents();
      buffer[writePos] := x;
      StepAround(writePos, buffer.Length);
      writePos := (writePos + 1) % buffer.Length;
      if samplesAvailable < buffer.Length {
        samplesAvailable := samplesAvailable + 1;
      } else {
        StepAround(readPos, buffer.Length);
        readPos := (readPos + 1) % buffer.Length;
        droppedSamples := droppedSamples + 1;
      }
      assert |Contents()| == |Newest(before + [x], buffer.Length)|;
      forall k | 0 <= k < samplesAvailable ensures Contents()[k] == Newest(before + [x], buffer.Length)[k] {}
    }

    /** One sample of `mixAndEmit`. */
    method Take() returns (x: Sample)
      requires Valid() && samplesAvailable > 0
      modifies this
      ensures Valid() && x == old(Contents())[0] && Contents() == old(Contents())[1..] &&
        droppedSamples == old(droppedSamples)
    {
      x := buffer[readPos];
      StepAround(readPos, buffer.Length);
      readPos := (readPos + 1) % buffer.Length;
      samplesAvailable := samplesAvailable - 1;
    }

    method AddAudio(samples: seq<Sample>)
      requires Valid()
      modifies this, buffer
      ensures Valid()
      ensures Contents() == Newest(old(Contents()) + samples, buffer.Length)
      ensures droppedSamples == old(droppedSamples) + |old(Contents()) + samples| - |Contents()|
    {
      assert old(Contents()) + samples[..0] == old(Contents());
      for i := 0 to |samples|
        invariant Valid()
        invariant Contents() == Newest(old(Contents()) + samples[..i], buffer.Length)
        invariant droppedSamples == old(droppedSamples) + |old(Contents())| + i - |Contents()|
      {
        Put(samples[i]);
        NewestStep(old(Contents()), samples, i, buffer.Length);
      }
      assert samples[..|samples|] == samples;
    }

    method TakeFrame() returns (frame: seq<Sample>)
      requires Valid() && samplesAvailable >= FrameSize
      modifies this
      ensures Valid() && frame == old(Contents())[..FrameSize] && Contents() == old(Contents())[FrameSize..] &&
        droppedSamples == old(droppedSamples)
    {
      frame := [];
      for i := 0 to FrameSize
        invariant Valid() && samplesAvailable == old(samplesAvailable) - i && droppedSamples == old(droppedSamples)
        invariant frame == old(Contents())[..i] && Contents() == old(Contents())[i..]
      {
        var x := Take();
        frame := frame + [x];
      }
    }

    /** A frame when there is one, nothing otherwise. */
    method TryFrame(ghost queue: seq<Sample>) returns (frame: seq<Sample>)
      requires Holds(queue)
      modifies this
      ensures Holds(AfterFrame(queue)) && frame == if |queue| < FrameSize then [] else queue[..FrameSize]
    {
      frame := [];
      if samplesAvailable >= FrameSize { frame := TakeFrame(); }
    }
  }

  lemma NewestStep(s: seq<Sample>, samples: seq<Sample>, i: nat, n: nat)
    requires i < |samples|
    ensures Newest(Newest(s + samples[..i], n) + [samples[i]], n) == Newest(s + samples[..i + 1], n)
  {
    assert s + samples[..i + 1] == (s + samples[..i]) + [samples[i]];
  }

  // ------------------------------------------------------ mixing

  function Clamp(x: int): Sample { if x > 32767 then 32767 else if x < -32768 then -32768 else x }

  /** The mix of one instant: participants are added in order, each partial sum clamped. */
  function MixedAt(column: seq<Sample>): Sample {
    if column == [] then 0 else Clamp(Plus(MixedAt(column[..|column| - 1]), column[|column| - 1]))
  }

  function Sum(column: seq<Sample>): int {
    if column == [] then 0 else Plus(Sum(column[..|column| - 1]), column[|column| - 1])
  }

  /** The mix is the exact sum whenever no partial sum leaves the 16-bit range. */
  lemma {:induction false} MixIsExact(column: seq<Sample>)
    requires forall n :: 0 <= n <= |column| ==> -32768 <= Sum(column[..n]) <= 32767
    ensures MixedAt(column) == Sum(column)
  {
    if column != [] {
      var rest := column[..|column| - 1];
      forall n | 0 <= n <= |rest| ensures -32768 <= Sum(rest[..n]) <= 32767 { assert rest[..n] == column[..n]; }
      MixIsExact(rest);
      assert column[..|column|] == column;
    }
  }

  /** Clamping partial sums makes the mix depend on the order of participants. */
  lemma OrderMattersWhenSaturated()
    ensures MixedAt([32767, 32767, -32768]) == -1 && MixedAt([32767, -32768, 32767]) == 32766
    ensures Sum([32767, 32767, -32768]) == 32766
  {
    var a: seq<Sample>, b: seq<Sample> := [32767, 32767, -32768], [32767, -32768, 32767];
    assert a[..2] == [32767, 32767] && b[..2] == [32767, -32768];
    assert a[..2][..1] == [32767] && b[..2][..1] == [32767];
    assert MixedAt([32767]) == 32767 && Sum([32767]) == 32767;
    assert MixedAt(a[..2]) == 32767 && MixedAt(b[..2]) == -1;
  }

  function Plus(a: int, b: int): int { a + b }

  function Square(a: int): nat { a * a }

  function Column(frames: seq<seq<Sample>>, i: nat): seq<Sample>
    requires forall f :: 0 <= f < |frames| ==> i < |frames[f]|
  {
    seq(|frames|, f requires 0 <= f < |frames| => frames[f][i])
  }

  function Energy(frame: seq<Sample>): nat {
    if frame == [] then 0 else Energy(frame[..|frame| - 1]) + Square(frame[|frame| - 1])
  }

  predicate Frames(frames: seq<seq<Sample>>) { forall f :: 0 <= f < |frames| ==> |frames[f]| == FrameSize }

  /** RMS energy above the threshold, without the square root. */
  predicate Loud(frame: seq<Sample>, threshold: nat) { Energy(frame) > threshold * threshold * FrameSize }

  /** The first of the loudest frames above the threshold, None when there is none. */
  ghost predicate IsDominant(frames: seq<seq<Sample>>, threshold: nat, d: Option<nat>) {
    if d.None? then forall f :: 0 <= f < |frames| ==> !Loud(frames[f], threshold)
    else
      && d.value < |frames| && Loud(frames[d.value], threshold)
      && (forall f :: 0 <= f < |frames| ==> Energy(frames[f]) <= Energy(frames[d.value]))
      && (forall f :: 0 <= f < d.value ==> Energy(frames[f]) < Energy(frames[d.value]))
  }

  /** One more participant: it takes over when loud enough and strictly louder. */
  lemma NextDominant(frames: seq<seq<Sample>>, frame: seq<Sample>, threshold: nat, d: Option<nat>)
    requires IsDominant(frames, threshold, d)
    ensures var max := if d.None? then 0 else Energy(frames[d.value]);
            IsDominant(frames + [frame], threshold,
              if Loud(frame, threshold) && Energy(frame) > max then Some(|frames|) else d)
  {
    hide Energy;
    var all := frames + [frame];
    assert forall f :: 0 <= f < |frames| ==> all[f] == frames[f];
    assert all[|frames|] == frame;
    if d.None? { LoudIsPositive(frame, threshold); }
  }

  lemma LoudIsPositive(frame: seq<Sample>, threshold: nat)
    ensures Loud(frame, threshold) ==> Energy(frame) > 0
    ensures forall other :: Loud(frame, threshold) && !Loud(other, threshold) ==> Energy(other) < Energy(frame)
  {
    hide Energy;
    assert threshold * threshold >= 0;
  }

  /** The inner loop of `mixAndEmit`: one participant's frame into the accumulator. */
  method MixInto(mixed: array<Sample>, frame: seq<Sample>) returns (energySq: nat)
    requires mixed.Length == |frame| == FrameSize
    modifies mixed
    ensures forall i :: 0 <= i < FrameSize ==> mixed[i] == Clamp(Plus(old(mixed[i]), frame[i]))
    ensures energySq == Energy(frame)
  {
    hide Square;
    energySq := 0;
    for i := 0 to FrameSize
      invariant forall k :: 0 <= k < i ==> mixed[k] == Clamp(Plus(old(mixed[k]), frame[k]))
      invariant forall k :: i <= k < FrameSize ==> mixed[k] == old(mixed[k])
      invariant energySq == Energy(frame[..i])
    {
      var m := Plus(mixed[i], frame[i]);
      mixed[i] := if m > 32767 then 32767 else if m < -32768 then -32768 else m;
      assert frame[..i + 1][..i] == frame[..i];
      energySq := energySq + Square(frame[i]);
    }
    assert frame[..FrameSize] == frame;
  }

  lemma NobodyDominant(threshold: nat)
    ensures IsDominant([], threshold, None)
  {
  }

  /** The outer loop of `mixAndEmit` over the contributing participants. */
  method MixFrames(frames: seq<seq<Sample>>, threshold: nat) returns (mixed: array<Sample>, dominant: Option<nat>)
    requires Frames(frames)
    ensures mixed.Length == FrameSize && fresh(mixed)
    ensures forall i :: 0 <= i < FrameSize ==> mixed[i] == MixedAt(Column(frames, i))
    ensures IsDominant(frames, threshold, dominant)
  {
    hide Energy, Clamp, Plus, IsDominant;
    NobodyDominant(threshold);
    mixed := new Sample[FrameSize](_ => 0);
    dominant := None;
    var maxEnergySq := 0;
    for f := 0 to |frames|
      invariant mixed.Length == FrameSize && fresh(mixed)
      invariant forall i :: 0 <= i < FrameSize ==> mixed[i] == MixedAt(Column(frames[..f], i))
      invariant IsDominant(frames[..f], threshold, dominant)
      invariant dominant.Some? ==> dominant.value < f
      invariant maxEnergySq == if dominant.None? then 0 else Energy(frames[dominant.value])
    {
      var energySq := MixInto(mixed, frames[f]);
      forall i | 0 <= i < FrameSize
        ensures MixedAt(Column(frames[..f + 1], i)) == Clamp(Plus(MixedAt(Column(frames[..f], i)), frames[f][i])) {
        assert Column(frames[..f + 1], i)[..f] == Column(frames[..f], i);
      }
      NextDominant(frames[..f], frames[f], threshold, dominant);
      assert frames[..f + 1] == frames[..f] + [frames[f]];
      if energySq > threshold * threshold * FrameSize && energySq > maxEnergySq {
        maxEnergySq, dominant := energySq, Some(f);
      }
    }
    assert frames[..|frames|] == frames;
  }

  /** What a tick leaves in a participant's queue: a whole frame less, or all of it. */
  function AfterFrame(samples: seq<Sample>): seq<Sample> {
    if |samples| < FrameSize then samples else samples[FrameSize..]
  }

  /** The first n participants that have a whole frame. */
  function Contributors(queues: seq<seq<Sample>>, n: nat): (who: seq<nat>)
    requires n <= |queues|
    ensures forall f :: 0 <= f < |who| ==> who[f] < n && |queues[who[f]]| >= FrameSize
  {
    if n == 0 then []
    else if |queues[n - 1]| < FrameSize then Contributors(queues, n - 1)
    else Contributors(queues, n - 1) + [n - 1]
  }

  /** They are all the participants with a whole frame, in order. */
  lemma {:induction false} ContributorsAreAll(queues: seq<seq<Sample>>, n: nat)
    requires n <= |queues|
    ensures forall i :: 0 <= i < n ==> (i in Contributors(queues, n) <==> |queues[i]| >= FrameSize)
    ensures forall f, g :: 0 <= f < g < |Contributors(queues, n)| ==>
      Contributors(queues, n)[f] < Contributors(queues, n)[g]
  {
    if n > 0 { ContributorsAreAll(queues, n - 1); }
  }

  function FramesOf(queues: seq<seq<Sample>>, who: seq<nat>): (frames: seq<seq<Sample>>)
    requires forall f :: 0 <= f < |who| ==> who[f] < |queues| && |queues[who[f]]| >= FrameSize
    ensures Frames(frames) && |frames| == |who|
    ensures forall f :: 0 <= f < |who| ==> frames[f] == queues[who[f]][..FrameSize]
  {
    seq(|who|, f requires 0 <= f < |who| => queues[who[f]][..FrameSize])
  }

  lemma NoFrames(queues: seq<seq<Sample>>)
    ensures FramesOf(queues, Contributors(queues, 0)) == []
  {
  }

  lemma NextFrame(queues: seq<seq<Sample>>, n: nat)
    requires n < |queues|
    ensures FramesOf(queues, Contributors(queues, n + 1)) ==
      FramesOf(queues, Contributors(queues, n)) + (if |queues[n]| < FrameSize then [] else [queues[n][..FrameSize]])
  {
  }

  predicate Apart(rings: seq<Ring>) { forall i, j :: 0 <= i < j < |rings| ==> rings[i] != rings[j] }

  /** Each participant with a whole frame gives up its oldest one, the others are skipped. */
  method TakeFrames(rings: seq<Ring>, ghost queues: seq<seq<Sample>>) returns (frames: seq<seq<Sample>>)
    requires Apart(rings) && |queues| == |rings| && forall i :: 0 <= i < |rings| ==> rings[i].Holds(queues[i])
    modifies rings
    ensures frames == FramesOf(queues, Contributors(queues, |queues|))
    ensures forall i :: 0 <= i < |rings| ==> rings[i].Holds(AfterFrame(queues[i]))
  {
    hide Ring.Holds, AfterFrame, Contributors, FramesOf;
    frames := [];
    NoFrames(queues);
    for n := 0 to |rings|
      invariant frames == FramesOf(queues, Contributors(queues, n))
      invariant forall i :: 0 <= i < n ==> rings[i].Holds(AfterFrame(queues[i]))
      invariant forall i :: n <= i < |rings| ==> rings[i].Holds(queues[i])
    {
      var frame := rings[n].TryFrame(queues[n]);
      NextFrame(queues, n);
      if frame != [] { frames := frames + [frame]; }
    }
  }

  /** A tick: the frames there are, mixed, and the dominant one among them; None
      when no participant has a whole frame. */
  method MixAndEmit(rings: seq<Ring>, threshold: nat, ghost queues: seq<seq<Sample>>)
    returns (audio: Option<seq<Sample>>, dominant: Option<nat>)
    requires Apart(rings) && |queues| == |rings| && forall i :: 0 <= i < |rings| ==> rings[i].Holds(queues[i])
    modifies rings
    ensures forall i :: 0 <= i < |rings| ==> rings[i].Holds(AfterFrame(queues[i]))
    ensures audio.None? <==> forall i :: 0 <= i < |queues| ==> |queues[i]| < FrameSize
    ensures IsDominant(FramesOf(queues, Contributors(queues, |queues|)), threshold, dominant)
    ensures audio.Some? ==> IsMix(FramesOf(queues, Contributors(queues, |queues|)), audio.value)
  {
    hide MixedAt, IsDominant, AfterFrame, Ring.Holds, Column;
    ContributorsAreAll(queues, |queues|);
    var frames := TakeFrames(rings, queues);
    var mixed;
    mixed, dominant := MixFrames(frames, threshold);
    audio := if frames == [] then None else Some(mixed[..]);
    ghost var who := Contributors(queues, |queues|);
    if frames != [] { assert who[0] in who; }
  }

  ghost predicate IsMix(frames: seq<seq<Sample>>, mixed: seq<Sample>) {
    Frames(frames) && |mixed| == FrameSize && forall i :: 0 <= i < FrameSize ==> mixed[i] == MixedAt(Column(frames, i))
  }

  // ------------------------------------------------------ who is speaking

  datatype Change = Change(position: int, speaker: Option<string>)

  datatype Diarizer = Diarizer(
    speaker: Option<string>,
    silenceMs: int,
    position: int,
    changes: seq<Change>)           // history: speakerChanged events

  const Quiet := Diarizer(None, 0, 0, [])

  /** A tick with its dominant speaker, or a participant leaving. */
  datatype Turn = Tick(dominant: Option<string>, participants: nat) | Leave(id: string)

  function AfterTurn(graceMs: int, d: Diarizer, t: Turn): Diarizer {
    match t
    case Leave(id) => if d.speaker == Some(id) then d.(speaker := None, silenceMs := 0) else d
    case Tick(dominant, participants) =>
      var n := d.(position := d.position + FrameMs);
      if dominant.Some? then
        n.(silenceMs := 0, speaker := dominant,
           changes := if d.speaker == dominant then d.changes else d.changes + [Change(d.position, dominant)])
      else if d.speaker.None? then n
      else if d.silenceMs + FrameMs >= graceMs && participants > 1 then
        n.(silenceMs := 0, speaker := None, changes := d.changes + [Change(d.position, None)])
      else n.(silenceMs := d.silenceMs + FrameMs)
  }

  function AfterTurns(graceMs: int, turns: seq<Turn>): Diarizer {
    if turns == [] then Quiet else AfterTurn(graceMs, AfterTurns(graceMs, turns[..|turns| - 1]), turns[|turns| - 1])
  }

  /** Ticks without a dominant speaker at the end of a run. */
  function QuietTicks(turns: seq<Turn>): nat {
    if turns == [] then 0
    else match turns[|turns| - 1]
      case Leave(_) => QuietTicks(turns[..|turns| - 1])
      case Tick(dominant, _) => if dominant.Some? then 0 else QuietTicks(turns[..|turns| - 1]) + 1
  }

  predicate ChangesOk(changes: seq<Change>, position: int) {
    && (forall i :: 0 <= i < |changes| ==> 0 <= changes[i].position < position)
    && (forall i, j :: 0 <= i < j < |changes| ==> changes[i].position < changes[j].position)
  }

  /** Over every run: transitions are stamped in strictly increasing order, and the
      silence counted is silence that happened since the last dominant speaker. */
  lemma {:induction false} TransitionsAreOrdered(graceMs: int, turns: seq<Turn>)
    ensures var d := AfterTurns(graceMs, turns);
            ChangesOk(d.changes, d.position) && 0 <= d.position && 0 <= d.silenceMs <= FrameMs * QuietTicks(turns)
  {
    if turns != [] { TransitionsAreOrdered(graceMs, turns[..|turns| - 1]); }
  }

  /** A step that emits a transition changes the current speaker to the one it
      announces; to silence only after the grace period without any dominant
      speaker, with more than one participant. */
  lemma TransitionsAreReal(graceMs: int, turns: seq<Turn>, t: Turn)
    ensures var d, n := AfterTurns(graceMs, turns), AfterTurn(graceMs, AfterTurns(graceMs, turns), t);
            n.changes != d.changes ==>
              && n.changes == d.changes + [Change(d.position, n.speaker)]
              && n.speaker != d.speaker
              && (n.speaker.None? ==> t.Tick? && t.participants > 1 && FrameMs * QuietTicks(turns + [t]) >= graceMs)
  {
    TransitionsAreOrdered(graceMs, turns);
    assert (turns + [t])[..|turns|] == turns;
  }

  function Ticks(turns: seq<Turn>): nat {
    if turns == [] then 0 else Ticks(turns[..|turns| - 1]) + if turns[|turns| - 1].Tick? then 1 else 0
  }

  /** The clock counts the ticks, and while somebody is the speaker the silence
      counted is all the silence since the last dominant frame. */
  lemma {:induction false} SilenceIsExact(graceMs: int, turns: seq<Turn>)
    ensures var d := AfterTurns(graceMs, turns);
            d.position == FrameMs * Ticks(turns) && (d.speaker.Some? ==> d.silenceMs == FrameMs * QuietTicks(turns))
  {
    if turns != [] { SilenceIsExact(graceMs, turns[..|turns| - 1]); }
  }

  /** Over every run, who speaks after a turn: the dominant participant of a tick,
      announced when it is a new one; nobody, announced, when a tick without one
      completes the grace period in a call of several; nobody, unannounced, when
      the speaker leaves; and otherwise still the same. */
  lemma SpeakerFollowsDominance(graceMs: int, turns: seq<Turn>, t: Turn)
    ensures var d, n := AfterTurns(graceMs, turns), AfterTurns(graceMs, turns + [t]);
            var silent := t.Tick? && t.dominant.None? && d.speaker.Some? && t.participants > 1 &&
              FrameMs * QuietTicks(turns + [t]) >= graceMs;
            && n.speaker == (if t.Tick? && t.dominant.Some? then t.dominant
                             else if silent || (t.Leave? && d.speaker == Some(t.id)) then None
                             else d.speaker)
            && n.changes == d.changes +
                 (if silent || (t.Tick? && t.dominant.Some? && t.dominant != d.speaker)
                  then [Change(FrameMs * Ticks(turns), n.speaker)] else [])
  {
    SilenceIsExact(graceMs, turns);
    assert (turns + [t])[..|turns|] == turns;
  }

  /** The current speaker is the last one announced, unless that one has left. */
  lemma SilentChangesAreLeaves(graceMs: int, d: Diarizer, t: Turn)
    ensures var n := AfterTurn(graceMs, d, t);
      n.changes == d.changes && n.speaker != d.speaker <==> t.Leave? && d.speaker == Some(t.id)
  {
  }

  class SpeakerState {
    const silenceGraceMs: int
    var currentSpeaker: Option<string>
    var silenceMs: int
    var mixPosition: int
    var emitted: seq<Change>

    ghost function View(): Diarizer reads this { Diarizer(currentSpeaker, silenceMs, mixPosition, emitted) }

    /** `_updateSpeaker`, then the clock of `mixAndEmit`. */
    method UpdateSpeaker(dominant: Option<string>, participants: nat)
      modifies this
      ensures View() == AfterTurn(silenceGraceMs, old(View()), Tick(dominant, participants))
    {
      if dominant.Some? {
        silenceMs := 0;
        if currentSpeaker != dominant {
          currentSpeaker := dominant;
          emitted := emitted + [Change(mixPosition, dominant)];
        }
      } else if currentSpeaker.Some? {
        silenceMs := silenceMs + FrameMs;
        if silenceMs >= silenceGraceMs && participants > 1 {
          currentSpeaker, silenceMs := None, 0;
          emitted := emitted + [Change(mixPosition, None)];
        }
      }
      mixPosition := mixPosition + FrameMs;
    }

    method RemoveParticipant(id: string)
      modifies this
      ensures View() == AfterTurn(silenceGraceMs, old(View()), Leave(id))
    {
      if currentSpeaker == Some(id) { currentSpeaker, silenceMs := None, 0; }
    }
  }
}
