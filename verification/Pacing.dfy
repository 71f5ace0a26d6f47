/** Transcriber/ASR/openai_streaming/index.js:667-790: the audio side of the
    streaming transcriber: chunking, the buffer that holds audio until the
    session is armed, and the pump that fills silence so that the audio timeline
    keeps up with the wall clock. Wall-clock times are in milliseconds. */
module Pacing {
  import opened Options
  import opened Sequences

  type Bytes = seq<bv8>

  const BytesPerMs := 32
  const MaxChunk := 6400
  const FillMaxMs := 2000

  datatype Config = Config(keepaliveMs: int, preArmMaxBytes: int)

  datatype Session = Session(
    isOpen: bool,                   // the socket is open
    updateSent: bool,
    armed: bool,
    anchor: Option<int>,            // _streamStartWall
    appendedMs: real,               // _audioMsAppended
    preArm: seq<Bytes>,
    preArmBytes: int,
    wire: seq<Bytes>,               // history: appends sent since start()
    earlier: seq<Bytes>,            // history: appends sent on earlier connections
    heard: seq<Bytes>,              // history: all the audio handed to transcribe
    stream: seq<Source>,            // history: what was sent, over all connections
    lost: seq<nat>)                 // history: which of the audio was dropped

  /** A buffer handed to `transcribe`, by its number, or noise. */
  datatype Source = Real(i: nat) | Noise(fill: Bytes)

  const Init := Session(false, false, false, None, 0.0, [], 0, [], [], [], [], [])

  datatype Event =
    | Opened
    | Configured(now: int)                     // _onSessionCreated
    | Audio(buf: Bytes, now: int)              // transcribe
    | Tick(now: int, fill: Bytes)              // fill: the noise a fill would send
    | Closed
    | Restart                                  // start()

  function Flat(parts: seq<Bytes>): Bytes {
    if parts == [] then [] else parts[0] + Flat(parts[1..])
  }

  function Size(parts: seq<Bytes>): nat { |Flat(parts)| }

  // ------------------------------------------------------ sending

  /** The appends of one buffer, 200 ms at most each. */
  function Chunks(buf: Bytes): seq<Bytes> {
    if buf == [] then []
    else if |buf| <= MaxChunk then [buf]
    else [buf[..MaxChunk]] + Chunks(buf[MaxChunk..])
  }

  /** `_sendAudio` */
  function Sent(s: Session, buf: Bytes, source: Source, now: int): Session {
    s.(anchor := if s.anchor.None? then Some(now) else s.anchor, wire := s.wire + Chunks(buf),
       appendedMs := s.appendedMs + |buf| as real / BytesPerMs as real, stream := s.stream + [source])
  }

  /** The loop of `_flushPreArmBuffer`; `first` is the number of the first buffer. */
  function SentAll(s: Session, bufs: seq<Bytes>, first: nat, now: int): Session
    decreases |bufs|
  {
    if bufs == [] then s else SentAll(Sent(s, bufs[0], Real(first), now), bufs[1..], first + 1, now)
  }

  /** The number of the oldest of the newest n buffers. */
  function Oldest(s: Session, n: nat): nat { if n <= |s.heard| then |s.heard| - n else 0 }

  function Arming(s: Session): Session { s.(armed := true, preArm := [], preArmBytes := 0) }

  /** `_tryArm`, with the flush of the retained audio. */
  function TryArm(s: Session, now: int): Session {
    if s.armed || !s.updateSent || !s.isOpen then s
    else SentAll(Arming(s), s.preArm, Oldest(s, |s.preArm|), now)
  }

  // ------------------------------------------------------ retaining

  /** The `while` loop of `_bufferPreArm`: how many of the oldest are dropped to
      get within the cap, keeping the newest. */
  function Excess(cap: int, bufs: seq<Bytes>): (n: nat)
    ensures n <= |bufs|
    decreases |bufs|
  {
    if Size(bufs) > cap && |bufs| > 1 then 1 + Excess(cap, bufs[1..]) else 0
  }

  /** `_bufferPreArm` */
  function Retained(cfg: Config, s: Session, buf: Bytes): Session {
    var bufs := s.preArm + [buf];
    var n := Excess(cfg.preArmMaxBytes, bufs);
    s.(preArm := bufs[n..], preArmBytes := Size(bufs[n..]), lost := s.lost + From(Oldest(s, |bufs|), n))
  }

  /** The n numbers from `first` on. */
  function From(first: nat, n: nat): (r: seq<nat>)
    ensures |r| == n && forall i :: 0 <= i < n ==> r[i] == first + i
  {
    seq(n, i requires 0 <= i < n => first + i)
  }

  // ------------------------------------------------------ pacing

  function Lag(s: Session, now: int): real
    requires s.anchor.Some?
  {
    (now - s.anchor.value) as real - s.appendedMs
  }

  /** How much silence a tick sends. */
  function FillMs(cfg: Config, s: Session, now: int): (ms: nat) {
    if cfg.keepaliveMs <= 0 || s.anchor.None? || !s.armed || !s.isOpen || Lag(s, now) <= cfg.keepaliveMs as real then 0
    else
      var ms := if Lag(s, now).Floor < FillMaxMs then Lag(s, now).Floor else FillMaxMs;
      if ms <= 0 then 0 else ms
  }

  /** The noise has the length the pump asked for; a socket opens once per start(). */
  predicate Enabled(cfg: Config, s: Session, e: Event) {
    && (e.Tick? ==> |e.fill| == FillMs(cfg, s, e.now) * BytesPerMs)
    && (e.Opened? ==> !s.isOpen && !s.updateSent && !s.armed)
  }

  function Hears(s: Session, buf: Bytes): Session { s.(heard := s.heard + [buf]) }

  /** `transcribe`, the audio having been recorded. */
  function Transcribed(cfg: Config, s: Session, buf: Bytes, now: int): Session {
    if s.isOpen && s.armed then Sent(s, buf, Real(Oldest(s, 1)), now) else TryArm(Retained(cfg, s, buf), now)
  }

  function Next(cfg: Config, s: Session, e: Event): Session
    requires Enabled(cfg, s, e)
  {
    match e
    case Opened => s.(isOpen := true)
    case Configured(now) => TryArm(s.(updateSent := true), now)
    case Audio(buf, now) => Transcribed(cfg, Hears(s, buf), buf, now)
    case Tick(now, fill) => if FillMs(cfg, s, now) == 0 then s else Sent(s, fill, Noise(fill), now)
    case Closed => s.(isOpen := false)
    case Restart =>
      s.(isOpen := false, updateSent := false, armed := false, anchor := None, appendedMs := 0.0, wire := [],
         earlier := s.earlier + s.wire)
  }

  function Exec(cfg: Config, es: seq<Event>): Option<Session> {
    if es == [] then Some(Init) else
    var before := Exec(cfg, es[..|es| - 1]);
    if before.Some? && Enabled(cfg, before.value, es[|es| - 1]) then Some(Next(cfg, before.value, es[|es| - 1]))
    else None
  }

  // ------------------------------------------------------ bytes

  lemma {:induction false} FlatSum(a: seq<Bytes>, b: seq<Bytes>)
    ensures Flat(a + b) == Flat(a) + Flat(b)
  {
    if a == [] {
      assert a + b == b;
    } else {
      assert (a + b)[1..] == a[1..] + b;
      FlatSum(a[1..], b);
    }
  }

  /** Chunking preserves the byte stream, in appends of 1 to 6400 bytes. */
  lemma {:induction false} ChunksPreserve(buf: Bytes)
    ensures Flat(Chunks(buf)) == buf
    ensures forall c :: c in Chunks(buf) ==> 0 < |c| <= MaxChunk
  {
    if 0 < |buf| <= MaxChunk {
      assert [buf][1..] == [];
    } else if |buf| > MaxChunk {
      ChunksPreserve(buf[MaxChunk..]);
      assert ([buf[..MaxChunk]] + Chunks(buf[MaxChunk..]))[1..] == Chunks(buf[MaxChunk..]);
    }
  }

  /** The audio clock counts exactly the bytes sent since start. */
  ghost predicate ClockOk(s: Session) { s.appendedMs * BytesPerMs as real == Size(s.wire) as real }

  lemma SentKeepsClock(s: Session, buf: Bytes, source: Source, now: int)
    requires ClockOk(s)
    ensures ClockOk(Sent(s, buf, source, now))
    ensures Flat(Sent(s, buf, source, now).wire) == Flat(s.wire) + buf
    ensures Sent(s, buf, source, now).appendedMs >= s.appendedMs
  {
    FlatSum(s.wire, Chunks(buf));
    ChunksPreserve(buf);
  }

  lemma {:induction false} SentAllKeepsClock(s: Session, bufs: seq<Bytes>, first: nat, now: int)
    requires ClockOk(s)
    ensures ClockOk(SentAll(s, bufs, first, now))
    ensures Flat(SentAll(s, bufs, first, now).wire) == Flat(s.wire) + Flat(bufs)
    decreases |bufs|
  {
    hide Sent, ClockOk;
    if bufs != [] {
      SentKeepsClock(s, bufs[0], Real(first), now);
      SentAllKeepsClock(Sent(s, bufs[0], Real(first), now), bufs[1..], first + 1, now);
    }
  }

  // ------------------------------------------------------ retained audio

  /** What is retained is the newest audio: all of it since the last flush within
      the cap, or the newest buffer alone; what was dropped last would not fit. */
  ghost predicate RetainOk(cfg: Config, s: Session) {
    && s.preArmBytes == Size(s.preArm)
    && |s.preArm| <= |s.heard| && s.preArm == s.heard[|s.heard| - |s.preArm|..]
    && (Size(s.preArm) <= cfg.preArmMaxBytes || |s.preArm| <= 1)
    && (forall i :: i in s.lost ==> i < |s.heard| - 1)
    && (forall i :: i in s.lost && i == |s.heard| - |s.preArm| - 1 ==>
         Size([s.heard[i]] + s.preArm) > cfg.preArmMaxBytes)
  }

  lemma {:induction false} ExcessIsLeast(cap: int, bufs: seq<Bytes>)
    requires bufs != []
    ensures var n := Excess(cap, bufs);
            && n < |bufs|
            && (Size(bufs[n..]) <= cap || n == |bufs| - 1)
            && (n > 0 ==> Size([bufs[n - 1]] + bufs[n..]) > cap)
    decreases |bufs|
  {
    hide Flat;
    if Size(bufs) > cap && |bufs| > 1 {
      ExcessIsLeast(cap, bufs[1..]);
      var n := Excess(cap, bufs);
      assert bufs[1..][n - 1..] == bufs[n..];
      if n == 1 {
        assert [bufs[0]] + bufs[1..] == bufs;
      } else {
        assert bufs[1..][n - 2] == bufs[n - 1];
      }
    } else {
      assert bufs[0..] == bufs;
    }
  }

  /** One more buffer is heard and retained. */
  lemma RetainedOk(cfg: Config, s: Session, buf: Bytes)
    requires RetainOk(cfg, s)
    ensures RetainOk(cfg, Retained(cfg, Hears(s, buf), buf))
  {
    hide Excess, Flat;
    var bufs := s.preArm + [buf];
    var n := Retained(cfg, Hears(s, buf), buf);
    var k := Excess(cfg.preArmMaxBytes, bufs);
    ExcessIsLeast(cfg.preArmMaxBytes, bufs);
    assert n.heard[|n.heard| - |bufs|..] == bufs;
    assert n.heard[|n.heard| - |n.preArm|..] == bufs[k..];
    forall i | i in n.lost && i == |n.heard| - |n.preArm| - 1
      ensures Size([n.heard[i]] + n.preArm) > cfg.preArmMaxBytes
    {
      if k > 0 {
        assert n.heard[i] == bufs[k - 1];
      } else {
        assert bufs[0..] == bufs && i in s.lost;
        MoreIsBigger([s.heard[i]] + s.preArm, buf);
        assert [s.heard[i]] + s.preArm + [buf] == [s.heard[i]] + bufs;
      }
    }
  }

  lemma MoreIsBigger(bufs: seq<Bytes>, buf: Bytes)
    ensures Size(bufs + [buf]) >= Size(bufs)
  {
    FlatSum(bufs, [buf]);
  }

  lemma {:induction false} SentAllFrame(s: Session, bufs: seq<Bytes>, first: nat, now: int)
    ensures var n := SentAll(s, bufs, first, now);
            && n.preArm == s.preArm && n.preArmBytes == s.preArmBytes && n.heard == s.heard && n.lost == s.lost
            && n.armed == s.armed && n.isOpen == s.isOpen && n.updateSent == s.updateSent && n.earlier == s.earlier
    decreases |bufs|
  {
    if bufs != [] { SentAllFrame(Sent(s, bufs[0], Real(first), now), bufs[1..], first + 1, now); }
  }

  // ------------------------------------------------------ everything heard

  function Sound(heard: seq<Bytes>, source: Source): Bytes {
    match source
    case Real(i) => if i < |heard| then heard[i] else []
    case Noise(fill) => fill
  }

  /** The bytes of a stream. */
  function Played(heard: seq<Bytes>, stream: seq<Source>): Bytes {
    if stream == [] then [] else Played(heard, stream[..|stream| - 1]) + Sound(heard, stream[|stream| - 1])
  }

  /** The numbers of the buffers in a stream, in its order. */
  function Reals(stream: seq<Source>): seq<nat> {
    if stream == [] then [] else
    var last := stream[|stream| - 1];
    Reals(stream[..|stream| - 1]) + (if last.Real? then [last.i] else [])
  }

  /** What went over the wire is the stream, byte for byte. */
  ghost predicate WireOk(s: Session) { Flat(s.earlier) + Flat(s.wire) == Played(s.heard, s.stream) }

  /** Each buffer heard was sent, was lost or is retained, and only one of them:
      those before the retained ones were sent or lost, in order. */
  ghost predicate Accounted(s: Session) {
    && |s.preArm| <= |s.heard|
    && Increasing(Reals(s.stream)) && Increasing(s.lost)
    && Below(Reals(s.stream), |s.heard| - |s.preArm|) && Below(s.lost, |s.heard| - |s.preArm|)
    && (forall i :: 0 <= i < |s.heard| - |s.preArm| ==> (i in Reals(s.stream) <==> i !in s.lost))
    && (s.isOpen && s.armed ==> s.preArm == [])
  }

  lemma ReplayOne(heard: seq<Bytes>, stream: seq<Source>, source: Source)
    ensures Played(heard, stream + [source]) == Played(heard, stream) + Sound(heard, source)
    ensures Reals(stream + [source]) == Reals(stream) + if source.Real? then [source.i] else []
  {
    assert (stream + [source])[..|stream|] == stream;
  }

  lemma {:induction false} ReplayMore(heard: seq<Bytes>, buf: Bytes, stream: seq<Source>)
    requires Below(Reals(stream), |heard|)
    ensures Played(heard + [buf], stream) == Played(heard, stream)
  {
    if stream != [] {
      var last := stream[|stream| - 1];
      assert Reals(stream) == Reals(stream[..|stream| - 1]) + if last.Real? then [last.i] else [];
      var before := Reals(stream[..|stream| - 1]);
      forall i | 0 <= i < |before| ensures before[i] < |heard| { assert before[i] == Reals(stream)[i]; }
      if last.Real? { assert Reals(stream)[|Reals(stream)| - 1] == last.i; }
      ReplayMore(heard, buf, stream[..|stream| - 1]);
    }
  }

  lemma SentKeepsWire(s: Session, buf: Bytes, source: Source, now: int)
    requires WireOk(s) && Sound(s.heard, source) == buf
    ensures WireOk(Sent(s, buf, source, now))
  {
    hide Flat, Chunks;
    FlatSum(s.wire, Chunks(buf));
    ChunksPreserve(buf);
    ReplayOne(s.heard, s.stream, source);
  }

  /** Sending everything retained settles it. */
  lemma {:induction false} FlushAccounts(s: Session, bufs: seq<Bytes>, now: int)
    requires WireOk(s) && |bufs| <= |s.heard| && bufs == s.heard[|s.heard| - |bufs|..]
    requires Accounted(s.(preArm := bufs, armed := false))
    ensures var n := SentAll(s, bufs, Oldest(s, |bufs|), now);
            WireOk(n) && Accounted(n.(preArm := [], armed := false))
    decreases |bufs|
  {
    hide Flat, Chunks, Sound, Played, Reals, Increasing, Below;
    if bufs != [] {
      var first := |s.heard| - |bufs|;
      var t := Sent(s, bufs[0], Real(first), now);
      SoundOfReal(s.heard, first);
      SentKeepsWire(s, bufs[0], Real(first), now);
      OneMoreReal(s, bufs, t);
      FlushAccounts(t, bufs[1..], now);
    }
  }

  lemma SoundOfReal(heard: seq<Bytes>, i: nat)
    requires i < |heard|
    ensures Sound(heard, Real(i)) == heard[i]
  {
  }

  lemma OneMoreReal(s: Session, bufs: seq<Bytes>, t: Session)
    requires 0 < |bufs| <= |s.heard| && Accounted(s.(preArm := bufs, armed := false))
    requires t.heard == s.heard && t.lost == s.lost && t.stream == s.stream + [Real(|s.heard| - |bufs|)]
    ensures Accounted(t.(preArm := bufs[1..], armed := false))
  {
    var first := |s.heard| - |bufs|;
    ReplayOne(s.heard, s.stream, Real(first));
    IncreasingSum(Reals(s.stream), [first]);
    forall i | 0 <= i < |s.heard| - |bufs| + 1 ensures i in Reals(t.stream) <==> i !in t.lost {
      if i == first { assert i in [first]; }
    }
  }

  ghost predicate Inv(cfg: Config, s: Session) { ClockOk(s) && RetainOk(cfg, s) && WireOk(s) && Accounted(s) }

  lemma TryArmKeepsInv(cfg: Config, s: Session, now: int)
    requires Inv(cfg, s)
    ensures Inv(cfg, TryArm(s, now))
  {
    hide Excess, ClockOk, Flat, SentAll, WireOk, Accounted;
    if !s.armed && s.updateSent && s.isOpen {
      var t := Arming(s);
      SameWireSameClock(s, t);
      SentAllFrame(t, s.preArm, Oldest(s, |s.preArm|), now);
      SentAllKeepsClock(t, s.preArm, Oldest(s, |s.preArm|), now);
      ArmingAccounts(s, now);
      FlushedRetained(cfg, s, TryArm(s, now));
    }
  }

  lemma FlushedRetained(cfg: Config, s: Session, n: Session)
    requires RetainOk(cfg, s) && n.heard == s.heard && n.lost == s.lost && n.preArm == [] && n.preArmBytes == 0
    ensures RetainOk(cfg, n)
  {
    assert n.heard[|n.heard|..] == [];
  }

  lemma ArmingAccounts(s: Session, now: int)
    requires WireOk(s) && Accounted(s) && s.preArm == s.heard[|s.heard| - |s.preArm|..]
    ensures var n := SentAll(Arming(s), s.preArm, Oldest(s, |s.preArm|), now);
            WireOk(n) && Accounted(n)
  {
    hide Flat, Played, SentAll, Increasing, Below;
    var t := Arming(s);
    FlushAccounts(t, s.preArm, now);
    SentAllFrame(t, s.preArm, Oldest(s, |s.preArm|), now);
  }

  lemma SameWireSameClock(s: Session, t: Session)
    requires ClockOk(s) && t.wire == s.wire && t.appendedMs == s.appendedMs
    ensures ClockOk(t)
  {
  }

  lemma NextKeepsInv(cfg: Config, s: Session, e: Event)
    requires Inv(cfg, s) && Enabled(cfg, s, e)
    ensures Inv(cfg, Next(cfg, s, e))
  {
    hide Inv, Transcribed, TryArm, FillMs;
    match e
    case Audio(buf, now) => AudioKeepsInv(cfg, s, buf, now);
    case Tick(now, fill) => if FillMs(cfg, s, now) != 0 { NoiseKeepsInv(cfg, s, fill, now); }
    case Configured(now) =>
      SetupKeepsInv(cfg, s, s.(updateSent := true));
      TryArmKeepsInv(cfg, s.(updateSent := true), now);
    case Restart => RestartKeepsInv(cfg, s);
    case _ => SetupKeepsInv(cfg, s, Next(cfg, s, e));
  }

  lemma SetupKeepsInv(cfg: Config, s: Session, n: Session)
    requires Inv(cfg, s) && n == s.(isOpen := n.isOpen, updateSent := n.updateSent)
    requires n.isOpen && n.armed ==> s.isOpen
    ensures Inv(cfg, n)
  {
    hide Flat, Reals, Played, Increasing, Below;
  }

  lemma RestartKeepsInv(cfg: Config, s: Session)
    requires Inv(cfg, s)
    ensures Inv(cfg, Next(cfg, s, Restart))
  {
    hide Reals, Played, Increasing, Below;
    FlatSum(s.earlier, s.wire);
    assert Flat([]) == [];
  }

  lemma NoiseKeepsInv(cfg: Config, s: Session, fill: Bytes, now: int)
    requires Inv(cfg, s)
    ensures Inv(cfg, Sent(s, fill, Noise(fill), now))
  {
    hide Flat, Chunks, Played, Increasing, Below, ClockOk, WireOk;
    SentKeepsClock(s, fill, Noise(fill), now);
    SentKeepsWire(s, fill, Noise(fill), now);
    ReplayOne(s.heard, s.stream, Noise(fill));
    assert Reals(s.stream) + [] == Reals(s.stream);
  }

  lemma AudioKeepsInv(cfg: Config, s: Session, buf: Bytes, now: int)
    requires Inv(cfg, s)
    ensures Inv(cfg, Transcribed(cfg, Hears(s, buf), buf, now))
  {
    hide Inv, Sent, Retained, TryArm, Hears;
    HearingIsOne(s, buf);
    if s.isOpen && s.armed {
      SpokenKeepsInv(cfg, s, buf, now);
    } else {
      RetainedKeepsInv(cfg, s, buf);
      TryArmKeepsInv(cfg, Retained(cfg, Hears(s, buf), buf), now);
    }
  }

  lemma HearingIsOne(s: Session, buf: Bytes)
    ensures var n := Hears(s, buf); n.isOpen == s.isOpen && n.armed == s.armed && Oldest(n, 1) == |s.heard|
  {
  }

  lemma SpokenKeepsInv(cfg: Config, s: Session, buf: Bytes, now: int)
    requires Inv(cfg, s) && s.isOpen && s.armed
    ensures Inv(cfg, Sent(Hears(s, buf), buf, Real(|s.heard|), now))
  {
    hide Flat, Chunks, Played, ClockOk;
    var h, n := Hears(s, buf), Sent(Hears(s, buf), buf, Real(|s.heard|), now);
    SameWireSameClock(s, h);
    SentKeepsClock(h, buf, Real(|s.heard|), now);
    ReplayMore(s.heard, buf, s.stream);
    SentKeepsWire(h, buf, Real(|s.heard|), now);
    HeardIsAccounted(s, buf, [buf]);
    OneMoreReal(h, [buf], n);
    assert [buf][1..] == [] && n.heard[|n.heard|..] == [];
  }

  /** A buffer heard is retained, to begin with. */
  lemma HeardIsAccounted(s: Session, buf: Bytes, kept: seq<Bytes>)
    requires Accounted(s) && kept == s.preArm + [buf]
    ensures Accounted(Hears(s, buf).(preArm := kept, armed := false))
  {
  }

  lemma RetainedKeepsInv(cfg: Config, s: Session, buf: Bytes)
    requires Inv(cfg, s) && !(s.isOpen && s.armed)
    ensures Inv(cfg, Retained(cfg, Hears(s, buf), buf))
  {
    hide RetainOk, Flat, Excess, Played;
    var n := Retained(cfg, Hears(s, buf), buf);
    SameWireSameClock(s, n);
    RetainedOk(cfg, s, buf);
    RetainedFits(cfg, s);
    ReplayMore(s.heard, buf, s.stream);
    LossesAccounted(s, buf, Excess(cfg.preArmMaxBytes, s.preArm + [buf]), n);
  }

  lemma RetainedFits(cfg: Config, s: Session)
    requires RetainOk(cfg, s)
    ensures |s.preArm| <= |s.heard|
  {
  }

  /** Dropping the oldest retained buffers accounts for them. */
  lemma LossesAccounted(s: Session, buf: Bytes, k: nat, n: Session)
    requires Accounted(s) && !(n.isOpen && n.armed) && k <= |s.preArm| + 1
    requires n.heard == s.heard + [buf] && n.stream == s.stream && n.preArm == (s.preArm + [buf])[k..]
    requires n.lost == s.lost + From(|s.heard| - |s.preArm|, k)
    ensures Accounted(n)
  {
    hide Reals;
    var m := |s.heard| - |s.preArm|;
    IncreasingSum(s.lost, From(m, k));
    forall i | m <= i < m + k ensures i in n.lost && i !in Reals(n.stream) { assert From(m, k)[i - m] == i; }
  }

  lemma {:induction false} ExecInv(cfg: Config, es: seq<Event>)
    ensures Exec(cfg, es).Some? ==> Inv(cfg, Exec(cfg, es).value)
  {
    hide Inv, Enabled, Next;
    if es == [] {
      InitInv(cfg);
    } else {
      ExecInv(cfg, es[..|es| - 1]);
      var before := Exec(cfg, es[..|es| - 1]);
      if before.Some? && Enabled(cfg, before.value, es[|es| - 1]) { NextKeepsInv(cfg, before.value, es[|es| - 1]); }
    }
  }

  lemma InitInv(cfg: Config)
    ensures Inv(cfg, Init)
  {
  }

  // ------------------------------------------------------ the theorems

  /** Over every run: the audio clock, in bytes, is exactly what was sent since
      start; what is retained is the newest audio, bounded by the cap unless a
      single buffer exceeds it, and nothing is dropped that would have fitted. */
  lemma RunIsSound(cfg: Config, es: seq<Event>)
    requires Exec(cfg, es).Some?
    ensures ClockOk(Exec(cfg, es).value) && RetainOk(cfg, Exec(cfg, es).value)
  {
    hide Exec, ClockOk, RetainOk, WireOk, Accounted;
    ExecInv(cfg, es);
  }

  /** The audio of a run, in order. */
  function AudioOf(es: seq<Event>): seq<Bytes> {
    if es == [] then [] else
    AudioOf(es[..|es| - 1]) + if es[|es| - 1].Audio? then [es[|es| - 1].buf] else []
  }

  lemma {:induction false} HeardIsAudio(cfg: Config, es: seq<Event>)
    requires Exec(cfg, es).Some?
    ensures Exec(cfg, es).value.heard == AudioOf(es)
  {
    hide Next, Enabled;
    if es != [] {
      HeardIsAudio(cfg, es[..|es| - 1]);
      NextHears(cfg, Exec(cfg, es[..|es| - 1]).value, es[|es| - 1]);
    }
  }

  lemma NextHears(cfg: Config, s: Session, e: Event)
    requires Enabled(cfg, s, e)
    ensures Next(cfg, s, e).heard == s.heard + if e.Audio? then [e.buf] else []
  {
    hide Excess, Chunks, FillMs, SentAll;
    match e
    case Audio(buf, now) => TryArmHears(Retained(cfg, Hears(s, buf), buf), now);
    case Configured(now) => TryArmHears(s.(updateSent := true), now);
    case _ =>
  }

  lemma TryArmHears(s: Session, now: int)
    ensures TryArm(s, now).heard == s.heard
  {
    SentAllFrame(Arming(s), s.preArm, Oldest(s, |s.preArm|), now);
  }

  /** Over every run, whatever closes and restarts: each buffer handed to
      `transcribe` has been sent, or dropped, or is retained, and one of these
      only. Those sent keep their order, across connections too, and what went
      over the wire is these buffers and the noise between them, byte for byte;
      the retained ones are the newest, all still unsent. */
  lemma EveryBufferIsSentLostOrRetained(cfg: Config, es: seq<Event>)
    requires Exec(cfg, es).Some?
    ensures var s := Exec(cfg, es).value;
            var settled := |AudioOf(es)| - |s.preArm|;
            && settled >= 0 && s.preArm == AudioOf(es)[settled..]
            && Flat(s.earlier) + Flat(s.wire) == Played(AudioOf(es), s.stream)
            && Increasing(Reals(s.stream)) && Increasing(s.lost)
            && (forall i :: i in Reals(s.stream) || i in s.lost ==> i < settled)
            && (forall i :: 0 <= i < settled ==> (i in Reals(s.stream) <==> i !in s.lost))
            && (s.isOpen && s.armed ==> s.preArm == [])
  {
    hide Exec, Flat, Played, Reals, AudioOf, ClockOk;
    ExecInv(cfg, es);
    HeardIsAudio(cfg, es);
  }

  /** Audio given to an open, armed session is sent at once, all of it, and nothing
      else happens to what was sent or retained. Given to any other session it is
      retained, or sent after the audio retained before it when it arms the
      session. Only audio beyond the cap is ever dropped, the oldest first. */
  lemma AudioIsSentOrRetained(cfg: Config, s: Session, buf: Bytes, now: int)
    requires Inv(cfg, s)
    ensures var n := Next(cfg, s, Audio(buf, now));
            && (s.isOpen && s.armed ==>
                 && n.preArm == s.preArm && n.lost == s.lost && Flat(n.wire) == Flat(s.wire) + buf
                 && n.anchor == if s.anchor.None? then Some(now) else s.anchor)
            && (!(s.isOpen && s.armed) ==>
                 var kept := (s.preArm + [buf])[Excess(cfg.preArmMaxBytes, s.preArm + [buf])..];
                 && kept != [] && kept[|kept| - 1] == buf
                 && (n.lost != s.lost ==> Size(s.preArm + [buf]) > cfg.preArmMaxBytes)
                 && if s.isOpen && s.updateSent
                    then n.armed && n.preArm == [] && Flat(n.wire) == Flat(s.wire) + Flat(kept) &&
                      n.anchor == if s.anchor.None? then Some(now) else s.anchor
                    else n.wire == s.wire && n.preArm == kept && n.anchor == s.anchor)
  {
    hide Flat, RetainOk, WireOk, Accounted;
    if s.isOpen && s.armed {
      SameWireSameClock(s, Hears(s, buf));
      SentKeepsClock(Hears(s, buf), buf, Real(Oldest(Hears(s, buf), 1)), now);
    } else {
      var bufs := s.preArm + [buf];
      var t := Retained(cfg, Hears(s, buf), buf);
      ExcessIsLeast(cfg.preArmMaxBytes, bufs);
      SameWireSameClock(s, t);
      NothingLost(s, t, cfg, buf);
      if s.isOpen && s.updateSent {
        ArmingSendsRetained(t, now);
        FlushAnchors(Arming(t), t.preArm, Oldest(t, |t.preArm|), now);
      }
    }
  }

  lemma NothingLost(s: Session, t: Session, cfg: Config, buf: Bytes)
    requires t == Retained(cfg, Hears(s, buf), buf)
    ensures t.lost != s.lost ==> Size(s.preArm + [buf]) > cfg.preArmMaxBytes
  {
    assert s.lost + [] == s.lost;
  }

  /** The first audio an arming sends starts the clock. */
  lemma {:induction false} FlushAnchors(s: Session, bufs: seq<Bytes>, first: nat, now: int)
    ensures SentAll(s, bufs, first, now).anchor == if s.anchor.None? && bufs != [] then Some(now) else s.anchor
    decreases |bufs|
  {
    if bufs != [] { FlushAnchors(Sent(s, bufs[0], Real(first), now), bufs[1..], first + 1, now); }
  }

  /** A connection opens, closes, and starts over unarmed and without a clock, keeping
      only the audio retained. */
  lemma ConnectionsStartOver(cfg: Config, s: Session, e: Event)
    requires Enabled(cfg, s, e) && (e.Opened? || e.Closed? || e.Restart?)
    ensures var n := Next(cfg, s, e);
            && n.isOpen == e.Opened? && n.preArm == s.preArm && n.preArmBytes == s.preArmBytes && n.lost == s.lost
            && (e.Restart? ==>
                 && !n.updateSent && !n.armed && n.anchor.None? && n.appendedMs == 0.0 && n.wire == []
                 && n.earlier == s.earlier + s.wire)
            && (!e.Restart? ==>
                 n.updateSent == s.updateSent && n.armed == s.armed && n.anchor == s.anchor && n.wire == s.wire)
  {
  }

  /** The configuration of an open session arms it, which sends everything retained
      before it, in order; no second configuration sends it again. */
  lemma ConfiguringFlushes(cfg: Config, s: Session, now: int)
    requires Inv(cfg, s)
    ensures var n := Next(cfg, s, Configured(now));
            && n.lost == s.lost
            && (s.isOpen ==>
                 n.armed && n.preArm == [] && Flat(n.wire) == Flat(s.wire) + if s.armed then [] else Flat(s.preArm))
            && n.anchor == (if s.isOpen && s.anchor.None? && !s.armed && s.preArm != [] then Some(now) else s.anchor)
            && (!s.isOpen ==> n.wire == s.wire && n.preArm == s.preArm && n.armed == s.armed)
  {
    hide Flat, RetainOk, WireOk;
    if !s.armed && s.isOpen {
      SameWireSameClock(s, s.(updateSent := true));
      ArmingSendsRetained(s.(updateSent := true), now);
      FlushAnchors(Arming(s.(updateSent := true)), s.preArm, Oldest(s, |s.preArm|), now);
    }
  }

  /** Arming sends the retained audio, all of it and in order. */
  lemma ArmingSendsRetained(s: Session, now: int)
    requires ClockOk(s) && !s.armed && s.updateSent && s.isOpen
    ensures TryArm(s, now).armed && TryArm(s, now).preArm == [] && TryArm(s, now).lost == s.lost
    ensures Flat(TryArm(s, now).wire) == Flat(s.wire) + Flat(s.preArm)
  {
    hide ClockOk, Flat;
    SameWireSameClock(s, Arming(s));
    SentAllFrame(Arming(s), s.preArm, Oldest(s, |s.preArm|), now);
    SentAllKeepsClock(Arming(s), s.preArm, Oldest(s, |s.preArm|), now);
  }

  predicate Streaming(s: Session) { s.isOpen && s.armed }

  /** A tick sends whole milliseconds of silence, never more than the lag: silence
      never drives the lag below zero. It brings the lag within the threshold
      exactly when the lag was within one fill of it. */
  lemma TickClosesLag(cfg: Config, s: Session, now: int, fill: Bytes)
    requires Enabled(cfg, s, Tick(now, fill)) && Streaming(s) && s.anchor.Some? && cfg.keepaliveMs >= 1
    ensures var n := Next(cfg, s, Tick(now, fill));
            && n.anchor == s.anchor
            && Lag(n, now) == Lag(s, now) - FillMs(cfg, s, now) as real
            && (FillMs(cfg, s, now) > 0 ==> Lag(n, now) >= 0.0)
            && (Lag(n, now) <= cfg.keepaliveMs as real <==> Lag(s, now) <= (FillMaxMs + cfg.keepaliveMs) as real)
  {
    hide Chunks;
  }

  /** Events of a streaming session from time `last` on: audio, and ticks each at
      most 2000 - keepalive ms after the previous one. */
  predicate Prompt(cfg: Config, last: int, es: seq<Event>)
    decreases |es|
  {
    es == [] ||
    match es[0]
    case Audio(_, now) => now >= last && Prompt(cfg, last, es[1..])
    case Tick(now, _) => now - last <= FillMaxMs - cfg.keepaliveMs && Prompt(cfg, now, es[1..])
    case _ => false
  }

  function LastTick(last: int, es: seq<Event>): int
    decreases |es|
  {
    if es == [] then last else LastTick(if es[0].Tick? then es[0].now else last, es[1..])
  }

  function ExecFrom(cfg: Config, s: Session, es: seq<Event>): Option<Session>
    decreases |es|
  {
    if es == [] then Some(s)
    else if Enabled(cfg, s, es[0]) then ExecFrom(cfg, Next(cfg, s, es[0]), es[1..])
    else None
  }

  predicate KeepsUp(cfg: Config, s: Session, now: int) {
    Streaming(s) && s.appendedMs >= 0.0 && (s.anchor.Some? ==> Lag(s, now) <= cfg.keepaliveMs as real)
  }

  /** Before a session is armed it has no clock. */
  ghost predicate Unstarted(s: Session) { !s.armed ==> s.anchor.None? && s.appendedMs == 0.0 }

  lemma NextKeepsUnstarted(cfg: Config, s: Session, e: Event)
    requires Unstarted(s) && Enabled(cfg, s, e)
    ensures Unstarted(Next(cfg, s, e))
  {
    hide Excess, Flat, Chunks, FillMs;
    match e
    case Configured(now) => TryArmUnstarted(s.(updateSent := true), now);
    case Audio(buf, now) => if !(s.isOpen && s.armed) { TryArmUnstarted(Retained(cfg, Hears(s, buf), buf), now); }
    case Tick(now, _) => if !s.armed { UnarmedSendsNothing(cfg, s, now); }
    case _ =>
  }

  lemma TryArmUnstarted(s: Session, now: int)
    requires Unstarted(s)
    ensures Unstarted(TryArm(s, now))
  {
    hide SentAll;
    SentAllFrame(Arming(s), s.preArm, Oldest(s, |s.preArm|), now);
  }

  lemma UnarmedSendsNothing(cfg: Config, s: Session, now: int)
    requires !s.armed
    ensures FillMs(cfg, s, now) == 0
  {
  }

  /** Arming leaves the audio timeline level with the clock or ahead of it. */
  lemma {:induction false} FlushKeepsUp(cfg: Config, s: Session, bufs: seq<Bytes>, first: nat, now: int)
    requires cfg.keepaliveMs >= 1 && KeepsUp(cfg, s, now)
    ensures KeepsUp(cfg, SentAll(s, bufs, first, now), now)
    decreases |bufs|
  {
    hide Chunks;
    if bufs != [] { FlushKeepsUp(cfg, Sent(s, bufs[0], Real(first), now), bufs[1..], first + 1, now); }
  }

  lemma ArmingKeepsUp(cfg: Config, s: Session, now: int)
    requires cfg.keepaliveMs >= 1 && Unstarted(s) && !s.armed && TryArm(s, now).armed
    ensures KeepsUp(cfg, TryArm(s, now), now)
  {
    hide SentAll;
    FlushKeepsUp(cfg, Arming(s), s.preArm, Oldest(s, |s.preArm|), now);
  }

  /** From a session that keeps up on. */
  lemma {:induction false} LagStays(cfg: Config, s: Session, last: int, es: seq<Event>)
    requires cfg.keepaliveMs >= 1 && KeepsUp(cfg, s, last) && Prompt(cfg, last, es) && ExecFrom(cfg, s, es).Some?
    ensures KeepsUp(cfg, ExecFrom(cfg, s, es).value, LastTick(last, es))
    decreases |es|
  {
    hide Chunks, Flat, Enabled, Next, FillMs;
    if es != [] {
      var n := Next(cfg, s, es[0]);
      match es[0]
      case Audio(buf, now) =>
        AudioKeepsUp(cfg, s, last, buf, now);
        LagStays(cfg, n, last, es[1..]);
      case Tick(now, fill) =>
        TickKeepsUp(cfg, s, last, now, fill);
        LagStays(cfg, n, now, es[1..]);
    }
  }

  /** Over every run: from the event that arms the session on, as long as it stays
      open and its ticks come at most 2000 - keepalive ms apart, the lag after
      every tick is at most the keepalive threshold, however little audio arrives. */
  lemma LagStaysBounded(cfg: Config, run: seq<Event>, e: Event, es: seq<Event>)
    requires cfg.keepaliveMs >= 1 && (e.Configured? || e.Audio?)
    requires Exec(cfg, run).Some? && Enabled(cfg, Exec(cfg, run).value, e) && !Exec(cfg, run).value.armed
    requires var s := Next(cfg, Exec(cfg, run).value, e);
             s.armed && Prompt(cfg, e.now, es) && ExecFrom(cfg, s, es).Some?
    ensures var n := ExecFrom(cfg, Next(cfg, Exec(cfg, run).value, e), es).value;
            n.anchor.Some? ==> Lag(n, LastTick(e.now, es)) <= cfg.keepaliveMs as real
  {
    hide Exec, TryArm, Excess, Flat, Chunks, Prompt, LastTick, ExecFrom, Enabled, FillMs;
    var s := Exec(cfg, run).value;
    ExecUnstarted(cfg, run);
    if e.Configured? {
      ArmingKeepsUp(cfg, s.(updateSent := true), e.now);
    } else {
      ArmingKeepsUp(cfg, Retained(cfg, Hears(s, e.buf), e.buf), e.now);
    }
    LagStays(cfg, Next(cfg, s, e), e.now, es);
  }

  lemma {:induction false} ExecUnstarted(cfg: Config, es: seq<Event>)
    requires Exec(cfg, es).Some?
    ensures Unstarted(Exec(cfg, es).value)
  {
    hide Next, Enabled;
    if es != [] {
      ExecUnstarted(cfg, es[..|es| - 1]);
      NextKeepsUnstarted(cfg, Exec(cfg, es[..|es| - 1]).value, es[|es| - 1]);
    }
  }

  lemma AudioKeepsUp(cfg: Config, s: Session, last: int, buf: Bytes, now: int)
    requires cfg.keepaliveMs >= 1 && KeepsUp(cfg, s, last) && now >= last
    ensures KeepsUp(cfg, Next(cfg, s, Audio(buf, now)), last)
  {
    hide Chunks;
  }

  lemma TickKeepsUp(cfg: Config, s: Session, last: int, now: int, fill: Bytes)
    requires cfg.keepaliveMs >= 1 && KeepsUp(cfg, s, last) && now - last <= FillMaxMs - cfg.keepaliveMs
    requires Enabled(cfg, s, Tick(now, fill))
    ensures KeepsUp(cfg, Next(cfg, s, Tick(now, fill)), now)
  {
    hide Chunks, FillMs;
    if s.anchor.Some? { TickClosesLag(cfg, s, now, fill); } else { NoAnchorNoFill(cfg, s, now); }
  }

  lemma NoAnchorNoFill(cfg: Config, s: Session, now: int)
    requires s.anchor.None?
    ensures FillMs(cfg, s, now) == 0
  {
  }

  // ------------------------------------------------------ the object

  lemma ChunksStep(buf: Bytes, offset: nat)
    requires offset < |buf|
    ensures var end := if offset + MaxChunk < |buf| then offset + MaxChunk else |buf|;
            Chunks(buf[offset..]) == [buf[offset..end]] + Chunks(buf[end..])
  {
    var rest := buf[offset..];
    if |rest| > MaxChunk {
      assert rest[..MaxChunk] == buf[offset..offset + MaxChunk] && rest[MaxChunk..] == buf[offset + MaxChunk..];
    } else {
      assert rest == buf[offset..|buf|] && buf[|buf|..] == [];
    }
  }

  lemma ExcessStep(cap: int, bufs: seq<Bytes>, n: nat)
    requires n < |bufs|
    ensures Excess(cap, bufs[n..]) == if Size(bufs[n..]) > cap && |bufs| - n > 1 then 1 + Excess(cap, bufs[n + 1..])
      else 0
    ensures Size(bufs[n..]) == |bufs[n]| + Size(bufs[n + 1..])
  {
    assert bufs[n..][1..] == bufs[n + 1..];
  }

  /** The `while` loop of `_bufferPreArm`. */
  method DropOldest(cap: int, bufs: seq<Bytes>, bytes: int) returns (kept: seq<Bytes>, keptBytes: int, n: nat)
    requires bufs != [] && bytes == Size(bufs)
    ensures n == Excess(cap, bufs) && kept == bufs[n..] && keptBytes == Size(kept)
  {
    hide Flat, Excess;
    kept, keptBytes, n := bufs, bytes, 0;
    assert bufs[0..] == bufs;
    while keptBytes > cap && |kept| > 1
      invariant n < |bufs| && kept == bufs[n..] && keptBytes == Size(bufs[n..])
      invariant n + Excess(cap, bufs[n..]) == Excess(cap, bufs)
      decreases |kept|
    {
      ExcessStep(cap, bufs, n);
      keptBytes := keptBytes - |kept[0]|;
      kept := kept[1..];
      n := n + 1;
    }
    ExcessStep(cap, bufs, n);
  }

  /** The `while` loop of `_sendAudio`. */
  method AppendChunks(wire: seq<Bytes>, buf: Bytes) returns (sent: seq<Bytes>)
    ensures sent == wire + Chunks(buf)
  {
    hide Chunks;
    sent := wire;
    var offset := 0;
    assert buf[0..] == buf && wire + [] == wire;
    NoChunks(buf);
    while offset < |buf|
      invariant 0 <= offset
      invariant sent + (if offset < |buf| then Chunks(buf[offset..]) else []) == wire + Chunks(buf)
    {
      var end := if offset + MaxChunk < |buf| then offset + MaxChunk else |buf|;
      ChunksStep(buf, offset);
      sent := sent + [buf[offset..end]];
      offset := offset + MaxChunk;
    }
  }

  class AudioPump {
    const cfg: Config
    var wsOpen: bool
    var armed: bool
    var streamStartWall: Option<int>
    var audioMsAppended: real
    var preArmBuffer: seq<Bytes>
    var preArmBufferBytes: int
    var wire: seq<Bytes>             // appends handed to ws.send since start
    var updateSent: bool
    ghost var earlier: seq<Bytes>
    ghost var heard: seq<Bytes>
    ghost var stream: seq<Source>
    ghost var lost: seq<nat>

    ghost function View(): Session reads this {
      Session(wsOpen, updateSent, armed, streamStartWall, audioMsAppended, preArmBuffer, preArmBufferBytes, wire,
        earlier, heard, stream, lost)
    }

    method SendAudio(buf: Bytes, now: int, ghost source: Source)
      modifies this`streamStartWall, this`wire, this`audioMsAppended, this`stream
      ensures View() == Sent(old(View()), buf, source, now)
    {
      hide Chunks;
      if streamStartWall.None? { streamStartWall := Some(now); }
      wire := AppendChunks(wire, buf);
      audioMsAppended := audioMsAppended + |buf| as real / BytesPerMs as real;
      stream := stream + [source];
    }

    method BufferPreArm(buf: Bytes)
      requires preArmBufferBytes == Size(preArmBuffer)
      modifies this`preArmBuffer, this`preArmBufferBytes, this`lost
      ensures View() == Retained(cfg, old(View()), buf) && preArmBufferBytes == Size(preArmBuffer)
    {
      hide Flat, Excess;
      SizeOfPushed(preArmBuffer, buf);
      var n: nat;
      ghost var first := Oldest(View(), |preArmBuffer| + 1);
      preArmBuffer, preArmBufferBytes, n :=
        DropOldest(cfg.preArmMaxBytes, preArmBuffer + [buf], preArmBufferBytes + |buf|);
      lost := lost + From(first, n);
    }

    /** The arming and the loop of `_flushPreArmBuffer`. */
    method Arm(now: int)
      modifies this
      ensures View() == TryArm(old(View()), now)
    {
      hide Sent;
      if armed || !updateSent || !wsOpen { return; }
      var buffered := preArmBuffer;
      ghost var first := Oldest(View(), |buffered|);
      armed, preArmBuffer, preArmBufferBytes := true, [], 0;
      var i := 0;
      assert buffered[0..] == buffered;
      while i < |buffered|
        invariant 0 <= i <= |buffered|
        invariant SentAll(View(), buffered[i..], first + i, now) == TryArm(old(View()), now)
      {
        assert buffered[i..][1..] == buffered[i + 1..];
        SendAudio(buffered[i], now, Real(first + i));
        i := i + 1;
      }
    }

    method Transcribe(buf: Bytes, now: int)
      requires preArmBufferBytes == Size(preArmBuffer)
      modifies this
      ensures View() == Next(cfg, old(View()), Audio(buf, now))
    {
      hide Sent, Retained, TryArm, Flat;
      heard := heard + [buf];
      if wsOpen && armed {
        SendAudio(buf, now, Real(Oldest(View(), 1)));
      } else {
        BufferPreArm(buf);
        Arm(now);
      }
    }

    method RunPacingTick(now: int, noise: Bytes) returns (fillMs: nat)
      requires |noise| == FillMs(cfg, View(), now) * BytesPerMs
      modifies this`streamStartWall, this`wire, this`audioMsAppended, this`stream
      ensures fillMs == FillMs(cfg, old(View()), now) && View() == Next(cfg, old(View()), Tick(now, noise))
    {
      hide Sent;
      if cfg.keepaliveMs <= 0 || streamStartWall.None? || !armed || !wsOpen { return 0; }
      var lag := (now - streamStartWall.value) as real - audioMsAppended;
      if lag <= cfg.keepaliveMs as real { return 0; }
      var ms := if lag.Floor < FillMaxMs then lag.Floor else FillMaxMs;
      SendAudio(noise, now, Noise(noise));
      fillMs := ms;
    }
  }

  lemma NoChunks(buf: Bytes)
    ensures Chunks(buf[|buf|..]) == []
    ensures buf == [] ==> Chunks(buf) == []
  {
  }

  lemma SizeOfPushed(bufs: seq<Bytes>, buf: Bytes)
    ensures Size(bufs + [buf]) == Size(bufs) + |buf|
  {
    FlatSum(bufs, [buf]);
    assert [buf][1..] == [];
  }
}
