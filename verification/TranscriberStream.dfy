/** BotService/bot/TranscriberStream.js and the socket swap of
    BotService/components/BrokerClient/index.js:284-306: a bot's audio frames,
    acknowledged sockets, and the buffer that all sockets of a bot share.

    Frames are numbered in the order the bot produces them. Only the latest
    stream listens to the bot, but every socket may still deliver messages. */
module TranscriberStreams {
  import opened Options
  import opened Sequences

  datatype Socket = Socket(isOpen: bool, ready: bool)

  datatype State = State(
    sockets: seq<Socket>,
    buffered: seq<nat>,             // the shared buffer
    droppedFrames: nat,
    produced: nat,                  // history: frames produced
    sent: seq<nat>,                 // history: frames sent, over all sockets
    dropped: seq<nat>,              // history: frames dropped as the oldest
    lost: seq<nat>)                 // history: frames handed to a socket that was not open

  const Init := State([], [], 0, 0, [], [], [])

  datatype Event =
    | OpenSocket                    // the first socket, or a swap
    | Opened(i: nat)
    | Ack(i: nat)
    | Closing(i: nat)               // readyState leaves OPEN, no event yet
    | Close(i: nat)
    | Frame

  predicate Enabled(s: State, e: Event) {
    match e
    case OpenSocket => true
    case Frame => s.sockets != []
    case _ => e.i < |s.sockets|
  }

  function Current(s: State): Socket
    requires s.sockets != []
  {
    s.sockets[|s.sockets| - 1]
  }

  /** `_sendAudio` on the latest stream. */
  function AfterFrame(maxBuffer: nat, s: State): State
    requires s.sockets != []
  {
    var n := s.(produced := s.produced + 1);
    if Current(s).ready then
      if Current(s).isOpen then n.(sent := s.sent + [s.produced]) else n.(lost := s.lost + [s.produced])
    else if |s.buffered| >= maxBuffer && s.buffered != [] then
      n.(buffered := s.buffered[1..] + [s.produced], dropped := s.dropped + [s.buffered[0]],
        droppedFrames := s.droppedFrames + 1)
    else n.(buffered := s.buffered + [s.produced])
  }

  /** An acknowledgement flushes the shared buffer over its own socket. */
  function AfterAck(s: State, i: nat): State
    requires i < |s.sockets|
  {
    var n := s.(sockets := s.sockets[i := s.sockets[i].(ready := true)], buffered := []);
    if s.sockets[i].isOpen then n.(sent := s.sent + s.buffered) else n.(lost := s.lost + s.buffered)
  }

  function Next(maxBuffer: nat, s: State, e: Event): State
    requires Enabled(s, e)
  {
    match e
    case OpenSocket => s.(sockets := s.sockets + [Socket(false, false)])
    case Opened(i) => s.(sockets := s.sockets[i := s.sockets[i].(isOpen := true)])
    case Ack(i) => AfterAck(s, i)
    case Closing(i) => s.(sockets := s.sockets[i := s.sockets[i].(isOpen := false)])
    case Close(i) => s.(sockets := s.sockets[i := Socket(false, false)])
    case Frame => AfterFrame(maxBuffer, s)
  }

  function Exec(maxBuffer: nat, es: seq<Event>): Option<State> {
    if es == [] then Some(Init) else
    var before := Exec(maxBuffer, es[..|es| - 1]);
    if before.Some? && Enabled(before.value, es[|es| - 1]) then Some(Next(maxBuffer, before.value, es[|es| - 1]))
    else None
  }

  // ------------------------------------------------------ what every step keeps

  /** The buffer holds the newest frames, without a gap. */
  predicate Newest(buffered: seq<nat>, produced: nat) {
    forall i :: 0 <= i < |buffered| ==> buffered[i] == produced - |buffered| + i
  }

  /** Everything sent is older than everything buffered. */
  ghost predicate OrderOk(s: State) {
    && Newest(s.buffered, s.produced)
    && |s.buffered| <= s.produced
    && Increasing(s.sent)
    && Below(s.sent, s.produced - |s.buffered|)
  }

  predicate Somewhere(s: State, f: nat) { f in s.sent || f in s.buffered || f in s.dropped || f in s.lost }

  ghost predicate CountOk(s: State) {
    && s.produced == |s.sent| + |s.buffered| + |s.dropped| + |s.lost|
    && s.droppedFrames == |s.dropped|
    && forall f :: 0 <= f < s.produced ==> Somewhere(s, f)
  }

  ghost predicate Inv(maxBuffer: nat, s: State) {
    && OrderOk(s) && CountOk(s)
    && |s.buffered| <= maxBuffer
    && (s.sockets != [] && Current(s).ready ==> s.buffered == [])
    && (s.sockets == [] ==> s.buffered == [])
  }

  lemma FrameKeepsCount(maxBuffer: nat, s: State)
    requires CountOk(s) && s.sockets != []
    ensures CountOk(AfterFrame(maxBuffer, s))
  {
    var n := AfterFrame(maxBuffer, s);
    forall f | 0 <= f < n.produced ensures Somewhere(n, f) {
      if f < s.produced {
        assert Somewhere(s, f);
        if f in s.buffered && s.buffered != [] { assert s.buffered == [s.buffered[0]] + s.buffered[1..]; }
      }
    }
  }

  lemma FrameKeepsInv(maxBuffer: nat, s: State)
    requires maxBuffer >= 1 && Inv(maxBuffer, s) && s.sockets != []
    ensures Inv(maxBuffer, AfterFrame(maxBuffer, s))
  {
    FrameKeepsCount(maxBuffer, s);
    hide CountOk;
  }

  lemma AckKeepsInv(maxBuffer: nat, s: State, i: nat)
    requires Inv(maxBuffer, s) && i < |s.sockets|
    ensures Inv(maxBuffer, AfterAck(s, i))
  {
    var n := AfterAck(s, i);
    forall f | 0 <= f < n.produced ensures Somewhere(n, f) { assert Somewhere(s, f); }
  }

  lemma NextKeepsInv(maxBuffer: nat, s: State, e: Event)
    requires maxBuffer >= 1 && Inv(maxBuffer, s) && Enabled(s, e)
    ensures Inv(maxBuffer, Next(maxBuffer, s, e))
  {
    hide OrderOk, AfterFrame, AfterAck;
    match e
    case Frame => FrameKeepsInv(maxBuffer, s);
    case Ack(i) => AckKeepsInv(maxBuffer, s, i);
    case _ => SocketsOnly(s, Next(maxBuffer, s, e));
  }

  lemma SocketsOnly(s: State, n: State)
    requires OrderOk(s) && CountOk(s) && n == s.(sockets := n.sockets)
    ensures OrderOk(n) && CountOk(n)
  {
    assert forall f :: Somewhere(n, f) <==> Somewhere(s, f);
  }

  lemma {:induction false} ExecInv(maxBuffer: nat, es: seq<Event>)
    requires maxBuffer >= 1
    ensures Exec(maxBuffer, es).Some? ==> Inv(maxBuffer, Exec(maxBuffer, es).value)
  {
    hide Inv, Enabled, Next;
    if es == [] {
      InitInv(maxBuffer);
    } else {
      ExecInv(maxBuffer, es[..|es| - 1]);
      var before := Exec(maxBuffer, es[..|es| - 1]);
      if before.Some? && Enabled(before.value, es[|es| - 1]) { NextKeepsInv(maxBuffer, before.value, es[|es| - 1]); }
    }
  }

  lemma InitInv(maxBuffer: nat)
    ensures Inv(maxBuffer, Init)
  {
  }

  // ------------------------------------------------------ the theorems

  /** Over every run of frames, acks, closes and swaps, from any socket: frames
      sent, then frames buffered, are in production order without repetition;
      the buffer holds the newest frames and never exceeds its bound; and every
      frame produced is sent, buffered, dropped as the oldest, or lost. */
  lemma FramesStayInOrder(maxBuffer: nat, es: seq<Event>)
    requires maxBuffer >= 1 && Exec(maxBuffer, es).Some?
    ensures var s := Exec(maxBuffer, es).value;
            && Increasing(s.sent + s.buffered) && Below(s.sent + s.buffered, s.produced)
            && Newest(s.buffered, s.produced) && |s.buffered| <= maxBuffer
            && s.produced == |s.sent| + |s.buffered| + s.droppedFrames + |s.lost|
            && forall f :: 0 <= f < s.produced ==> Somewhere(s, f)
  {
    hide Exec;
    ExecInv(maxBuffer, es);
  }

  /** A step loses frames exactly when the stream is ready on a socket that is
      no longer open, or an acknowledgement comes from a socket that is not open
      while frames are buffered. */
  predicate Loses(s: State, e: Event)
    requires Enabled(s, e)
  {
    (e.Frame? && Current(s).ready && !Current(s).isOpen) || (e.Ack? && !s.sockets[e.i].isOpen && s.buffered != [])
  }

  lemma LossesHaveCauses(maxBuffer: nat, s: State, e: Event)
    requires Enabled(s, e)
    ensures Next(maxBuffer, s, e).lost != s.lost <==> Loses(s, e)
  {
    if e.Ack? { assert |s.lost + s.buffered| == |s.lost| + |s.buffered|; }
  }

  /** A frame is dropped exactly when one arrives while the latest stream is not
      ready and the buffer is full, and it is the oldest. The new frame is sent when
      the stream is ready on an open socket, and buffered when it is not ready. */
  lemma FrameIsSentOrBuffered(maxBuffer: nat, s: State, e: Event)
    requires maxBuffer >= 1 && Inv(maxBuffer, s) && Enabled(s, e)
    ensures var n := Next(maxBuffer, s, e);
            && (n.dropped != s.dropped <==> e.Frame? && !Current(s).ready && |s.buffered| == maxBuffer)
            && (n.dropped != s.dropped ==> n.dropped == s.dropped + [s.produced - maxBuffer])
            && (e.Frame? && Current(s) == Socket(true, true) ==> n.sent == s.sent + [s.produced])
            && (e.Frame? && !Current(s).ready ==>
                 n.sent == s.sent && n.buffered != [] && n.buffered[|n.buffered| - 1] == s.produced)
  {
    hide CountOk;
  }

  /** The handshake of any socket sends everything buffered, in order: it opens, the
      server acknowledges, and the socket is ready. */
  lemma HandshakeFlushes(maxBuffer: nat, s: State, i: nat)
    requires i < |s.sockets|
    ensures Enabled(s, Opened(i)) && Enabled(Next(maxBuffer, s, Opened(i)), Ack(i))
    ensures var n := Next(maxBuffer, Next(maxBuffer, s, Opened(i)), Ack(i));
            && n.sent == s.sent + s.buffered && n.buffered == [] && n.lost == s.lost && n.dropped == s.dropped
            && n.sockets == s.sockets[i := Socket(true, true)]
  {
  }

  /** Every ack comes from an open socket, and a socket that acknowledged stays
      open until its close event. */
  ghost predicate Courteous(maxBuffer: nat, es: seq<Event>) {
    forall n :: 0 <= n < |es| && Exec(maxBuffer, es[..n]).Some? && Enabled(Exec(maxBuffer, es[..n]).value, es[n]) ==>
      Polite(Exec(maxBuffer, es[..n]).value, es[n])
  }

  predicate Polite(s: State, e: Event)
    requires Enabled(s, e)
  {
    (e.Ack? ==> s.sockets[e.i].isOpen) && (e.Closing? ==> !s.sockets[e.i].ready)
  }

  ghost predicate NothingLost(s: State) {
    s.lost == [] && forall i :: 0 <= i < |s.sockets| && s.sockets[i].ready ==> s.sockets[i].isOpen
  }

  /** Then nothing is lost: produced = sent + buffered + dropped. */
  lemma {:induction false} CourteousRunsConserve(maxBuffer: nat, es: seq<Event>)
    requires maxBuffer >= 1 && Exec(maxBuffer, es).Some? && Courteous(maxBuffer, es)
    ensures NothingLost(Exec(maxBuffer, es).value)
    ensures var s := Exec(maxBuffer, es).value; s.produced == |s.sent| + |s.buffered| + s.droppedFrames
  {
    hide Next, Enabled;
    if es != [] {
      var es0 := es[..|es| - 1];
      var s := Exec(maxBuffer, es0).value;
      forall n | 0 <= n < |es0| ensures es0[..n] == es[..n] && es0[n] == es[n] {}
      CourteousRunsConserve(maxBuffer, es0);
      assert Polite(s, es[|es| - 1]);
      PoliteStep(maxBuffer, s, es[|es| - 1]);
    }
    FramesStayInOrder(maxBuffer, es);
  }

  lemma PoliteStep(maxBuffer: nat, s: State, e: Event)
    requires NothingLost(s) && Enabled(s, e) && Polite(s, e)
    ensures NothingLost(Next(maxBuffer, s, e))
  {
  }

  // ------------------------------------------------------ the objects

  class WebSocket {
    var isOpen: bool
    var sent: seq<nat>

    constructor ()
      ensures !isOpen && sent == []
    {
      isOpen, sent := false, [];
    }
  }

  /** `{ buffered, droppedFrames }`, created by the owner and shared by its streams. */
  class AudioBuffer {
    var buffered: seq<nat>
    var droppedFrames: nat
  }

  class TranscriberStream {
    const ws: WebSocket
    const state: AudioBuffer
    const maxBuffer: nat
    var ready: bool

    constructor (socket: WebSocket, shared: AudioBuffer, limit: nat)
      ensures ws == socket && state == shared && maxBuffer == limit && !ready
    {
      ws, state, maxBuffer, ready := socket, shared, limit, false;
    }

    /** `_sendAudio`; `s` is a state of the model with this stream as the latest one. */
    method SendAudio(frame: nat, ghost s: State)
      requires maxBuffer >= 1 && s.sockets != [] && Current(s) == Socket(ws.isOpen, ready)
      requires s.buffered == state.buffered && s.droppedFrames == state.droppedFrames && frame == s.produced
      modifies ws`sent, state
      ensures state.buffered == AfterFrame(maxBuffer, s).buffered &&
        state.droppedFrames == AfterFrame(maxBuffer, s).droppedFrames
      ensures old(ws.sent) <= ws.sent && s.sent + ws.sent[|old(ws.sent)|..] == AfterFrame(maxBuffer, s).sent
    {
      if ready {
        if ws.isOpen { ws.sent := ws.sent + [frame]; }
        return;
      }
      if |state.buffered| >= maxBuffer {
        state.buffered := state.buffered[1..];
        state.droppedFrames := state.droppedFrames + 1;
      }
      state.buffered := state.buffered + [frame];
    }

    /** The `ack` message: ready, then `_flush`. */
    method OnAck()
      modifies this, ws`sent, state
      ensures ready && state.buffered == [] && state.droppedFrames == old(state.droppedFrames)
      ensures ws.sent == old(ws.sent) + (if ws.isOpen then old(state.buffered) else [])
    {
      ready := true;
      var n := 0;
      assert old(ws.sent) + [] == old(ws.sent);
      while n < |state.buffered|
        invariant n <= |state.buffered|
        invariant ws.sent == old(ws.sent) + (if ws.isOpen then state.buffered[..n] else [])
        modifies ws`sent
      {
        if ws.isOpen { ws.sent := ws.sent + [state.buffered[n]]; }
        n := n + 1;
      }
      assert state.buffered[..n] == state.buffered;
      state.buffered := [];
    }

    method OnClose()
      modifies this
      ensures !ready
    {
      ready := false;
    }
  }

  /** The part of a bot record that a swap changes. */
  class BotRecord {
    const audioBuffer: AudioBuffer
    var stream: TranscriberStream?

    constructor ()
      ensures fresh(audioBuffer) && audioBuffer.buffered == [] && audioBuffer.droppedFrames == 0 && stream == null
    {
      audioBuffer := new AudioBuffer;
      stream := null;
      new;
      audioBuffer.buffered, audioBuffer.droppedFrames := [], 0;
    }

    /** `_openSocket`: a fresh stream over a fresh socket takes over the same
        buffer, with its frames untouched. */
    method OpenSocket(maxBuffer: nat)
      modifies this
      ensures stream != null && fresh(stream) && fresh(stream.ws) && !stream.ready && stream.maxBuffer == maxBuffer
      ensures stream.state == audioBuffer && audioBuffer.buffered == old(audioBuffer.buffered)
    {
      var ws := new WebSocket();
      stream := new TranscriberStream(ws, audioBuffer, maxBuffer);
    }
  }
}
