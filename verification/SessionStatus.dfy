/** Scheduler/components/BrokerClient/index.js and the pause, resume and stop
    routes of Session-API: the status of one session and the streams of its
    channels, under READ COMMITTED.

    A transaction is a sequence of events that stage writes: other transactions
    see them at its commit only. `SELECT ... FOR UPDATE` and every UPDATE of the
    session row wait until no other transaction holds that row. A single-statement
    UPDATE of channels commits at once, on any of the rows its condition matched
    that no open transaction has written. Times are opaque. */
module SessionStatus {
  import opened Options

  datatype Status = OnSchedule | Ready | Active | Paused | Terminated

  datatype Session = Session(status: Status, startTime: Option<int>, endTime: Option<int>, pausedAt: Option<int>)

  datatype Channel = Channel(active: bool, owner: Option<string>)

  type Channels = map<nat, Channel>

  datatype Kind =
    | Update(transcriber: string, channel: nat, activate: bool)   // updateSession
    | Recount                                                     // unregisterTranscriber, per session
    | Heal                                                        // reconcileStuckSessions, per session
    | AutoEnd
    | BotEnd                                                      // endBotSession

  datatype Stage = Begun | Locked | Written | Decided

  /** An open transaction with its staged writes. */
  datatype Txn = Txn(kind: Kind, stage: Stage, rows: Channels, session: Option<Session>)

  datatype State = State(
    session: Session,             // committed
    channels: Channels,           // committed
    txns: map<nat, Txn>,
    lock: Option<nat>,            // the transaction holding the session row
    resets: nat,                  // resetSessions calls between their two statements
    stopping: bool,               // some /stop request has run its session statement
    lapsed: bool,                 // history: see Stuck
    overrun: bool)                // history: see Stray

  datatype Event =
    | Begin(id: nat, kind: Kind)
    | Unregister(id: nat, transcriber: string, swept: set<nat>)
    | Lock(id: nat)
    | Write(id: nat)
    | Decide(id: nat, now: int)
    | Commit(id: nat)
    | Rollback(id: nat)
    | AutoStart
    | Pause(now: int)
    | Resume
    | Stop(now: int)
    | StopSweep(swept: set<nat>)
    | ResetChannels(swept: set<nat>)
    | ResetSession

  // ------------------------------------------------------ rows

  predicate AnyActive(channels: Channels) { exists c :: c in channels && channels[c].active }

  function Fresh(kind: Kind): Txn { Txn(kind, Begun, map[], None) }

  /** What a transaction reads: committed rows under its own writes. */
  function Reads(channels: Channels, t: Txn): Channels { channels + t.rows }

  predicate Dirty(s: State, c: nat) {
    s.lock.Some? && s.lock.value in s.txns && c in s.txns[s.lock.value].rows
  }

  predicate Sweepable(s: State, swept: set<nat>) {
    forall c :: c in swept ==> c in s.channels && !Dirty(s, c)
  }

  /** Channels deactivated by one statement; `disown` also clears their owner. */
  function Swept(channels: Channels, swept: set<nat>, disown: bool): Channels {
    map c | c in channels :: if c in swept then Channel(false, if disown then None else channels[c].owner)
      else channels[c]
  }

  /** The channel statement of `updateSession`: a deactivation only reaches a
      channel its transcriber still owns. */
  function ChannelWrite(channels: Channels, kind: Kind): Channels
    requires kind.Update?
  {
    if kind.channel !in channels then map[]
    else if kind.activate then map[kind.channel := Channel(true, Some(kind.transcriber))]
    else if channels[kind.channel].owner == Some(kind.transcriber) then map[kind.channel := Channel(false, None)]
    else map[]
  }

  /** The session statement of `updateSession`. */
  function Stamped(x: Session, anyActive: bool, now: int): Session {
    x.(status := if x.status.Paused? || x.status.Terminated? then x.status else if anyActive then Active else Ready,
       startTime := if anyActive && x.startTime.None? then Some(now) else x.startTime)
  }

  /** The decision of `unregisterTranscriber` under the row lock. */
  function Recounted(x: Session, anyActive: bool): Option<Session> {
    if !anyActive && (x.status.Active? || x.status.Paused?) then
      Some(x.(status := Ready, pausedAt := if x.status.Paused? then None else x.pausedAt)) else None
  }

  /** The decision of `reconcileStuckSessions` under the row lock. */
  function Healed(x: Session, anyActive: bool): Option<Session> {
    if !anyActive && x.status.Active? then Some(x.(status := Ready)) else None
  }

  function Ended(x: Session, now: int): Session { x.(status := Terminated, endTime := Some(now)) }

  // ------------------------------------------------------ transactions

  predicate Holds(s: State, id: nat) { id in s.txns && s.lock == Some(id) }

  predicate TxnEnabled(s: State, e: Event) {
    match e
    case Begin(id, kind) => id !in s.txns && !kind.Recount?
    case Unregister(id, transcriber, swept) =>
      id !in s.txns && Sweepable(s, swept) && forall c :: c in swept ==> s.channels[c].owner == Some(transcriber)
    case Lock(id) => id in s.txns && s.txns[id].stage.Begun? && s.lock.None?
    case Write(id) => Holds(s, id) &&
      (if s.txns[id].kind.Update? then s.txns[id].stage.Locked?
        else (s.txns[id].kind.AutoEnd? || s.txns[id].kind.BotEnd?) && s.txns[id].stage.Decided?)
    case Decide(id, _) => Holds(s, id) &&
      (if s.txns[id].kind.Update? then s.txns[id].stage.Written? else s.txns[id].stage.Locked?) &&
      (s.txns[id].kind.AutoEnd? ==> s.session.status.Ready? || s.session.status.Paused?)
    case Commit(id) => Holds(s, id) &&
      (if s.txns[id].kind.AutoEnd? || s.txns[id].kind.BotEnd? then s.txns[id].stage.Written?
        else s.txns[id].stage.Decided?)
    case Rollback(id) => id in s.txns
    case _ => false
  }

  function Staged(s: State, t: Txn): Txn {
    match t.kind
    case Update(_, _, _) => t.(stage := Written, rows := ChannelWrite(s.channels, t.kind))
    case _ => t.(stage := Written, rows := Swept(s.channels, s.channels.Keys, false))
  }

  function Decision(s: State, t: Txn, now: int): Option<Session> {
    match t.kind
    case Update(_, _, _) => Some(Stamped(s.session, AnyActive(Reads(s.channels, t)), now))
    case Recount => Recounted(s.session, AnyActive(s.channels))
    case Heal => Healed(s.session, AnyActive(s.channels))
    case _ => Some(Ended(s.session, now))
  }

  function Committed(s: State, id: nat): State
    requires id in s.txns
  {
    var t := s.txns[id];
    var session := if t.session.Some? then t.session.value else s.session;
    var channels := Reads(s.channels, t);
    s.(session := session, channels := channels, txns := s.txns - {id}, lock := None,
       lapsed := s.lapsed && (t.kind.Update? ==> session.status.Active? && !AnyActive(channels)),
       overrun := s.overrun && !t.kind.Update?)
  }

  function AfterTxn(s: State, e: Event): State
    requires TxnEnabled(s, e)
  {
    match e
    case Begin(id, kind) => s.(txns := s.txns[id := Fresh(kind)])
    case Unregister(id, _, swept) =>
      s.(channels := Swept(s.channels, swept, true), txns := s.txns[id := Fresh(Recount)])
    case Lock(id) => s.(lock := Some(id), txns := s.txns[id := s.txns[id].(stage := Locked)])
    case Write(id) => s.(txns := s.txns[id := Staged(s, s.txns[id])])
    case Decide(id, now) =>
      s.(txns := s.txns[id := s.txns[id].(stage := Decided, session := Decision(s, s.txns[id], now))])
    case Commit(id) => Committed(s, id)
    case Rollback(id) =>
      s.(txns := s.txns - {id}, lock := if s.lock == Some(id) then None else s.lock,
         lapsed := s.lapsed || s.txns[id].kind.Recount?)
    case _ => s
  }

  // ------------------------------------------------------ single statements

  predicate StatementEnabled(s: State, e: Event) {
    match e
    case AutoStart => s.lock.None? && s.session.status.OnSchedule?
    case Pause(_) => s.lock.None? && s.session.status.Active?
    case Resume => s.lock.None? && s.session.status.Paused?
    case Stop(_) => s.lock.None?
    case StopSweep(swept) => s.stopping && Sweepable(s, swept)
    case ResetChannels(swept) => Sweepable(s, swept)
    case ResetSession => s.resets > 0 && s.lock.None?
    case _ => false
  }

  function AfterStatement(s: State, e: Event): State
    requires StatementEnabled(s, e)
  {
    match e
    case AutoStart => s.(session := s.session.(status := Ready))
    case Pause(now) => s.(session := s.session.(status := Paused, pausedAt := Some(now)))
    case Resume =>
      s.(session := s.session.(status := Active, pausedAt := None), lapsed := s.lapsed || !AnyActive(s.channels))
    case Stop(now) => s.(session := Ended(s.session, now), stopping := true)
    case StopSweep(swept) => s.(channels := Swept(s.channels, swept, false))
    case ResetChannels(swept) => s.(channels := Swept(s.channels, swept, false), resets := s.resets + 1)
    case ResetSession =>
      s.(session := if s.session.status.Active? then s.session.(status := Ready) else s.session, resets := s.resets - 1,
         overrun := s.overrun || (s.session.status.Active? && AnyActive(s.channels)))
    case _ => s
  }

  predicate Enabled(s: State, e: Event) { TxnEnabled(s, e) || StatementEnabled(s, e) }

  function Next(s: State, e: Event): State
    requires Enabled(s, e)
  {
    if TxnEnabled(s, e) then AfterTxn(s, e) else AfterStatement(s, e)
  }

  /** A session as the API creates it. */
  predicate Initial(s: State) {
    && (s.session.status.OnSchedule? || s.session.status.Ready?)
    && s.session.startTime.None? && s.session.endTime.None? && s.session.pausedAt.None?
    && (forall c :: c in s.channels ==> !s.channels[c].active)
    && s.txns == map[] && s.lock.None? && s.resets == 0 && !s.stopping && !s.lapsed && !s.overrun
  }

  function Exec(s: State, es: seq<Event>): Option<State> {
    if es == [] then Some(s) else
    var before := Exec(s, es[..|es| - 1]);
    if before.Some? && Enabled(before.value, es[|es| - 1]) then Some(Next(before.value, es[|es| - 1])) else None
  }

  // ------------------------------------------------------ what every step keeps

  predicate SessionOk(x: Session) {
    && (x.endTime.Some? <==> x.status.Terminated?)
    && (x.pausedAt.Some? ==> x.status.Paused? || x.status.Terminated?)
    && (x.status.Paused? ==> x.pausedAt.Some?)
    && (x.status.Active? || x.status.Paused? ==> x.startTime.Some?)
  }

  /** `terminated` is absorbing and the start time is written once. */
  predicate Follows(x: Session, y: Session) {
    && (x.status.Terminated? ==> y.status.Terminated?)
    && (x.startTime.Some? ==> y.startTime == x.startTime)
    && (y.status.OnSchedule? ==> x.status.OnSchedule?)
  }

  predicate Owned(channels: Channels) { forall c :: c in channels && channels[c].active ==> channels[c].owner.Some? }

  /** Status active with no active channel: no updateSession result. */
  predicate Stuck(s: State) { s.session.status.Active? && !AnyActive(s.channels) }

  /** An active channel in a session that does not look it. */
  predicate Stray(s: State) { (s.session.status.OnSchedule? || s.session.status.Ready?) && AnyActive(s.channels) }

  /** A recount that has not counted yet. */
  predicate Owes(t: Txn) { t.kind.Recount? && (t.stage.Begun? || t.stage.Locked?) }

  ghost predicate Owed(s: State) { s.lapsed || s.resets > 0 || exists id :: id in s.txns && Owes(s.txns[id]) }

  /** The lock holder is a recount that decided to flip the session. */
  predicate Fixing(s: State) {
    s.lock.Some? && s.lock.value in s.txns && s.txns[s.lock.value].kind.Recount? && s.txns[s.lock.value].session.Some?
  }

  ghost predicate LocksOk(s: State) {
    && (s.lock.Some? ==> s.lock.value in s.txns && !s.txns[s.lock.value].stage.Begun?)
    && (forall id :: id in s.txns ==>
         if s.txns[id].stage.Begun? then s.txns[id] == Fresh(s.txns[id].kind) else s.lock == Some(id))
  }

  /** What the transaction holding the row has staged. */
  ghost predicate HolderOk(s: State, t: Txn) {
    && t.rows.Keys <= s.channels.Keys
    && Owned(t.rows)
    && (t.session.Some? ==> SessionOk(t.session.value) && Follows(s.session, t.session.value))
    && match t.kind
       case Update(transcriber, channel, activate) =>
         && (!t.stage.Locked? ==> t.rows == ChannelWrite(s.channels, t.kind))
         && (t.stage.Locked? ==> t.rows == map[])
         && (t.session.Some? <==> t.stage.Decided?)
         && (t.session.Some? && t.session.value.status.Ready? ==> !AnyActive(Reads(s.channels, t)))
         && (t.session.Some? && t.session.value.status.Active? ==> AnyActive(Reads(s.channels, t)) || Owed(s))
         && (t.session.Some? ==> !t.session.value.status.OnSchedule? && StampOk(s, t, t.session.value))
       case Recount =>
         && t.rows == map[]
         && (t.session.Some? ==> t.stage.Decided? && !AnyActive(s.channels) && DemotionOk(s, t.session.value))
         && (t.stage.Decided? && t.session.None? && (Stuck(s) || s.session.status.Paused?) ==>
              AnyActive(s.channels) || Owed(s))
       case Heal =>
         && t.rows == map[]
         && (t.session.Some? ==> !AnyActive(s.channels) && s.session.status.Active? && DemotionOk(s, t.session.value))
         && (t.stage.Decided? && t.session.None? && Stuck(s) ==> Owed(s))
       case _ =>
         && (t.stage.Locked? ==> t.rows == map[] && t.session.None?)
         && (!t.stage.Locked? ==> t.session.Some?)
         && (t.session.Some? ==>
              t.session.value == s.session.(status := Terminated, endTime := t.session.value.endTime))
         && (t.stage.Written? ==> AllDeactivated(s.channels, t.rows))
         && (t.kind.AutoEnd? && t.session.Some? ==> s.session.status.Ready? || s.session.status.Paused?)
  }

  /** What updateSession does to the session row. */
  ghost predicate StampOk(s: State, t: Txn, y: Session) {
    var x := s.session;
    && y.endTime == x.endTime && y.pausedAt == x.pausedAt
    && (if x.status.Paused? || x.status.Terminated? then y.status == x.status else y.status.Active? || y.status.Ready?)
    && (AnyActive(Reads(s.channels, t)) ==> y.startTime.Some?)
    && (y.startTime != x.startTime ==> AnyActive(Reads(s.channels, t)) || Owed(s) || s.stopping)
  }

  /** An active or paused session goes back to ready, its pause forgotten. */
  ghost predicate DemotionOk(s: State, y: Session) {
    && (s.session.status.Active? || s.session.status.Paused?)
    && y == s.session.(status := Ready, pausedAt := None)
  }

  /** The same channels with the same owners, none of them active. */
  ghost predicate AllDeactivated(channels: Channels, after: Channels) {
    && after.Keys == channels.Keys
    && forall c :: c in channels ==> !after[c].active && after[c].owner == channels[c].owner
  }

  ghost predicate RowsOk(s: State) {
    && SessionOk(s.session) && Owned(s.channels)
    && (s.stopping ==> s.session.status.Terminated?)
    && (Stray(s) ==> s.overrun)
    && (Stuck(s) ==> Owed(s) || Fixing(s))
  }

  ghost predicate Inv(s: State) {
    && RowsOk(s) && LocksOk(s)
    && (s.lock.Some? ==> HolderOk(s, s.txns[s.lock.value]))
  }

  lemma InitInv(s: State)
    requires Initial(s)
    ensures Inv(s)
  {
  }

  /** Sweeps only deactivate, and never rows an open transaction wrote. */
  lemma SweepDeactivates(s: State, swept: set<nat>, disown: bool)
    requires Sweepable(s, swept) && Owned(s.channels)
    ensures var after := Swept(s.channels, swept, disown);
            && after.Keys == s.channels.Keys && Owned(after)
            && (forall c :: c in s.channels && Dirty(s, c) ==> after[c] == s.channels[c])
            && (AnyActive(after) ==> AnyActive(s.channels))
            && forall t: Txn :: s.lock.Some? && s.lock.value in s.txns && t == s.txns[s.lock.value] ==>
                 (AnyActive(Reads(after, t)) ==> AnyActive(Reads(s.channels, t)))
  {
    var after := Swept(s.channels, swept, disown);
    if s.lock.Some? && s.lock.value in s.txns {
      var t := s.txns[s.lock.value];
      if AnyActive(Reads(after, t)) {
        var c :| c in Reads(after, t) && Reads(after, t)[c].active;
        assert c in Reads(s.channels, t) && Reads(s.channels, t)[c].active;
      }
    }
  }

  /** What the holder of the row has staged survives a sweep. */
  lemma SweepKeepsHolder(s: State, n: State, swept: set<nat>, disown: bool)
    requires Inv(s) && Sweepable(s, swept) && n.channels == Swept(s.channels, swept, disown) && n.session == s.session
    requires s.lock.Some? ==> s.lock.value in n.txns && n.txns[s.lock.value] == s.txns[s.lock.value]
    requires n.stopping == s.stopping && (Owed(n) || n.stopping)
    ensures s.lock.Some? ==> HolderOk(n, n.txns[s.lock.value])
  {
    hide Swept, Reads, AnyActive, ChannelWrite, SessionOk;
    if s.lock.Some? {
      var id := s.lock.value;
      assert HolderOk(s, s.txns[id]) && id in s.txns;
      SweepDeactivates(s, swept, disown);
      if s.txns[id].kind.Update? && !s.txns[id].stage.Locked? { SweepKeepsWrite(s, swept, disown, id); }
      if s.txns[id].rows.Keys == s.channels.Keys { NothingToSweep(s, swept, disown, id); }
    }
  }

  /** What an open updateSession has written is what it would write after a sweep. */
  lemma SweepKeepsWrite(s: State, swept: set<nat>, disown: bool, id: nat)
    requires Sweepable(s, swept) && s.lock == Some(id) && id in s.txns && s.txns[id].kind.Update?
    requires s.txns[id].rows == ChannelWrite(s.channels, s.txns[id].kind)
    ensures ChannelWrite(Swept(s.channels, swept, disown), s.txns[id].kind) == s.txns[id].rows
  {
    var kind := s.txns[id].kind;
    assert kind.channel in s.txns[id].rows ==> Dirty(s, kind.channel);
  }

  /** A transaction that has written every channel keeps the sweeps away. */
  lemma NothingToSweep(s: State, swept: set<nat>, disown: bool, id: nat)
    requires Sweepable(s, swept) && s.lock == Some(id) && id in s.txns && s.txns[id].rows.Keys == s.channels.Keys
    ensures Swept(s.channels, swept, disown) == s.channels
  {
    assert swept == {} by {
      if c :| c in swept { assert Dirty(s, c); }
    }
  }

  lemma StatementKeepsInv(s: State, e: Event)
    requires Inv(s) && StatementEnabled(s, e)
    ensures Inv(AfterStatement(s, e)) && Follows(s.session, AfterStatement(s, e).session)
  {
    hide Swept, Reads;
    if e.StopSweep? || e.ResetChannels? {
      SweepDeactivates(s, e.swept, false);
      SweepKeepsHolder(s, AfterStatement(s, e), e.swept, false);
    }
  }

  /** Opening or locking stages nothing. */
  lemma OpenKeepsInv(s: State, e: Event)
    requires Inv(s) && TxnEnabled(s, e) && (e.Begin? || e.Lock?)
    ensures Inv(AfterTxn(s, e))
  {
    hide Reads, Swept, AnyActive, SessionOk, Follows, ChannelWrite;
    if Owed(s) { OwedStays(s, AfterTxn(s, e), e.id); }
  }

  /** A recount stays owed while no recount leaves its first stages. */
  lemma OwedStays(s: State, n: State, id: nat)
    requires Owed(s) && (s.lapsed ==> n.lapsed) && s.resets == n.resets
    requires forall i :: i in s.txns && i != id ==> i in n.txns && n.txns[i] == s.txns[i]
    requires id in s.txns && Owes(s.txns[id]) ==> id in n.txns && Owes(n.txns[id])
    ensures Owed(n)
  {
    if !s.lapsed && s.resets == 0 {
      var i :| i in s.txns && Owes(s.txns[i]);
      assert i in n.txns && Owes(n.txns[i]);
    }
  }

  lemma WriteKeepsInv(s: State, e: Event)
    requires Inv(s) && TxnEnabled(s, e) && e.Write?
    ensures Inv(AfterTxn(s, e))
  {
    hide AnyActive;
    if Owed(s) { OwedStays(s, AfterTxn(s, e), e.id); }
  }

  lemma UpdateDecides(s: State, e: Event)
    requires Inv(s) && TxnEnabled(s, e) && e.Decide? && s.txns[e.id].kind.Update?
    ensures Inv(AfterTxn(s, e))
  {
    hide AnyActive, Owned, Stamped, SessionOk, Follows;
    var n := AfterTxn(s, e);
    assert HolderOk(s, s.txns[e.id]);
    if Owed(s) { OwedStays(s, n, e.id); }
    StampedOk(s.session, AnyActive(Reads(s.channels, s.txns[e.id])), e.now);
    assert HolderOk(n, n.txns[e.id]);
  }

  lemma StampedOk(x: Session, anyActive: bool, now: int)
    requires SessionOk(x)
    ensures var y := Stamped(x, anyActive, now);
            && SessionOk(y) && Follows(x, y) && !y.status.OnSchedule?
            && (y.status.Ready? ==> !anyActive) && (y.status.Active? ==> anyActive)
            && y.endTime == x.endTime && y.pausedAt == x.pausedAt
            && (if x.status.Paused? || x.status.Terminated? then y.status == x.status
                else y.status.Active? || y.status.Ready?)
            && (anyActive ==> y.startTime.Some?) && (y.startTime != x.startTime ==> anyActive)
  {
  }

  lemma DecisionOk(x: Session, anyActive: bool, now: int)
    requires SessionOk(x)
    ensures SessionOk(Ended(x, now)) && Follows(x, Ended(x, now))
    ensures Ended(x, now) == x.(status := Terminated, endTime := Ended(x, now).endTime)
    ensures Healed(x, anyActive).None? ==> x.status.Active? ==> anyActive
    ensures Healed(x, anyActive).Some? ==>
      !anyActive && x.status.Active? && Healed(x, anyActive).value == x.(status := Ready, pausedAt := None)
    ensures Healed(x, anyActive).Some? ==>
      SessionOk(Healed(x, anyActive).value) && Follows(x, Healed(x, anyActive).value)
    ensures Recounted(x, anyActive).Some? ==>
      SessionOk(Recounted(x, anyActive).value) && Follows(x, Recounted(x, anyActive).value)
  {
  }

  lemma RecountDecides(s: State, e: Event)
    requires Inv(s) && TxnEnabled(s, e) && e.Decide? && s.txns[e.id].kind.Recount?
    ensures Inv(AfterTxn(s, e))
  {
    hide AnyActive, Reads, Owned;
    assert HolderOk(s, s.txns[e.id]);
  }

  lemma OthersDecide(s: State, e: Event)
    requires Inv(s) && TxnEnabled(s, e) && e.Decide? && !s.txns[e.id].kind.Update? && !s.txns[e.id].kind.Recount?
    ensures Inv(AfterTxn(s, e))
  {
    hide AnyActive, Reads, Owned, Swept, ChannelWrite, SessionOk, Follows;
    assert HolderOk(s, s.txns[e.id]);
    DecisionOk(s.session, AnyActive(s.channels), e.now);
    if Owed(s) { OwedStays(s, AfterTxn(s, e), e.id); }
  }

  lemma CommitKeepsInv(s: State, e: Event)
    requires Inv(s) && TxnEnabled(s, e) && e.Commit?
    ensures Inv(AfterTxn(s, e)) && Follows(s.session, AfterTxn(s, e).session)
  {
    hide AnyActive;
    var n := AfterTxn(s, e);
    assert HolderOk(s, s.txns[e.id]);
    assert s.txns[e.id].rows == map[] ==> Reads(s.channels, s.txns[e.id]) == s.channels;
    if Owed(s) && n.lapsed == s.lapsed { OwedStays(s, n, e.id); }
  }

  /** What a transaction has staged does not depend on the other transactions. */
  lemma HolderStays(s: State, n: State, t: Txn)
    requires HolderOk(s, t) && n.session == s.session && n.channels == s.channels && n.stopping == s.stopping
    requires Owed(s) ==> Owed(n)
    ensures HolderOk(n, t)
  {
    hide AnyActive, Reads, SessionOk, Follows, Owned, ChannelWrite, Owed;
  }

  lemma RollbackKeepsInv(s: State, e: Event)
    requires Inv(s) && TxnEnabled(s, e) && e.Rollback?
    ensures Inv(AfterTxn(s, e))
  {
    hide AnyActive, SessionOk, Owned, HolderOk;
    var n := AfterTxn(s, e);
    if Owed(s) && !s.txns[e.id].kind.Recount? { OwedStays(s, n, e.id); }
    if n.lock.Some? { HolderStays(s, n, n.txns[n.lock.value]); }
  }

  lemma TxnKeepsInv(s: State, e: Event)
    requires Inv(s) && TxnEnabled(s, e)
    ensures Inv(AfterTxn(s, e)) && Follows(s.session, AfterTxn(s, e).session)
  {
    hide Inv, LocksOk, RowsOk, HolderOk, Owed;
    match e
    case Unregister(_, _, _) => UnregisterKeepsInv(s, e);
    case Write(_) => WriteKeepsInv(s, e);
    case Decide(id, _) =>
      if s.txns[id].kind.Update? {
        UpdateDecides(s, e);
      } else if s.txns[id].kind.Recount? {
        RecountDecides(s, e);
      } else {
        OthersDecide(s, e);
      }
    case Commit(_) => CommitKeepsInv(s, e);
    case Rollback(_) => RollbackKeepsInv(s, e);
    case _ => OpenKeepsInv(s, e);
  }

  lemma UnregisterKeepsInv(s: State, e: Event)
    requires Inv(s) && TxnEnabled(s, e) && e.Unregister?
    ensures Inv(AfterTxn(s, e))
  {
    hide Swept, Reads, AnyActive;
    SweepDeactivates(s, e.swept, true);
    assert Owes(AfterTxn(s, e).txns[e.id]);
    SweepKeepsHolder(s, AfterTxn(s, e), e.swept, true);
  }

  // ------------------------------------------------------ the theorems

  lemma NextKeepsInv(s: State, e: Event)
    requires Inv(s) && Enabled(s, e)
    ensures Inv(Next(s, e)) && Follows(s.session, Next(s, e).session)
  {
    hide Inv, TxnEnabled, StatementEnabled, Follows;
    if TxnEnabled(s, e) { TxnKeepsInv(s, e); } else { StatementKeepsInv(s, e); }
  }

  lemma {:induction false} ExecInv(s: State, es: seq<Event>)
    requires Initial(s)
    ensures Exec(s, es).Some? ==> Inv(Exec(s, es).value)
  {
    hide Inv, Enabled, Next;
    if es == [] {
      InitInv(s);
    } else {
      ExecInv(s, es[..|es| - 1]);
      var before := Exec(s, es[..|es| - 1]);
      if before.Some? && Enabled(before.value, es[|es| - 1]) { NextKeepsInv(before.value, es[|es| - 1]); }
    }
  }

  /** Over every run: `terminated` is absorbing and the start time is written once. */
  lemma {:induction false} RunFollows(s: State, es: seq<Event>, n: nat)
    requires Initial(s) && n <= |es| && Exec(s, es).Some?
    ensures Exec(s, es[..n]).Some? && Follows(Exec(s, es[..n]).value.session, Exec(s, es).value.session)
    decreases |es|
  {
    hide Inv, Enabled, Next;
    if n == |es| {
      assert es[..n] == es;
    } else {
      var before := Exec(s, es[..|es| - 1]);
      RunFollows(s, es[..|es| - 1], n);
      assert es[..|es| - 1][..n] == es[..n];
      ExecInv(s, es[..|es| - 1]);
      NextKeepsInv(before.value, es[|es| - 1]);
    }
  }

  /** In every reachable state: the end time is set exactly when terminated, a
      pause time only when paused or terminated, an active channel has an owner,
      and its session is active, paused or terminated unless a startup reset
      overran an activation. */
  lemma ReachableRows(s: State, es: seq<Event>)
    requires Initial(s) && Exec(s, es).Some?
    ensures var n := Exec(s, es).value;
            && (n.session.endTime.Some? <==> n.session.status.Terminated?)
            && (n.session.pausedAt.Some? ==> n.session.status.Paused? || n.session.status.Terminated?)
            && (n.session.status.Paused? ==> n.session.pausedAt.Some?)
            && (n.session.status.Active? || n.session.status.Paused? ==> n.session.startTime.Some?)
            && (forall c :: c in n.channels && n.channels[c].active ==> n.channels[c].owner.Some?)
            && (AnyActive(n.channels) && !n.overrun ==>
                 n.session.status.Active? || n.session.status.Paused? || n.session.status.Terminated?)
  {
    hide Exec, LocksOk, HolderOk, AnyActive;
    ExecInv(s, es);
  }

  /** The status says whether a channel is active. */
  predicate Agrees(s: State) {
    s.session.status.Paused? || s.session.status.Terminated? ||
    if AnyActive(s.channels) then s.session.status.Active?
    else (s.session.status.Ready? || s.session.status.OnSchedule?)
  }

  predicate RecountPending(s: State) { exists id :: id in s.txns && s.txns[id].kind.Recount? }

  /** When nobody holds the session row, status and channels agree, up to the
      recounts and resets still to come and the two lapses recorded in history. */
  lemma FreeRowAgrees(s: State, es: seq<Event>)
    requires Initial(s) && Exec(s, es).Some?
    ensures var n := Exec(s, es).value;
            n.lock.None? && !RecountPending(n) && n.resets == 0 && !n.lapsed && !n.overrun ==> Agrees(n)
  {
    hide Exec, LocksOk, HolderOk, AnyActive;
    ExecInv(s, es);
  }

  /** A lapse is a resume with no active channel or a failed recount; an overrun
      is a reset that demotes a session while one of its channels is active. */
  lemma LapsesHaveCauses(s: State, e: Event)
    requires Enabled(s, e)
    ensures Next(s, e).lapsed && !s.lapsed ==>
      (e.Resume? && !AnyActive(s.channels)) || (e.Rollback? && s.txns[e.id].kind.Recount?)
    ensures Next(s, e).overrun && !s.overrun ==> e.ResetSession? && s.session.status.Active? && AnyActive(s.channels)
  {
    hide AnyActive, Reads, Swept, Decision, Staged;
  }

  /** The events of updateSession, autoStart, autoEnd, endBotSession, the
      reconciler, pause and stop. */
  predicate Regular(e: Event) { !e.Unregister? && !e.Resume? && !e.ResetChannels? }

  /** With regular events only, in any interleaving, whenever no transaction
      holds the session row a session neither paused nor terminated is active
      exactly when some committed channel is. */
  lemma RegularRunsAgree(s: State, es: seq<Event>)
    requires Initial(s) && Exec(s, es).Some? && forall i :: 0 <= i < |es| ==> Regular(es[i])
    ensures Exec(s, es).value.lock.None? ==> Agrees(Exec(s, es).value)
  {
    hide Exec, LocksOk, HolderOk, AnyActive;
    ExecInv(s, es);
    RegularRunsRaiseNothing(s, es);
  }

  ghost predicate Untroubled(s: State) {
    !s.lapsed && !s.overrun && s.resets == 0 && forall id :: id in s.txns ==> !s.txns[id].kind.Recount?
  }

  lemma RegularStep(s: State, e: Event)
    requires Untroubled(s) && Enabled(s, e) && Regular(e)
    ensures Untroubled(Next(s, e))
  {
    hide AnyActive, Reads, Swept, Decision, ChannelWrite;
  }

  lemma {:induction false} RegularRunsRaiseNothing(s: State, es: seq<Event>)
    requires Initial(s) && Exec(s, es).Some? && forall i :: 0 <= i < |es| ==> Regular(es[i])
    ensures Untroubled(Exec(s, es).value)
  {
    hide Untroubled, Enabled, Next, Initial;
    if es == [] {
      InitialUntroubled(s);
    } else {
      RegularRunsRaiseNothing(s, es[..|es| - 1]);
      RegularStep(Exec(s, es[..|es| - 1]).value, es[|es| - 1]);
    }
  }

  lemma InitialUntroubled(s: State)
    requires Initial(s)
    ensures Untroubled(s)
  {
  }

  /** Committing an updateSession transaction settles the session: a stray
      channel or a lapse is over, the last deactivation has flipped it to ready,
      unless a sweep since the count owes a recount. */
  lemma CommittedUpdateSettles(s: State, e: Event)
    requires Inv(s) && Enabled(s, e) && e.Commit? && s.txns[e.id].kind.Update?
    ensures var n := Next(s, e);
            && !Stray(n) && !n.overrun
            && (Agrees(n) || Owed(n))
            && (!AnyActive(n.channels) && !n.session.status.Paused? && !n.session.status.Terminated? ==>
                 n.session.status.Ready? || Owed(n))
  {
    hide AnyActive;
    CommitKeepsInv(s, e);
  }

  /** At its commit an updateSession transaction changes exactly its own channel:
      an activation takes it over; a deactivation frees it if its transcriber
      still owns it, so a stale one never touches a channel another has taken. */
  lemma UpdateTouchesOwnChannel(s: State, e: Event, c: nat)
    requires Inv(s) && Enabled(s, e) && e.Commit? && s.txns[e.id].kind.Update? && c in s.channels
    ensures var t := s.txns[e.id].kind;
            && c in Next(s, e).channels
            && Next(s, e).channels[c] ==
                 if c == t.channel && t.activate then Channel(true, Some(t.transcriber))
                 else if c == t.channel && s.channels[c].owner == Some(t.transcriber) then Channel(false, None)
                 else s.channels[c]
  {
    hide AnyActive;
    assert HolderOk(s, s.txns[e.id]);
  }

  /** Ending a session ends its streams: in every run, whatever is going on
      meanwhile, the commit of autoEnd or endBotSession leaves the session
      terminated with an end time and the rest of its row as it was, and every
      channel inactive, with the owner it had. autoEnd never ends an active session. */
  lemma EndingDeactivates(s: State, es: seq<Event>, e: Event)
    requires Initial(s) && Exec(s, es).Some? && Enabled(Exec(s, es).value, e) && e.Commit?
    requires Exec(s, es).value.txns[e.id].kind.AutoEnd? || Exec(s, es).value.txns[e.id].kind.BotEnd?
    ensures var m := Exec(s, es).value;
            var n := Next(m, e);
            && n.session == m.session.(status := Terminated, endTime := n.session.endTime) && n.session.endTime.Some?
            && n.channels.Keys == m.channels.Keys
            && (forall c :: c in n.channels ==> !n.channels[c].active && n.channels[c].owner == m.channels[c].owner)
            && !AnyActive(n.channels)
            && (m.txns[e.id].kind.AutoEnd? ==> m.session.status.Ready? || m.session.status.Paused?)
  {
    hide Exec;
    ExecInv(s, es);
    EndCommits(Exec(s, es).value, e);
  }

  lemma EndCommits(s: State, e: Event)
    requires Inv(s) && Enabled(s, e) && e.Commit?
    requires s.txns[e.id].kind.AutoEnd? || s.txns[e.id].kind.BotEnd?
    ensures Next(s, e).session == s.session.(status := Terminated, endTime := Next(s, e).session.endTime)
    ensures Next(s, e).session.endTime.Some?
    ensures AllDeactivated(s.channels, Next(s, e).channels) && !AnyActive(Next(s, e).channels)
    ensures s.txns[e.id].kind.AutoEnd? ==> s.session.status.Ready? || s.session.status.Paused?
  {
    assert HolderOk(s, s.txns[e.id]);
    var n := Next(s, e);
    assert forall c :: c in s.channels ==> n.channels[c] == s.txns[e.id].rows[c];
    assert forall c :: c in n.channels ==> !n.channels[c].active;
  }

  /** A recount settles the session too: it changes no channel, and either puts an
      active or paused session without active channel back to ready, its pause
      forgotten, or leaves the row as it was; after it an active or paused session
      has an active channel, unless a sweep since the count owes another recount.
      The reconciler does the same for active sessions only. */
  lemma CommittedRecountSettles(s: State, e: Event)
    requires Inv(s) && Enabled(s, e) && e.Commit? && (s.txns[e.id].kind.Recount? || s.txns[e.id].kind.Heal?)
    ensures var n, recount := Next(s, e), s.txns[e.id].kind.Recount?;
            && n.channels == s.channels
            && (n.session != s.session ==>
                 && n.session == s.session.(status := Ready, pausedAt := None) && !AnyActive(n.channels)
                 && (s.session.status.Active? || (recount && s.session.status.Paused?)))
            && (n.session.status.Active? || (recount && n.session.status.Paused?) ==> AnyActive(n.channels) || Owed(n))
  {
    hide AnyActive;
    assert HolderOk(s, s.txns[e.id]);
    assert s.txns[e.id].rows == map[] ==> Reads(s.channels, s.txns[e.id]) == s.channels;
    if Owed(s) { OwedStays(s, Next(s, e), e.id); }
  }

  /** An updateSession commit moves a session between ready and active only, leaves a
      paused or terminated one alone, and stamps the start time with the first
      active channel. */
  lemma CommittedUpdateStamps(s: State, e: Event)
    requires Inv(s) && Enabled(s, e) && e.Commit? && s.txns[e.id].kind.Update?
    ensures var n := Next(s, e);
            && n.session.endTime == s.session.endTime && n.session.pausedAt == s.session.pausedAt
            && (if s.session.status.Paused? || s.session.status.Terminated? then n.session.status == s.session.status
                else n.session.status.Active? || n.session.status.Ready?)
            && (AnyActive(n.channels) ==> n.session.startTime.Some?)
            && (s.session.startTime.Some? ==> n.session.startTime == s.session.startTime)
            && (n.session.startTime != s.session.startTime ==> AnyActive(n.channels) || Owed(s) || n.stopping)
  {
    hide AnyActive;
    assert HolderOk(s, s.txns[e.id]);
  }

  /** The single statements of the routes: each moves the session from one status
      to one other, stamps what belongs to it, and leaves the channels and the
      start time alone; the session statement of the reset demotes active ones only. */
  lemma StatementsMoveOn(s: State, e: Event)
    requires Enabled(s, e) && (e.AutoStart? || e.Pause? || e.Resume? || e.Stop? || e.ResetSession?)
    ensures var x, n := s.session, Next(s, e);
            && n.channels == s.channels && n.session.startTime == x.startTime
            && (e.AutoStart? ==> x.status.OnSchedule? && n.session.status.Ready?)
            && (e.Pause? ==> x.status.Active? && n.session.status.Paused? && n.session.pausedAt == Some(e.now))
            && (e.Resume? ==> x.status.Paused? && n.session.status.Active? && n.session.pausedAt.None?)
            && (e.Stop? ==> n.session.status.Terminated? && n.session.endTime == Some(e.now))
            && (e.ResetSession? ==> n.session.status == if x.status.Active? then Ready else x.status)
  {
  }

  /** A sweep deactivates just the channels it matched; only the loss of a
      transcriber disowns them. */
  lemma SweepTouches(s: State, e: Event, c: nat)
    requires Enabled(s, e) && (e.Unregister? || e.StopSweep? || e.ResetChannels?) && c in s.channels
    ensures var n := Next(s, e);
            && n.session == s.session && n.channels.Keys == s.channels.Keys
            && n.channels[c].active == (s.channels[c].active && c !in e.swept)
            && n.channels[c].owner == if e.Unregister? && c in e.swept then None else s.channels[c].owner
  {
  }

  // ------------------------------------------------------ where it would fail

  /** The session statement of the startup reset keeps active channels in an
      active, paused or terminated session exactly when it demotes no session
      with an active channel. */
  lemma ResetKeepsStatus(s: State)
    requires Enabled(s, ResetSession) && !Stray(s)
    ensures !Stray(Next(s, ResetSession)) <==> !(s.session.status.Active? && AnyActive(s.channels))
  {
  }

  /** Resuming agrees with the channels exactly when one of them is active. */
  lemma ResumeAgrees(s: State)
    requires Enabled(s, Resume)
    ensures Agrees(Next(s, Resume)) <==> AnyActive(s.channels)
  {
  }

  // ------------------------------------------------------ an unobstructed request

  /** The events of one updateSession call that nothing interrupts. */
  function UpdateEvents(id: nat, kind: Kind, now: int): seq<Event> {
    [Begin(id, kind)] + [Lock(id)] + [Write(id)] + [Decide(id, now)] + [Commit(id)]
  }

  function Updated(s: State, kind: Kind, now: int): State
    requires kind.Update?
  {
    var channels := s.channels + ChannelWrite(s.channels, kind);
    var session := Stamped(s.session, AnyActive(channels), now);
    s.(session := session, channels := channels, overrun := false,
       lapsed := s.lapsed && session.status.Active? && !AnyActive(channels))
  }

  lemma Then(s: State, es: seq<Event>, before: State, e: Event)
    requires Exec(s, es) == Some(before) && Enabled(before, e)
    ensures Exec(s, es + [e]) == Some(Next(before, e))
  {
    hide Enabled, Next;
    assert (es + [e])[..|es|] == es;
  }

  function Opened(s: State, id: nat, kind: Kind): State {
    s.(lock := Some(id), txns := s.txns[id := Txn(kind, Locked, map[], None)])
  }

  lemma UpdateOpens(s: State, es: seq<Event>, before: State, id: nat, kind: Kind)
    requires Exec(s, es) == Some(before) && before.lock.None? && id !in before.txns && kind.Update?
    ensures Exec(s, es + [Begin(id, kind)] + [Lock(id)]) == Some(Opened(before, id, kind))
  {
    hide Exec, StatementEnabled, AfterStatement;
    var t := Next(before, Begin(id, kind));
    Then(s, es, before, Begin(id, kind));
    Then(s, es + [Begin(id, kind)], t, Lock(id));
    assert Next(t, Lock(id)).txns == Opened(before, id, kind).txns;
  }

  lemma UpdateCloses(s: State, es: seq<Event>, before: State, id: nat, kind: Kind, now: int)
    requires Exec(s, es) == Some(Opened(before, id, kind)) && before.lock.None? && id !in before.txns && kind.Update?
    ensures Exec(s, es + [Write(id)] + [Decide(id, now)] + [Commit(id)]) == Some(Updated(before, kind, now))
  {
    hide Exec, AnyActive, ChannelWrite, Stamped, StatementEnabled, AfterStatement;
    var t3 := Next(Opened(before, id, kind), Write(id));
    Then(s, es, Opened(before, id, kind), Write(id));
    var t4 := Next(t3, Decide(id, now));
    Then(s, es + [Write(id)], t3, Decide(id, now));
    Then(s, es + [Write(id)] + [Decide(id, now)], t4, Commit(id));
    assert Next(t4, Commit(id)).txns == before.txns;
  }

  /** Such a call can run whenever the session row is free, and does what `Updated` says. */
  lemma UpdateRuns(s: State, es: seq<Event>, before: State, id: nat, kind: Kind, now: int)
    requires Exec(s, es) == Some(before) && before.lock.None? && id !in before.txns && kind.Update?
    ensures Exec(s, es + UpdateEvents(id, kind, now)) == Some(Updated(before, kind, now))
  {
    hide Exec, Updated, Opened;
    UpdateOpens(s, es, before, id, kind);
    UpdateCloses(s, es + [Begin(id, kind)] + [Lock(id)], before, id, kind, now);
    assert es + [Begin(id, kind)] + [Lock(id)] + [Write(id)] + [Decide(id, now)] + [Commit(id)] ==
      es + UpdateEvents(id, kind, now);
  }

  const Off := map[1 := Channel(false, None)]
  const On := map[1 := Channel(true, Some("t"))]
  const Start := Update("t", 1, true)
  const Idle := State(Session(Ready, None, None, None), Off, map[], None, 0, false, false, false)
  const Streaming := Idle.(session := Session(Active, Some(7), None, None), channels := On)
  const Between := Streaming.(channels := map[1 := Channel(false, Some("t"))], resets := 1)

  lemma StartStreams()
    ensures Updated(Idle, Start, 7) == Streaming
    ensures Updated(Between, Start, 7) == Streaming.(resets := 1)
    ensures AnyActive(On)
  {
    assert On[1].active;
    assert Idle.channels + ChannelWrite(Idle.channels, Start) == On;
    assert Between.channels + ChannelWrite(Between.channels, Start) == On;
  }

  lemma NoEvents(s: State)
    ensures Exec(s, []) == Some(s)
  {
  }

  /** One reachable run in which the reset leaves a ready session with an active
      channel: a stream starts between the two statements of the reset. */
  lemma ResetOverrunsActivation()
    ensures exists s: State, es: seq<Event> :: Initial(s) && Exec(s, es).Some? && Stray(Exec(s, es).value)
  {
    hide Exec, Updated, UpdateEvents, AnyActive, TxnEnabled;
    StartStreams();
    NoEvents(Idle);
    UpdateRuns(Idle, [], Idle, 1, Start, 7);
    var es1 := [] + UpdateEvents(1, Start, 7);
    ResetBetween();
    Then(Idle, es1, Streaming, ResetChannels({1}));
    var es2 := es1 + [ResetChannels({1})];
    UpdateRuns(Idle, es2, Between, 1, Start, 7);
    var es3 := es2 + UpdateEvents(1, Start, 7);
    Then(Idle, es3, Streaming.(resets := 1), ResetSession);
    ResetLast();
    assert Initial(Idle) && Exec(Idle, es3 + [ResetSession]).Some?;
  }

  const Halt := Update("t", 1, false)
  const OnHold := Streaming.(session := Session(Paused, Some(7), None, Some(9)))
  const Halted := OnHold.(channels := Off)

  lemma HaltedWhilePaused()
    ensures Enabled(Streaming, Pause(9)) && Next(Streaming, Pause(9)) == OnHold
    ensures Updated(OnHold, Halt, 10) == Halted
    ensures Enabled(Halted, Resume) && Stuck(Next(Halted, Resume))
  {
    assert OnHold.channels + ChannelWrite(OnHold.channels, Halt) == Off;
  }

  /** One reachable run that resumes to active with no active channel: the stream
      ends while the session is paused. */
  lemma ResumeFindsNoStream()
    ensures exists s: State, es: seq<Event> :: Initial(s) && Exec(s, es).Some? && Stuck(Exec(s, es).value)
  {
    hide Exec, Updated, UpdateEvents, AnyActive, Enabled, Next, Stuck;
    StartStreams();
    HaltedWhilePaused();
    NoEvents(Idle);
    UpdateRuns(Idle, [], Idle, 1, Start, 7);
    var es1 := [] + UpdateEvents(1, Start, 7);
    Then(Idle, es1, Streaming, Pause(9));
    var es2 := es1 + [Pause(9)];
    UpdateRuns(Idle, es2, OnHold, 1, Halt, 10);
    var es3 := es2 + UpdateEvents(1, Halt, 10);
    Then(Idle, es3, Halted, Resume);
    IdleIsInitial();
    assert Exec(Idle, es3 + [Resume]).Some?;
  }

  lemma IdleIsInitial()
    ensures Initial(Idle)
  {
  }

  lemma ResetBetween()
    ensures Enabled(Streaming, ResetChannels({1})) && Next(Streaming, ResetChannels({1})) == Between
  {
  }

  lemma ResetLast()
    ensures Enabled(Streaming.(resets := 1), ResetSession) && Stray(Next(Streaming.(resets := 1), ResetSession))
  {
    StartStreams();
  }

  /** The rows of one session, as the requests change them when they meet no other. */
  class SessionRows {
    var status: Status
    var startTime: Option<int>
    var endTime: Option<int>
    var pausedAt: Option<int>
    var channels: Channels

    ghost function View(): Session reads this { Session(status, startTime, endTime, pausedAt) }

    method UpdateSession(transcriber: string, channel: nat, activate: bool, now: int)
      modifies this
      ensures channels == old(channels) + ChannelWrite(old(channels), Update(transcriber, channel, activate))
      ensures View() == Stamped(old(View()), AnyActive(channels), now)
    {
      if channel in channels && (activate || channels[channel].owner == Some(transcriber)) {
        channels := channels[channel := Channel(activate, if activate then Some(transcriber) else None)];
      }
      if !status.Paused? && !status.Terminated? { status := if AnyActive(channels) then Active else Ready; }
      if AnyActive(channels) && startTime.None? { startTime := Some(now); }
    }

    method UnregisterTranscriber(transcriber: string)
      modifies this
      ensures var mine := set c | c in old(channels) && old(channels)[c].owner == Some(transcriber);
              channels == Swept(old(channels), mine, true)
      ensures var decision := Recounted(old(View()), AnyActive(channels));
              View() == if decision.Some? then decision.value else old(View())
    {
      channels := Swept(channels, set c | c in channels && channels[c].owner == Some(transcriber), true);
      if status.Terminated? { return; }
      if !AnyActive(channels) && (status.Active? || status.Paused?) {
        if status.Paused? { pausedAt := None; }
        status := Ready;
      }
    }

    method PauseSession(now: int) returns (affected: bool)
      modifies this
      ensures channels == old(channels) && affected == old(status).Active?
      ensures View() == if affected then old(View()).(status := Paused, pausedAt := Some(now)) else old(View())
    {
      affected := status.Active?;
      if affected { status, pausedAt := Paused, Some(now); }
    }

    method ResumeSession() returns (affected: bool)
      modifies this
      ensures channels == old(channels) && affected == old(status).Paused?
      ensures View() == if affected then old(View()).(status := Active, pausedAt := None) else old(View())
    {
      affected := status.Paused?;
      if affected { status, pausedAt := Active, None; }
    }

    /** `/stop` without `waitFinal`; None stands for the 400 answer. */
    method StopSession(force: bool, now: int) returns (stopped: Option<Session>)
      modifies this
      ensures stopped.None? <==> (old(status).Active? || old(status).Paused?) && !force
      ensures stopped.None? ==> View() == old(View()) && channels == old(channels)
      ensures stopped.Some? ==>
        stopped.value == View() == Ended(old(View()), now) && channels.Keys == old(channels).Keys &&
        !AnyActive(channels)
    {
      if (status.Active? || status.Paused?) && !force { return None; }
      status, endTime := Terminated, Some(now);
      channels := Swept(channels, channels.Keys, false);
      return Some(Session(status, startTime, endTime, pausedAt));
    }
  }
}
