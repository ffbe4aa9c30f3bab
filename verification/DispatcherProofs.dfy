/** What holds of the server in every state of every run. */
module DispatcherProofs {
  import opened Sequences
  import opened TimeWaitSpec
  import opened DispatcherSpec

  // ---------- the invariant ----------

  predicate Ended(closed: seq<nat>, deleted: seq<nat>, session: nat) {
    session in closed || session in deleted
  }

  /** Every session ever created is live, closed or deleted, and only one of these, once. */
  ghost predicate Accounted(sessions: map<ConnectionId, nat>, closed: seq<nat>, deleted: seq<nat>, created: nat) {
    && NoDup(closed) && NoDup(deleted) && (forall s :: s in closed ==> s !in deleted)
    && (forall id :: id in sessions ==> sessions[id] < created && !Ended(closed, deleted, sessions[id]))
    && (forall id, x :: id in sessions && x in sessions && id != x ==> sessions[id] != sessions[x])
    && (forall s: nat :: Ended(closed, deleted, s) ==> s < created)
    && (forall s: nat :: s < created ==> s in sessions.Values || Ended(closed, deleted, s))
  }

  /** No id is both a session's and in time-wait. */
  ghost predicate Exclusive(sessions: map<ConnectionId, nat>, list: seq<Record>) {
    forall id :: id in sessions ==> !Has(list, id)
  }

  /** What every handler keeps at each of its steps. */
  ghost predicate Core(cfg: ServerConfig, w: World) {
    && cfg.timeWait.maxConnections != 0
    && TimeWaitSpec.Inv(cfg.timeWait, w.tw)
    && Exclusive(w.sessions, w.tw.list) && Accounted(w.sessions, w.closed, w.deleted, w.created)
    && (w.closed != [] ==> w.deleteAlarm.Some?) && (w.deleteAlarm.Some? ==> w.deleteAlarm.value <= w.tw.clock)
    && NoDup(w.queue)
    && (forall x :: x in w.queue && x.Connection? ==> x.session in w.sessions.Values)
    && w.generated == w.sent + w.pending
  }

  /** A response waiting for the socket has the time-wait manager queued for it. */
  ghost predicate Awaited(w: World) {
    w.pending != [] ==> TimeWaitManager in w.queue
  }

  /** What holds between handlers: no one is queued for a writable socket. */
  ghost predicate Inv(cfg: ServerConfig, w: World) {
    Core(cfg, w) && Awaited(w) && (w.queue != [] ==> w.blocked)
  }

  lemma CoreFacts(cfg: ServerConfig, w: World)
    requires Core(cfg, w)
    ensures NoDup(w.queue) && cfg.timeWait.maxConnections != 0
  {
  }

  // ---------- writing ----------

  lemma OnWriteBlockedKeeps(cfg: ServerConfig, w: World, x: Writer)
    requires Core(cfg, w) && (x.Connection? ==> x.session in w.sessions.Values)
    ensures Core(cfg, OnWriteBlocked(w, x)) && w.queue <= OnWriteBlocked(w, x).queue
  {
    if w.blocked && x !in w.queue {
      NoDupSnoc(w.queue, x);
    }
  }

  /** A writer is queued, once and last, exactly while the socket is blocked; nothing else changes. */
  lemma OnWriteBlockedLaw(w: World, x: Writer)
    ensures var u := OnWriteBlocked(w, x);
            && u == w.(queue := u.queue)
            && (!w.blocked || x in w.queue ==> u.queue == w.queue)
            && (w.blocked && x !in w.queue ==> u.queue == w.queue + [x])
            && (w.blocked ==> x in u.queue)
  {
  }

  lemma SendOrQueueKeeps(cfg: ServerConfig, w: World, socket: Socket, p: Response)
    requires Inv(cfg, w)
    ensures Inv(cfg, SendOrQueue(w, socket, p))
  {
    if w.blocked {
      OnWriteBlockedKeeps(cfg, w, TimeWaitManager);
    } else if socket(w.writes).Blocked? {
      OnWriteBlockedKeeps(cfg, w.(writes := w.writes + 1, blocked := true), TimeWaitManager);
    }
  }

  lemma {:induction false} DrainKeepsCore(cfg: ServerConfig, w: World, socket: Socket)
    requires Core(cfg, w)
    ensures Core(cfg, Drain(w, socket)) && Awaited(Drain(w, socket))
    decreases |w.pending|
  {
    if w.pending != [] {
      if w.blocked {
        OnWriteBlockedKeeps(cfg, w, TimeWaitManager);
      } else if socket(w.writes).Blocked? {
        OnWriteBlockedKeeps(cfg, w.(writes := w.writes + 1, blocked := true), TimeWaitManager);
      } else {
        var u := w.(writes := w.writes + 1, sent := w.sent + [w.pending[0]], wrote := w.wrote + [w.writes],
                  pending := w.pending[1..]);
        DrainKeepsCore(cfg, u, socket);
      }
    }
  }

  lemma {:induction false} DrainLeaves(w: World, socket: Socket)
    ensures Drain(w, socket).tw == w.tw && Drain(w, socket).generated == w.generated
    ensures Drain(w, socket).sessions == w.sessions && w.sent <= Drain(w, socket).sent
    decreases |w.pending|
  {
    if w.pending != [] && !w.blocked && !socket(w.writes).Blocked? {
      var u := w.(writes := w.writes + 1, sent := w.sent + [w.pending[0]], wrote := w.wrote + [w.writes],
                  pending := w.pending[1..]);
      DrainLeaves(u, socket);
    }
  }

  /** Sending what is pending: what was sent before and is sent or pending now is still what was generated. */
  lemma DrainKeeps(cfg: ServerConfig, w: World, socket: Socket)
    requires Core(cfg, w)
    ensures var u := Drain(w, socket);
            && Core(cfg, u) && Awaited(u) && w.sent <= u.sent && u.generated == w.generated
            && u.sent + u.pending == w.sent + w.pending
  {
    hide Drain;
    DrainKeepsCore(cfg, w, socket);
    DrainLeaves(w, socket);
  }

  // ---------- sessions ----------

  lemma CloseKeepsAccounts(sessions: map<ConnectionId, nat>, closed: seq<nat>, deleted: seq<nat>, created: nat,
                           id: ConnectionId)
    requires Accounted(sessions, closed, deleted, created) && id in sessions
    ensures Accounted(sessions - {id}, closed + [sessions[id]], deleted, created)
    ensures forall x :: x in sessions.Values && x != sessions[id] ==> x in (sessions - {id}).Values
  {
    var h, u := sessions[id], sessions - {id};
    NoDupSnoc(closed, h);
    assert forall s: nat :: Ended(closed + [h], deleted, s) <==> Ended(closed, deleted, s) || s == h;
    forall x | x in sessions.Values && x != h ensures x in u.Values {
      var i :| i in sessions && sessions[i] == x;
      assert i in u;
    }
  }

  lemma OpenKeepsAccounts(sessions: map<ConnectionId, nat>, closed: seq<nat>, deleted: seq<nat>, created: nat,
                          id: ConnectionId)
    requires Accounted(sessions, closed, deleted, created) && id !in sessions
    ensures Accounted(sessions[id := created], closed, deleted, created + 1)
    ensures forall x :: x in sessions.Values ==> x in sessions[id := created].Values
  {
    var u := sessions[id := created];
    assert u[id] == created;
    forall x | x in sessions.Values ensures x in u.Values {
      var i :| i in sessions && sessions[i] == x;
      assert i in u && u[i] == x;
    }
  }

  lemma DeleteKeepsAccounts(w: World)
    requires Accounted(w.sessions, w.closed, w.deleted, w.created)
    ensures Accounted(w.sessions, [], w.deleted + w.closed, w.created)
  {
    NoDupAppend(w.deleted, w.closed);
    assert forall s: nat :: Ended([], w.deleted + w.closed, s) <==> Ended(w.closed, w.deleted, s);
  }

  lemma CloseKeeps(cfg: ServerConfig, w: World, id: ConnectionId, version: Version, closePacket: Option<Bytes>)
    requires Core(cfg, w) && Awaited(w)
    ensures Core(cfg, CloseConnection(cfg, w, id, version, closePacket))
    ensures Awaited(CloseConnection(cfg, w, id, version, closePacket))
    ensures id !in CloseConnection(cfg, w, id, version, closePacket).sessions
    ensures id in w.sessions ==> Has(CloseConnection(cfg, w, id, version, closePacket).tw.list, id)
  {
    if id in w.sessions {
      var u := CloseConnection(cfg, w, id, version, closePacket);
      CloseKeepsAccounts(w.sessions, w.closed, w.deleted, w.created, id);
      WithoutKeeps(w.queue, Connection(w.sessions[id]));
      AddKeepsInv(cfg.timeWait, w.tw, id, version, closePacket, w.tw.clock);
      assert u.deleteAlarm.Some?;
    }
  }

  lemma PerformKeeps(cfg: ServerConfig, w: World, socket: Socket, act: Act)
    requires Core(cfg, w) && Awaited(w)
    ensures Core(cfg, Perform(cfg, w, socket, act)) && Awaited(Perform(cfg, w, socket, act))
  {
    match act {
      case Write =>
      case ReportBlocked(id) =>
        if id in w.sessions { OnWriteBlockedKeeps(cfg, w, Connection(w.sessions[id])); }
      case Close(id, version, closePacket) => CloseKeeps(cfg, w, id, version, closePacket);
    }
  }

  lemma {:induction false} PerformAllKeeps(cfg: ServerConfig, w: World, socket: Socket, acts: seq<Act>)
    requires Core(cfg, w) && Awaited(w)
    ensures Core(cfg, PerformAll(cfg, w, socket, acts)) && Awaited(PerformAll(cfg, w, socket, acts))
    decreases |acts|
  {
    if acts != [] {
      PerformKeeps(cfg, w, socket, acts[0]);
      PerformAllKeeps(cfg, Perform(cfg, w, socket, acts[0]), socket, acts[1..]);
    }
  }

  lemma {:induction false} PerformAllConcat(cfg: ServerConfig, w: World, socket: Socket, a: seq<Act>, b: seq<Act>)
    requires cfg.timeWait.maxConnections != 0
    ensures PerformAll(cfg, w, socket, a + b) == PerformAll(cfg, PerformAll(cfg, w, socket, a), socket, b)
    decreases |a|
  {
    if a == [] {
      assert a + b == b;
    } else {
      assert (a + b)[1..] == a[1..] + b;
      PerformAllConcat(cfg, Perform(cfg, w, socket, a[0]), socket, a[1..], b);
    }
  }

  // ---------- packets ----------

  /** Does the packet get to the time-wait manager? */
  ghost predicate Reaches(w: World, h: Header) {
    && !h.clientPortIsZero && h.id !in w.sessions && (Has(w.tw.list, h.id) || !h.hasVersion)
    && !h.reset && h.sequenceNumber.Some?
  }

  lemma HandOverKeeps(cfg: ServerConfig, w: World, socket: Socket, h: Header)
    requires Inv(cfg, w) && Has(w.tw.list, h.id)
    ensures Inv(cfg, HandOver(w, socket, h)) && Has(HandOver(w, socket, h).tw.list, h.id)
  {
    if !h.reset && h.sequenceNumber.Some? {
      var r := Get(w.tw.list, h.id);
      var u := w.(tw := Receive(w.tw, h.id));
      ReceiveKeepsInv(cfg.timeWait, w.tw, h.id);
      CountFacts(w.tw.list, h.id);
      assert Inv(cfg, u);
      var payload :=
        if r.closePacket.Some? then CloseCopy(r.closePacket.value) else PublicReset(h.sequenceNumber.value);
      SendOrQueueKeeps(cfg, u, socket, DispatcherSpec.Response(h.server, h.client, h.id, payload));
    }
  }

  /** An id that is no session's goes into time-wait. */
  lemma EnterKeeps(cfg: ServerConfig, w: World, id: ConnectionId, version: Version)
    requires Inv(cfg, w) && id !in w.sessions
    ensures Inv(cfg, w.(tw := AddId(cfg.timeWait, w.tw, id, version, None, w.tw.clock)))
  {
    AddKeepsInv(cfg.timeWait, w.tw, id, version, None, w.tw.clock);
  }

  /** A session is created for an id that is neither a session's nor in time-wait. */
  lemma OpenKeeps(cfg: ServerConfig, w: World, id: ConnectionId)
    requires Inv(cfg, w) && id !in w.sessions && !Has(w.tw.list, id)
    ensures Inv(cfg, w.(sessions := w.sessions[id := w.created], created := w.created + 1))
  {
    OpenKeepsAccounts(w.sessions, w.closed, w.deleted, w.created, id);
  }

  lemma {:induction false} PerformAllStaysBlocked(cfg: ServerConfig, w: World, socket: Socket, acts: seq<Act>)
    requires Inv(cfg, w)
    ensures Inv(cfg, PerformAll(cfg, w, socket, acts))
    decreases |acts|
  {
    if acts != [] {
      PerformKeeps(cfg, w, socket, acts[0]);
      PerformAllStaysBlocked(cfg, Perform(cfg, w, socket, acts[0]), socket, acts[1..]);
    }
  }

  lemma ProcessPacketKeeps(cfg: ServerConfig, w: World, socket: Socket, h: Header, accepted: bool, acts: seq<Act>)
    requires Inv(cfg, w)
    ensures Inv(cfg, ProcessPacket(cfg, w, socket, h, accepted, acts))
    ensures Reaches(w, h) ==> Has(ProcessPacket(cfg, w, socket, h, accepted, acts).tw.list, h.id)
  {
    if h.clientPortIsZero {
    } else if h.id in w.sessions {
      PerformAllStaysBlocked(cfg, w, socket, acts);
    } else if Has(w.tw.list, h.id) {
      HandOverKeeps(cfg, w, socket, h);
    } else if !h.reset && !h.hasVersion {
      EnterKeeps(cfg, w, h.id, cfg.highestVersion);
      AddHas(cfg.timeWait, w.tw, h.id, cfg.highestVersion, None, w.tw.clock);
      HandOverKeeps(cfg, w.(tw := AddId(cfg.timeWait, w.tw, h.id, cfg.highestVersion, None, w.tw.clock)), socket, h);
    } else if !h.reset && accepted {
      OpenKeeps(cfg, w, h.id);
      var u := w.(sessions := w.sessions[h.id := w.created], created := w.created + 1);
      PerformAllStaysBlocked(cfg, u, socket, acts);
    } else if !h.reset && h.versionSupported {
      EnterKeeps(cfg, w, h.id, h.version);
    }
  }

  // ---------- the socket becomes writable ----------

  lemma PopKeeps(cfg: ServerConfig, w: World)
    requires Core(cfg, w) && Awaited(w) && w.queue != []
    ensures var u := w.(queue := w.queue[1..], called := w.called + [w.queue[0]]);
            Core(cfg, u) && (w.queue[0].Connection? ==> Awaited(u))
  {
    assert w.queue == [w.queue[0]] + w.queue[1..];
    NoDupCons(w.queue[0], w.queue[1..]);
  }

  lemma ServeKeeps(cfg: ServerConfig, w: World, socket: Socket, acts: seq<Act>)
    requires Core(cfg, w) && Awaited(w) && w.queue != []
    ensures Core(cfg, Serve(cfg, w, socket, acts)) && Awaited(Serve(cfg, w, socket, acts))
  {
    var u := w.(queue := w.queue[1..], called := w.called + [w.queue[0]]);
    PopKeeps(cfg, w);
    if w.queue[0].TimeWaitManager? {
      DrainKeeps(cfg, u, socket);
    } else {
      PerformAllKeeps(cfg, u, socket, acts);
    }
  }

  lemma {:induction false} ServeAllKeeps(cfg: ServerConfig, w: World, socket: Socket, replies: nat -> seq<Act>, k: nat)
    requires Core(cfg, w) && Awaited(w)
    ensures Inv(cfg, ServeAll(cfg, w, socket, replies, k))
    decreases if w.blocked then 0 else 1 + |w.queue|
  {
    if w.queue != [] && !w.blocked {
      ServeKeeps(cfg, w, socket, replies(k));
      ServeAllKeeps(cfg, Serve(cfg, w, socket, replies(k)), socket, replies, k + 1);
    }
  }

  // ---------- whole runs ----------

  datatype Step =
    | Arrival(header: Header, accepted: bool, acts: seq<Act>, elapsed: nat)
    | Writable(replies: nat -> seq<Act>, elapsed: nat)
    | CleanUpAlarm(elapsed: nat)
    | DeleteAlarm(elapsed: nat)
    | ConnectionAlarm(acts: seq<Act>, elapsed: nat)

  ghost function Tick(w: World, elapsed: nat): World {
    w.(tw := w.tw.(clock := w.tw.clock + elapsed))
  }

  ghost function Advance(cfg: ServerConfig, socket: Socket, w: World, step: Step): World
    requires cfg.timeWait.maxConnections != 0
  {
    var u := Tick(w, step.elapsed);
    match step
    case Arrival(header, accepted, acts, _) => ProcessPacket(cfg, u, socket, header, accepted, acts)
    case Writable(replies, _) => OnCanWrite(cfg, u, socket, replies)
    case CleanUpAlarm(_) =>
      if u.tw.deadline <= u.tw.clock then u.(tw := CleanUp(cfg.timeWait, u.tw, u.tw.clock)) else u
    case DeleteAlarm(_) =>
      if u.deleteAlarm.Some? && u.deleteAlarm.value <= u.tw.clock then DeleteSessions(u).(deleteAlarm := None) else u
    case ConnectionAlarm(acts, _) => PerformAll(cfg, u, socket, acts)
  }

  ghost function Run(cfg: ServerConfig, socket: Socket, w: World, steps: seq<Step>): World
    requires cfg.timeWait.maxConnections != 0
    decreases |steps|
  {
    if steps == [] then w else Run(cfg, socket, Advance(cfg, socket, w, steps[0]), steps[1..])
  }

  ghost function Start(cfg: ServerConfig, now: int): World {
    World(false, 0, [], TimeWaitSpec.Initial(cfg.timeWait, now), [], map[], [], None, 0, [], [], [], [], [])
  }

  lemma StartIsGood(cfg: ServerConfig, now: int)
    requires cfg.timeWait.maxConnections != 0
    ensures Inv(cfg, Start(cfg, now))
  {
  }

  lemma AdvanceKeeps(cfg: ServerConfig, socket: Socket, w: World, step: Step)
    requires Inv(cfg, w)
    ensures Inv(cfg, Advance(cfg, socket, w, step))
  {
    var u := Tick(w, step.elapsed);
    assert Inv(cfg, u);
    match step {
      case Arrival(header, accepted, acts, _) => ProcessPacketKeeps(cfg, u, socket, header, accepted, acts);
      case Writable(replies, _) =>
        assert Core(cfg, u.(blocked := false));
        ServeAllKeeps(cfg, u.(blocked := false), socket, replies, 0);
      case CleanUpAlarm(_) =>
        if u.tw.deadline <= u.tw.clock { CleanUpKeepsInv(cfg.timeWait, u.tw, u.tw.clock); }
      case DeleteAlarm(_) => DeleteKeepsAccounts(u);
      case ConnectionAlarm(acts, _) => PerformAllStaysBlocked(cfg, u, socket, acts);
    }
  }

  lemma {:induction false} RunKeeps(cfg: ServerConfig, socket: Socket, w: World, steps: seq<Step>)
    requires Inv(cfg, w)
    ensures Inv(cfg, Run(cfg, socket, w, steps))
    decreases |steps|
  {
    if steps != [] {
      AdvanceKeeps(cfg, socket, w, steps[0]);
      RunKeeps(cfg, socket, Advance(cfg, socket, w, steps[0]), steps[1..]);
    }
  }

  // ---------- what this says of the server ----------

  /** Every state of every run: no response and no writer waits for a socket that is writable. */
  lemma NoLostWakeup(cfg: ServerConfig, socket: Socket, now: int, steps: seq<Step>)
    requires cfg.timeWait.maxConnections != 0
    ensures var w := Run(cfg, socket, Start(cfg, now), steps);
            && (w.pending != [] ==> TimeWaitManager in w.queue)
            && (w.queue != [] ==> w.blocked)
            && (!w.blocked ==> w.pending == [] && w.queue == [])
  {
    RunKeeps(cfg, socket, Start(cfg, now), steps);
  }

  /** Responses leave in the order in which they were generated, none lost and none twice. */
  lemma ResponsesLeaveInOrder(cfg: ServerConfig, socket: Socket, now: int, steps: seq<Step>)
    requires cfg.timeWait.maxConnections != 0
    ensures var w := Run(cfg, socket, Start(cfg, now), steps);
            w.sent + w.pending == w.generated
  {
    RunKeeps(cfg, socket, Start(cfg, now), steps);
  }

  /** No id is a session's while it is in time-wait, and no blocked writer belongs to a session that has ended. */
  lemma IdsAndWritersAreLive(cfg: ServerConfig, socket: Socket, now: int, steps: seq<Step>)
    requires cfg.timeWait.maxConnections != 0
    ensures var w := Run(cfg, socket, Start(cfg, now), steps);
            && (forall id :: id in w.sessions ==> !Has(w.tw.list, id))
            && (forall s :: Connection(s) in w.queue ==> s in w.sessions.Values && !Ended(w.closed, w.deleted, s))
  {
    RunKeeps(cfg, socket, Start(cfg, now), steps);
  }

  /** Each of the sessions created so far is live, closed or deleted; what is closed is due for deletion. */
  lemma SessionsAreConserved(cfg: ServerConfig, socket: Socket, now: int, steps: seq<Step>)
    requires cfg.timeWait.maxConnections != 0
    ensures var w := Run(cfg, socket, Start(cfg, now), steps);
            && (forall s: nat :: s < w.created <==> s in w.sessions.Values || Ended(w.closed, w.deleted, s))
            && (forall s :: s in w.sessions.Values ==> !Ended(w.closed, w.deleted, s))
            && NoDup(w.closed + w.deleted)
            && (w.closed != [] ==> w.deleteAlarm.Some?)
  {
    RunKeeps(cfg, socket, Start(cfg, now), steps);
    var w := Run(cfg, socket, Start(cfg, now), steps);
    NoDupAppend(w.closed, w.deleted);
  }

  lemma {:induction false} RunSnoc(cfg: ServerConfig, socket: Socket, w: World, steps: seq<Step>, last: Step)
    requires cfg.timeWait.maxConnections != 0
    ensures Run(cfg, socket, w, steps + [last]) == Advance(cfg, socket, Run(cfg, socket, w, steps), last)
    decreases |steps|
  {
    hide Advance;
    if steps == [] {
      assert (steps + [last])[1..] == [] && (steps + [last])[0] == last;
      assert Run(cfg, socket, Advance(cfg, socket, w, last), []) == Advance(cfg, socket, w, last);
    } else {
      assert (steps + [last])[1..] == steps[1..] + [last];
      RunSnoc(cfg, socket, Advance(cfg, socket, w, steps[0]), steps[1..], last);
    }
  }

  /** No id outstays its period: whatever happened before, a turn of the clean-up alarm leaves only younger ids. */
  lemma NoIdOutstaysItsPeriod(cfg: ServerConfig, socket: Socket, now: int, steps: seq<Step>, elapsed: nat)
    requires cfg.timeWait.maxConnections != 0
    ensures var w := Run(cfg, socket, Start(cfg, now), steps + [CleanUpAlarm(elapsed)]);
            forall r :: r in w.tw.list ==> w.tw.clock < r.timeAdded + cfg.timeWait.period
  {
    hide Accounted, Exclusive, TimeWaitSpec.Inv, Expire, NextDeadline;
    StartIsGood(cfg, now);
    var w := Run(cfg, socket, Start(cfg, now), steps);
    RunKeeps(cfg, socket, Start(cfg, now), steps);
    RunSnoc(cfg, socket, Start(cfg, now), steps, CleanUpAlarm(elapsed));
    NothingOldAfterAlarms(cfg.timeWait, w.tw, elapsed);
  }

  lemma {:induction false} PerformAllCreatesNothing(cfg: ServerConfig, w: World, socket: Socket, acts: seq<Act>)
    requires cfg.timeWait.maxConnections != 0
    ensures PerformAll(cfg, w, socket, acts).created == w.created
    ensures PerformAll(cfg, w, socket, acts).generated == w.generated
    decreases |acts|
  {
    if acts != [] {
      PerformAllCreatesNothing(cfg, Perform(cfg, w, socket, acts[0]), socket, acts[1..]);
    }
  }

  lemma HandOverCreatesNothing(w: World, socket: Socket, h: Header)
    requires Has(w.tw.list, h.id)
    ensures HandOver(w, socket, h).created == w.created
    ensures HandOver(w, socket, h).tw == if h.reset || h.sequenceNumber.None? then w.tw else Receive(w.tw, h.id)
  {
  }

  /** Which packets create a session: never one for an id that has a session or is in time-wait. */
  lemma OnlyUnknownIdsCreateSessions(cfg: ServerConfig, w: World, socket: Socket, h: Header, accepted: bool,
                                     acts: seq<Act>)
    requires Inv(cfg, w)
    ensures ProcessPacket(cfg, w, socket, h, accepted, acts).created == w.created + 1 <==>
              h.id !in w.sessions && !Has(w.tw.list, h.id) && !h.clientPortIsZero && !h.reset && h.hasVersion &&
              accepted
    ensures ProcessPacket(cfg, w, socket, h, accepted, acts).created <= w.created + 1
  {
    assert cfg.timeWait.maxConnections != 0;
    hide PerformAll, HandOver, AddId, Has, Core, Awaited;
    var u := w.(tw := AddId(cfg.timeWait, w.tw, h.id, cfg.highestVersion, None, w.tw.clock));
    AddHas(cfg.timeWait, w.tw, h.id, cfg.highestVersion, None, w.tw.clock);
    HandOverCreatesNothing(u, socket, h);
    if Has(w.tw.list, h.id) { HandOverCreatesNothing(w, socket, h); }
    PerformAllCreatesNothing(cfg, w, socket, acts);
    var v := w.(sessions := w.sessions[h.id := w.created], created := w.created + 1);
    PerformAllCreatesNothing(cfg, v, socket, acts);
  }

  /** A turn of the delete alarm always deletes what is closed, in that order: the alarm is never set for later. */
  lemma DeleteAlarmDeletes(cfg: ServerConfig, socket: Socket, w: World, elapsed: nat)
    requires Inv(cfg, w)
    ensures var u := Advance(cfg, socket, w, DeleteAlarm(elapsed));
            && u.closed == [] && u.deleted == w.deleted + w.closed && u.sessions == w.sessions
            && (w.closed != [] ==> u.deleteAlarm == None)
  {
  }

  /** No closed session outlives a turn of the delete alarm, in any run. */
  lemma NoClosedSessionIsLeft(cfg: ServerConfig, socket: Socket, now: int, steps: seq<Step>, elapsed: nat)
    requires cfg.timeWait.maxConnections != 0
    ensures var w := Run(cfg, socket, Start(cfg, now), steps + [DeleteAlarm(elapsed)]);
            && w.closed == []
            && forall s: nat :: s < w.created <==> (s in w.sessions.Values || s in w.deleted)
  {
    RunKeeps(cfg, socket, Start(cfg, now), steps);
    RunSnoc(cfg, socket, Start(cfg, now), steps, DeleteAlarm(elapsed));
    DeleteAlarmDeletes(cfg, socket, Run(cfg, socket, Start(cfg, now), steps), elapsed);
    SessionsAreConserved(cfg, socket, now, steps + [DeleteAlarm(elapsed)]);
    var w := Run(cfg, socket, Start(cfg, now), steps + [DeleteAlarm(elapsed)]);
    assert forall s: nat :: Ended(w.closed, w.deleted, s) <==> s in w.deleted;
  }

  /** The first session to close sets the alarm to the time of its closing; later ones leave it. */
  lemma CloseLaw(cfg: ServerConfig, w: World, id: ConnectionId, version: Version, closePacket: Option<Bytes>)
    requires Core(cfg, w)
    ensures var u := CloseConnection(cfg, w, id, version, closePacket);
            && (id !in w.sessions ==> u == w)
            && (id in w.sessions ==>
                  && u.closed == w.closed + [w.sessions[id]]
                  && u.deleteAlarm == (if w.closed == [] then Some(w.tw.clock) else w.deleteAlarm)
                  && (forall x :: x in u.sessions <==> x in w.sessions && x != id)
                  && (forall x :: x in u.sessions ==> u.sessions[x] == w.sessions[x])
                  && (forall x :: x in u.queue <==> x in w.queue && x != Connection(w.sessions[id]))
                  && Has(u.tw.list, id) && Get(u.tw.list, id).closePacket == closePacket
                  && Get(u.tw.list, id).version == version && Get(u.tw.list, id).timeAdded == w.tw.clock)
  {
    if id in w.sessions {
      WithoutKeeps(w.queue, Connection(w.sessions[id]));
      AddFacts(cfg.timeWait, w.tw.list, id, version, closePacket, w.tw.clock);
    }
  }

  // ---------- shutdown ----------

  /** Whatever connections do first, the one told to close is live no more, and none becomes live. */
  lemma {:induction false} PerformAllCloses(cfg: ServerConfig, w: World, socket: Socket, acts: seq<Act>,
                                            id: ConnectionId, version: Version, closePacket: Option<Bytes>)
    requires cfg.timeWait.maxConnections != 0
    ensures var u := PerformAll(cfg, w, socket, acts + [Close(id, version, closePacket)]);
            && id !in u.sessions && u.sessions.Keys <= w.sessions.Keys
            && u.created == w.created && u.deleted == w.deleted
    decreases |acts|
  {
    var all := acts + [Close(id, version, closePacket)];
    if acts == [] {
      assert all[1..] == [];
    } else {
      assert all[1..] == acts[1..] + [Close(id, version, closePacket)];
      PerformAllCloses(cfg, Perform(cfg, w, socket, acts[0]), socket, acts[1..], id, version, closePacket);
    }
  }

  /** With no session live, deleting the closed ones leaves every session deleted, once, and none waiting to write. */
  lemma DeleteKeepsShutDown(cfg: ServerConfig, w: World)
    requires Inv(cfg, w) && w.sessions == map[]
    ensures var u := DeleteSessions(w);
            && Inv(cfg, u) && u.closed == [] && NoDup(u.deleted) && w.deleted <= u.deleted
            && (forall s: nat :: s in u.deleted <==> s < u.created)
            && (forall x :: x in u.queue ==> x == TimeWaitManager)
  {
    DeleteKeepsAccounts(w);
    var u := DeleteSessions(w);
    assert forall s: nat :: s in u.deleted <==> Ended(u.closed, u.deleted, s);
  }
}
