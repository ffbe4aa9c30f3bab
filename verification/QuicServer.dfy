/**
 The server's objects as they are in memory: the packet writer, the list of blocked writers, the time-wait
 manager and the dispatcher. Every method is proved to do to the abstract world what `DispatcherSpec` says.

 The clock is read once in each handler; `now` is that reading.
 */
module QuicServer {
  import opened Sequences
  import opened Backoff
  import opened TimeWaitSpec
  import opened DispatcherSpec
  import DispatcherProofs

  class QuicDefaultPacketWriter {
    const socket: Socket
    var writeBlocked: bool
    var writes: nat

    constructor (socket: Socket)
      ensures this.socket == socket && !writeBlocked && writes == 0
    {
      this.socket := socket;
      writeBlocked, writes := false, 0;
    }

    method WritePacket() returns (status: WriteStatus)
      requires !writeBlocked
      modifies this
      ensures status == socket(old(writes)) && writes == old(writes) + 1 && writeBlocked == status.Blocked?
    {
      status := socket(writes);
      writes := writes + 1;
      if status.Blocked? {
        writeBlocked := true;
      }
    }

    method SetWritable()
      modifies this
      ensures !writeBlocked && writes == old(writes)
    {
      writeBlocked := false;
    }
  }

  /** The dispatcher's list of writers waiting for the socket, as the time-wait manager sees it. */
  class WriteBlockedList {
    const writer: QuicDefaultPacketWriter
    var list: seq<Writer>

    constructor (writer: QuicDefaultPacketWriter)
      ensures this.writer == writer && list == []
    {
      this.writer := writer;
      list := [];
    }

    method OnWriteBlocked(blockedWriter: Writer, ghost w: World)
      requires w.blocked == writer.writeBlocked && w.queue == list
      modifies this
      ensures list == DispatcherSpec.OnWriteBlocked(w, blockedWriter).queue
      ensures !writer.writeBlocked || blockedWriter in old(list) ==> list == old(list)
      ensures writer.writeBlocked && blockedWriter !in old(list) ==> list == old(list) + [blockedWriter]
    {
      if !writer.writeBlocked {
        return;
      }
      if blockedWriter !in list {
        list := list + [blockedWriter];
      }
    }

    method PopFront() returns (front: Writer)
      requires list != []
      modifies this
      ensures front == old(list)[0] && list == old(list)[1..]
    {
      front, list := list[0], list[1..];
    }

    method Erase(x: Writer)
      requires NoDup(list)
      modifies this
      ensures list == Without(old(list), x)
    {
      var k := 0;
      while k < |list| && list[k] != x
        invariant k <= |list| && x !in list[..k] && list == old(list)
      {
        k := k + 1;
      }
      if k < |list| {
        WithoutIsDropAt(list, k);
        list := list[..k] + list[k + 1..];
      }
    }
  }

  class QuicTimeWaitListManager {
    const cfg: Config
    const writer: QuicDefaultPacketWriter
    const visitor: WriteBlockedList
    var connectionIdMap: seq<Record>
    var pendingPackets: seq<Response>
    var cleanUpDeadline: int
    var clock: int
    ghost var generated: seq<Response>
    ghost var sent: seq<Response>
    ghost var wrote: seq<nat>

    /** The world `w` with this object's part of it, and what this object can change, as they are now. */
    ghost function Onto(w: World): World
      reads this, writer, visitor
    {
      w.(blocked := writer.writeBlocked, writes := writer.writes, queue := visitor.list,
         tw := TimeWait(connectionIdMap, cleanUpDeadline, clock), pending := pendingPackets,
         generated := generated, sent := sent, wrote := wrote)
    }

    ghost predicate Connected() {
      visitor.writer == writer && cfg.maxConnections != 0
    }

    constructor (cfg: Config, writer: QuicDefaultPacketWriter, visitor: WriteBlockedList, now: int)
      requires cfg.maxConnections != 0 && visitor.writer == writer
      ensures Connected() && this.cfg == cfg && this.writer == writer && this.visitor == visitor
      ensures TimeWait(connectionIdMap, cleanUpDeadline, clock) == Initial(cfg, now)
      ensures pendingPackets == [] && generated == [] && sent == [] && wrote == []
    {
      this.cfg, this.writer, this.visitor := cfg, writer, visitor;
      connectionIdMap, pendingPackets, clock := [], [], now;
      generated, sent, wrote := [], [], [];
      cleanUpDeadline := now + cfg.period;
    }

    // ---------- writing ----------

    method WriteToWire(p: Response, ghost w: World) returns (consumed: bool)
      requires Connected()
      modifies writer, visitor, `sent, `wrote
      ensures (Onto(w), consumed) == DispatcherSpec.WriteToWire(old(Onto(w)), writer.socket, p)
    {
      if writer.writeBlocked {
        visitor.OnWriteBlocked(TimeWaitManager, Onto(w));
        return false;
      }
      var status := writer.WritePacket();
      if status.Blocked? {
        visitor.OnWriteBlocked(TimeWaitManager, Onto(w));
        return false;
      }
      sent, wrote := sent + [p], wrote + [writer.writes - 1];
      return true;
    }

    method SendOrQueuePacket(p: Response, ghost w: World)
      requires Connected()
      modifies this, writer, visitor
      ensures Onto(w) == SendOrQueue(old(Onto(w)), writer.socket, p)
    {
      generated := generated + [p];
      var consumed := WriteToWire(p, w);
      if !consumed {
        pendingPackets := pendingPackets + [p];
      }
    }

    method OnCanWrite(ghost w: World)
      requires Connected()
      modifies this, writer, visitor
      ensures Onto(w) == Drain(old(Onto(w)), writer.socket)
    {
      while pendingPackets != []
        invariant Drain(Onto(w), writer.socket) == Drain(old(Onto(w)), writer.socket)
        decreases |pendingPackets|
      {
        var consumed := WriteToWire(pendingPackets[0], w);
        if !consumed {
          return;
        }
        pendingPackets := pendingPackets[1..];
      }
    }

    method ProcessPacket(h: Header, sequenceNumber: nat, ghost w: World)
      requires Connected() && Has(connectionIdMap, h.id)
      modifies this, writer, visitor
      ensures Onto(w) == ProcessInTimeWait(old(Onto(w)), writer.socket, h, sequenceNumber)
    {
      var r := Get(connectionIdMap, h.id);
      connectionIdMap := Count(connectionIdMap, h.id);
      if !ShouldSendResponse(r.numPackets + 1) {
        return;
      }
      if r.closePacket.Some? {
        SendOrQueuePacket(DispatcherSpec.Response(h.server, h.client, h.id, CloseCopy(r.closePacket.value)), w);
      } else {
        SendOrQueuePacket(DispatcherSpec.Response(h.server, h.client, h.id, PublicReset(sequenceNumber)), w);
      }
    }

    // ---------- the list ----------

    /** Drops the oldest id if it was added by `expiration`; none stands for the end of time. */
    method MaybeExpireOldestConnection(expiration: Option<int>) returns (expired: bool)
      modifies `connectionIdMap
      ensures expired == (old(connectionIdMap) != [] &&
                          (expiration.Some? ==> old(connectionIdMap)[0].timeAdded <= expiration.value))
      ensures connectionIdMap == if expired then old(connectionIdMap)[1..] else old(connectionIdMap)
    {
      if connectionIdMap == [] {
        return false;
      }
      if expiration.Some? && connectionIdMap[0].timeAdded > expiration.value {
        return false;
      }
      connectionIdMap := connectionIdMap[1..];
      return true;
    }

    method TrimTimeWaitListIfNeeded()
      requires Connected()
      modifies `connectionIdMap
      ensures connectionIdMap == Trim(old(connectionIdMap), cfg.maxConnections)
    {
      if cfg.maxConnections < 0 {
        return;
      }
      while |connectionIdMap| >= cfg.maxConnections
        invariant Trim(connectionIdMap, cfg.maxConnections) == Trim(old(connectionIdMap), cfg.maxConnections)
        decreases |connectionIdMap|
      {
        var expired := MaybeExpireOldestConnection(None);
      }
    }

    method AddConnectionIdToTimeWait(id: ConnectionId, version: Version, closePacket: Option<Bytes>, now: int)
      requires Connected()
      modifies `connectionIdMap, `clock
      ensures TimeWait(connectionIdMap, cleanUpDeadline, clock)
           == AddId(cfg, TimeWait(old(connectionIdMap), cleanUpDeadline, old(clock)), id, version, closePacket, now)
    {
      var numPackets := 0;
      if Has(connectionIdMap, id) {
        numPackets := Get(connectionIdMap, id).numPackets;
      }
      connectionIdMap := Remove(connectionIdMap, id);
      TrimTimeWaitListIfNeeded();
      connectionIdMap := connectionIdMap + [Record(id, numPackets, version, now, closePacket)];
      clock := now;
    }

    method SetConnectionIdCleanUpAlarm(now: int)
      modifies `cleanUpDeadline
      ensures cleanUpDeadline == NextDeadline(cfg, connectionIdMap, now)
    {
      var nextAlarmInterval := 0;
      if connectionIdMap != [] {
        var oldest := connectionIdMap[0].timeAdded;
        if now - oldest < cfg.period {
          nextAlarmInterval := oldest + cfg.period - now;
        }
      } else {
        nextAlarmInterval := cfg.period;
      }
      cleanUpDeadline := now + nextAlarmInterval;
    }

    method CleanUpOldConnectionIds(now: int)
      modifies `connectionIdMap, `cleanUpDeadline, `clock
      ensures TimeWait(connectionIdMap, cleanUpDeadline, clock)
           == CleanUp(cfg, TimeWait(old(connectionIdMap), old(cleanUpDeadline), old(clock)), now)
    {
      var expiration := now - cfg.period;
      var expired := true;
      while expired
        invariant Expire(connectionIdMap, expiration) == Expire(old(connectionIdMap), expiration)
        invariant !expired ==> Expire(connectionIdMap, expiration) == connectionIdMap
        decreases |connectionIdMap|, expired
      {
        expired := MaybeExpireOldestConnection(Some(expiration));
      }
      SetConnectionIdCleanUpAlarm(now);
      clock := now;
    }
  }

  class QuicDispatcher {
    const cfg: ServerConfig
    const writer: QuicDefaultPacketWriter
    const writeBlockedList: WriteBlockedList
    const timeWaitListManager: QuicTimeWaitListManager
    var sessionMap: map<ConnectionId, nat>
    var closedSessionList: seq<nat>
    var deleteSessionsAlarm: Option<int>
    var created: nat
    ghost var deleted: seq<nat>
    ghost var called: seq<Writer>

    ghost function View(): World
      reads this, writer, writeBlockedList, timeWaitListManager
    {
      World(writer.writeBlocked, writer.writes, writeBlockedList.list,
            TimeWait(timeWaitListManager.connectionIdMap, timeWaitListManager.cleanUpDeadline,
                     timeWaitListManager.clock),
            timeWaitListManager.pendingPackets, sessionMap, closedSessionList, deleteSessionsAlarm, created,
            timeWaitListManager.generated, timeWaitListManager.sent, timeWaitListManager.wrote, deleted, called)
    }

    /** The objects refer to each other as InitializeWithWriter sets them up. */
    ghost predicate Connected() {
      && timeWaitListManager.writer == writer && timeWaitListManager.visitor == writeBlockedList
      && timeWaitListManager.cfg == cfg.timeWait && timeWaitListManager.Connected()
    }

    /** What holds between handlers. */
    ghost predicate Valid()
      reads this, writer, writeBlockedList, timeWaitListManager
    {
      Connected() && DispatcherProofs.Inv(cfg, View())
    }

    constructor (cfg: ServerConfig, socket: Socket, now: int)
      requires cfg.timeWait.maxConnections != 0
      ensures Valid() && this.cfg == cfg && writer.socket == socket && View() == DispatcherProofs.Start(cfg, now)
      ensures fresh(writer) && fresh(writeBlockedList) && fresh(timeWaitListManager)
    {
      var w := new QuicDefaultPacketWriter(socket);
      var list := new WriteBlockedList(w);
      var manager := new QuicTimeWaitListManager(cfg.timeWait, w, list, now);
      this.cfg, writer, writeBlockedList, timeWaitListManager := cfg, w, list, manager;
      sessionMap, closedSessionList, deleteSessionsAlarm, created := map[], [], None, 0;
      deleted, called := [], [];
      new;
      DispatcherProofs.StartIsGood(cfg, now);
    }

    /** ApproximateNow, which stands still during a handler. */
    method Now() returns (now: int)
      ensures now == timeWaitListManager.clock
    {
      now := timeWaitListManager.clock;
    }

    /** A handler begins: the clock is read. */
    method Begin(now: int)
      requires Valid() && now >= timeWaitListManager.clock
      modifies timeWaitListManager`clock
      ensures Valid() && View() == DispatcherProofs.Tick(old(View()), now - old(timeWaitListManager.clock))
    {
      timeWaitListManager.clock := now;
    }

    // ---------- what connections call ----------

    method OnWriteBlocked(blockedWriter: Writer)
      requires Connected()
      modifies writeBlockedList
      ensures View() == DispatcherSpec.OnWriteBlocked(old(View()), blockedWriter)
    {
      writeBlockedList.OnWriteBlocked(blockedWriter, View());
    }

    method CleanUpSession(id: ConnectionId, version: Version, closePacket: Option<Bytes>, now: int)
      requires Connected() && id in sessionMap && NoDup(writeBlockedList.list)
      modifies `sessionMap, writeBlockedList, timeWaitListManager`connectionIdMap, timeWaitListManager`clock
      ensures var w := old(View());
              View() == w.(queue := Without(w.queue, Connection(w.sessions[id])),
                           tw := AddId(cfg.timeWait, w.tw, id, version, closePacket, now),
                           sessions := w.sessions - {id})
    {
      writeBlockedList.Erase(Connection(sessionMap[id]));
      timeWaitListManager.AddConnectionIdToTimeWait(id, version, closePacket, now);
      sessionMap := sessionMap - {id};
    }

    /** Deletion is asynchronous: the session waits on the closed list for the alarm set here. */
    method OnConnectionClosed(id: ConnectionId, version: Version, closePacket: Option<Bytes>)
      requires Connected() && NoDup(writeBlockedList.list)
      modifies this, writeBlockedList, timeWaitListManager`connectionIdMap, timeWaitListManager`clock
      ensures View() == CloseConnection(cfg, old(View()), id, version, closePacket)
    {
      if id !in sessionMap {
        return;
      }
      var now := Now();
      if closedSessionList == [] {
        deleteSessionsAlarm := Some(now);
      }
      closedSessionList := closedSessionList + [sessionMap[id]];
      CleanUpSession(id, version, closePacket, now);
    }

    /** One act of a connection that is being called. */
    method Perform(act: Act)
      requires Connected() && NoDup(writeBlockedList.list)
      modifies this, writer, writeBlockedList, timeWaitListManager`connectionIdMap, timeWaitListManager`clock
      ensures View() == DispatcherSpec.Perform(cfg, old(View()), writer.socket, act)
    {
      match act {
        case Write =>
          if !writer.writeBlocked {
            var status := writer.WritePacket();
          }
        case ReportBlocked(id) =>
          if id in sessionMap {
            OnWriteBlocked(Connection(sessionMap[id]));
          }
        case Close(id, version, closePacket) =>
          OnConnectionClosed(id, version, closePacket);
      }
    }

    ghost predicate Steady()
      reads this, writer, writeBlockedList, timeWaitListManager
    {
      Connected() && DispatcherProofs.Core(cfg, View()) && DispatcherProofs.Awaited(View())
    }

    method PerformAll(acts: seq<Act>)
      requires Steady()
      modifies this, writer, writeBlockedList, timeWaitListManager`connectionIdMap, timeWaitListManager`clock
      ensures Steady() && View() == DispatcherSpec.PerformAll(cfg, old(View()), writer.socket, acts)
    {
      hide DispatcherSpec.Perform, DispatcherProofs.Core, DispatcherProofs.Awaited;
      var i := 0;
      while i < |acts|
        invariant i <= |acts| && Steady()
        invariant DispatcherSpec.PerformAll(cfg, View(), writer.socket, acts[i..])
               == DispatcherSpec.PerformAll(cfg, old(View()), writer.socket, acts)
      {
        DispatcherProofs.CoreFacts(cfg, View());
        DispatcherProofs.PerformKeeps(cfg, View(), writer.socket, acts[i]);
        assert acts[i..][0] == acts[i] && acts[i..][1..] == acts[i + 1..];
        Perform(acts[i]);
        i := i + 1;
      }
    }

    // ---------- packets ----------

    /** HandlePacketForTimeWait and, once the framer has the sequence number, OnUnauthenticatedHeader. */
    method HandlePacketForTimeWait(h: Header)
      requires Connected() && Has(timeWaitListManager.connectionIdMap, h.id)
      modifies writer, writeBlockedList, timeWaitListManager
      ensures View() == HandOver(old(View()), writer.socket, h)
    {
      if h.reset || h.sequenceNumber.None? {
        return;
      }
      timeWaitListManager.ProcessPacket(h, h.sequenceNumber.value, View());
    }

    method ProcessPacket(h: Header, accepted: bool, acts: seq<Act>, now: int)
      requires Valid() && now >= timeWaitListManager.clock
      modifies this, writer, writeBlockedList, timeWaitListManager
      ensures Valid() && View() == DispatcherProofs.Advance(cfg, writer.socket, old(View()),
                                     DispatcherProofs.Arrival(h, accepted, acts, now - old(timeWaitListManager.clock)))
    {
      hide DispatcherProofs.Core, DispatcherProofs.Awaited, DispatcherSpec.PerformAll, HandOver, AddId;
      Begin(now);
      DispatcherProofs.ProcessPacketKeeps(cfg, View(), writer.socket, h, accepted, acts);
      if h.clientPortIsZero {
        return;
      }
      if h.id !in sessionMap {
        if Has(timeWaitListManager.connectionIdMap, h.id) {
          HandlePacketForTimeWait(h);
          return;
        }
        if h.reset {
          return;
        }
        if !h.hasVersion {
          AddHas(cfg.timeWait, View().tw, h.id, cfg.highestVersion, None, View().tw.clock);
          timeWaitListManager.AddConnectionIdToTimeWait(h.id, cfg.highestVersion, None, now);
          HandlePacketForTimeWait(h);
          return;
        }
        var created := AdditionalValidityChecksThenCreateSession(h, accepted, now);
        if !created {
          return;
        }
      }
      PerformAll(acts);
    }

    method AdditionalValidityChecksThenCreateSession(h: Header, accepted: bool, now: int) returns (ok: bool)
      requires Valid() && h.id !in sessionMap && !Has(timeWaitListManager.connectionIdMap, h.id)
      requires now == timeWaitListManager.clock
      modifies this, timeWaitListManager`connectionIdMap, timeWaitListManager`clock
      ensures ok == accepted && (ok ==> Valid())
      ensures var w := old(View());
              View() == if accepted then w.(sessions := w.sessions[h.id := w.created], created := w.created + 1)
                        else if !h.versionSupported then w
                        else w.(tw := AddId(cfg.timeWait, w.tw, h.id, h.version, None, now))
    {
      hide DispatcherProofs.Inv, AddId;
      if !accepted {
        if h.versionSupported {
          timeWaitListManager.AddConnectionIdToTimeWait(h.id, h.version, None, now);
        }
        return false;
      }
      DispatcherProofs.OpenKeeps(cfg, View(), h.id);
      sessionMap := sessionMap[h.id := created];
      created := created + 1;
      return true;
    }

    // ---------- the socket becomes writable ----------

    method OnCanWrite(replies: nat -> seq<Act>, now: int)
      requires Valid() && now >= timeWaitListManager.clock
      modifies this, writer, writeBlockedList, timeWaitListManager
      ensures Valid() && View() == DispatcherProofs.Advance(cfg, writer.socket, old(View()),
                                     DispatcherProofs.Writable(replies, now - old(timeWaitListManager.clock)))
    {
      hide DispatcherProofs.Inv, DispatcherSpec.Serve;
      DispatcherProofs.AdvanceKeeps(cfg, writer.socket, View(),
                                    DispatcherProofs.Writable(replies, now - timeWaitListManager.clock));
      Begin(now);
      StartsServing();
      writer.SetWritable();
      ghost var start := View();
      var k := 0;
      while writeBlockedList.list != [] && !writer.writeBlocked
        invariant Steady()
        invariant ServeAll(cfg, View(), writer.socket, replies, k) == ServeAll(cfg, start, writer.socket, replies, 0)
        decreases if writer.writeBlocked then 0 else 1 + |writeBlockedList.list|
      {
        ServeFront(replies(k));
        k := k + 1;
      }
    }

    lemma StartsServing()
      requires Valid()
      ensures var w := View().(blocked := false);
              DispatcherProofs.Core(cfg, w) && DispatcherProofs.Awaited(w)
    {
    }

    /** One turn of the loop in OnCanWrite. */
    method ServeFront(acts: seq<Act>)
      requires Steady() && writeBlockedList.list != []
      modifies this, writer, writeBlockedList, timeWaitListManager
      ensures Steady() && View() == Serve(cfg, old(View()), writer.socket, acts)
    {
      hide DispatcherProofs.Core, DispatcherProofs.Awaited, DispatcherSpec.PerformAll, Drain;
      DispatcherProofs.ServeKeeps(cfg, View(), writer.socket, acts);
      DispatcherProofs.PopKeeps(cfg, View());
      var blockedWriter := writeBlockedList.PopFront();
      called := called + [blockedWriter];
      if blockedWriter.TimeWaitManager? {
        timeWaitListManager.OnCanWrite(View());
      } else {
        PerformAll(acts);
      }
    }

    // ---------- alarms ----------

    method OnConnectionAlarm(acts: seq<Act>, now: int)
      requires Valid() && now >= timeWaitListManager.clock
      modifies this, writer, writeBlockedList, timeWaitListManager
      ensures Valid() && View() == DispatcherProofs.Advance(cfg, writer.socket, old(View()),
                                     DispatcherProofs.ConnectionAlarm(acts, now - old(timeWaitListManager.clock)))
    {
      hide DispatcherProofs.Core, DispatcherProofs.Awaited;
      DispatcherProofs.AdvanceKeeps(cfg, writer.socket, View(),
                                    DispatcherProofs.ConnectionAlarm(acts, now - timeWaitListManager.clock));
      Begin(now);
      PerformAll(acts);
    }

    method OnCleanUpAlarm(now: int)
      requires Valid() && now >= timeWaitListManager.clock
      modifies timeWaitListManager
      ensures Valid() && View() == DispatcherProofs.Advance(cfg, writer.socket, old(View()),
                                     DispatcherProofs.CleanUpAlarm(now - old(timeWaitListManager.clock)))
    {
      hide DispatcherProofs.Core, DispatcherProofs.Awaited, CleanUp;
      DispatcherProofs.AdvanceKeeps(cfg, writer.socket, View(),
                                    DispatcherProofs.CleanUpAlarm(now - timeWaitListManager.clock));
      Begin(now);
      if timeWaitListManager.cleanUpDeadline <= now {
        timeWaitListManager.CleanUpOldConnectionIds(now);
      }
    }

    method DeleteSessions()
      modifies `closedSessionList, `deleted
      ensures View() == DispatcherSpec.DeleteSessions(old(View()))
    {
      deleted := deleted + closedSessionList;
      closedSessionList := [];
    }

    method OnDeleteSessionsAlarm(now: int)
      requires Valid() && now >= timeWaitListManager.clock
      modifies this, timeWaitListManager`clock
      ensures Valid() && View() == DispatcherProofs.Advance(cfg, writer.socket, old(View()),
                                     DispatcherProofs.DeleteAlarm(now - old(timeWaitListManager.clock)))
    {
      hide DispatcherProofs.Core, DispatcherProofs.Awaited;
      DispatcherProofs.AdvanceKeeps(cfg, writer.socket, View(),
                                    DispatcherProofs.DeleteAlarm(now - timeWaitListManager.clock));
      Begin(now);
      if deleteSessionsAlarm.Some? && deleteSessionsAlarm.value <= now {
        deleteSessionsAlarm := None;
        DeleteSessions();
      }
    }

    // ---------- shutdown ----------

    /** Every live session is told to close; what else it does then is arbitrary. All sessions end up deleted. */
    method Shutdown(goodbyes: ConnectionId -> Goodbye)
      requires Valid()
      modifies this, writer, writeBlockedList, timeWaitListManager
      ensures Valid() && sessionMap == map[] && closedSessionList == [] && created == old(created)
      ensures NoDup(deleted) && (forall s: nat :: s in deleted <==> s < created)
      ensures old(deleted) <= deleted
      ensures forall x :: x in writeBlockedList.list ==> x == TimeWaitManager
    {
      hide DispatcherProofs.Core;
      while sessionMap != map[]
        invariant Valid() && created == old(created) && deleted == old(deleted)
        decreases sessionMap.Keys
      {
        var id :| id in sessionMap;
        SendConnectionClose(id, goodbyes(id));
      }
      DispatcherProofs.DeleteKeepsShutDown(cfg, View());
      DeleteSessions();
    }

    /** The session removes itself from the session map on close. */
    method SendConnectionClose(id: ConnectionId, goodbye: Goodbye)
      requires Valid() && id in sessionMap
      modifies this, writer, writeBlockedList, timeWaitListManager
      ensures Valid() && id !in sessionMap && sessionMap.Keys <= old(sessionMap.Keys)
      ensures created == old(created) && deleted == old(deleted)
    {
      hide DispatcherProofs.Core;
      var acts := goodbye.acts + [Close(id, goodbye.version, goodbye.closePacket)];
      DispatcherProofs.PerformAllStaysBlocked(cfg, View(), writer.socket, acts);
      DispatcherProofs.PerformAllCloses(cfg, View(), writer.socket, goodbye.acts, id, goodbye.version,
                                        goodbye.closePacket);
      PerformAll(acts);
    }
  }

  /** What a connection does when the server goes away, up to its call of OnConnectionClosed. */
  datatype Goodbye = Goodbye(acts: seq<Act>, version: Version, closePacket: Option<Bytes>)
}
