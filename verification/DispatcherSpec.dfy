/**
 The dispatcher, the time-wait manager and the shared packet writer as one value: how connection ids move
 between sessions and time-wait, and how blocked writers queue for the socket.

 The socket's answer to its `k`-th write is `socket(k)`. What a connection does when it is called is a list
 of `Act`s; connections are otherwise arbitrary. The proofs hold for every socket and every behaviour.
 */
module DispatcherSpec {
  import opened Sequences
  import opened Backoff
  import opened TimeWaitSpec

  datatype WriteStatus = Ok | Blocked | Error

  type Socket = nat -> WriteStatus

  datatype ServerConfig = ServerConfig(timeWait: Config, highestVersion: Version)

  datatype Payload = CloseCopy(packet: Bytes) | PublicReset(rejectedSequenceNumber: nat)

  datatype Response = Response(server: nat, client: nat, id: ConnectionId, payload: Payload)

  /** Sessions are numbered in the order of their creation; a connection is named by its session. */
  datatype Writer = TimeWaitManager | Connection(session: nat)

  datatype World = World(
    blocked: bool, writes: nat, queue: seq<Writer>,
    tw: TimeWait, pending: seq<Response>,
    sessions: map<ConnectionId, nat>, closed: seq<nat>, deleteAlarm: Option<int>, created: nat,
    // history: responses generated, those consumed by the writer and by which write, sessions deleted, writers called
    generated: seq<Response>, sent: seq<Response>, wrote: seq<nat>, deleted: seq<nat>, called: seq<Writer>)

  datatype Header = Header(
    id: ConnectionId, server: nat, client: nat, clientPortIsZero: bool, reset: bool, hasVersion: bool,
    version: Version, versionSupported: bool, sequenceNumber: Option<nat>)

  /** What a connection may do to the server while it is being called. */
  datatype Act =
    | Write
    | ReportBlocked(id: ConnectionId)
    | Close(id: ConnectionId, version: Version, closePacket: Option<Bytes>)

  // ---------- writing ----------

  /** QuicDispatcher::OnWriteBlocked */
  ghost function OnWriteBlocked(w: World, writer: Writer): World {
    if !w.blocked || writer in w.queue then w else w.(queue := w.queue + [writer])
  }

  /** QuicTimeWaitListManager::WriteToWire: the second result tells whether the writer consumed the packet. */
  ghost function WriteToWire(w: World, socket: Socket, p: Response): (World, bool) {
    if w.blocked then (OnWriteBlocked(w, TimeWaitManager), false)
    else
      var u := w.(writes := w.writes + 1);
      if socket(w.writes).Blocked? then (OnWriteBlocked(u.(blocked := true), TimeWaitManager), false)
      else (u.(sent := u.sent + [p], wrote := u.wrote + [w.writes]), true)
  }

  ghost function SendOrQueue(w: World, socket: Socket, p: Response): World {
    var (u, consumed) := WriteToWire(w.(generated := w.generated + [p]), socket, p);
    if consumed then u else u.(pending := u.pending + [p])
  }

  /** QuicTimeWaitListManager::OnCanWrite */
  ghost function Drain(w: World, socket: Socket): (r: World)
    ensures r.blocked || (r.queue == w.queue && r.pending == [])
    decreases |w.pending|
  {
    if w.pending == [] then w
    else
      var (u, consumed) := WriteToWire(w, socket, w.pending[0]);
      if consumed then Drain(u.(pending := w.pending[1..]), socket) else u
  }

  ghost function ProcessInTimeWait(w: World, socket: Socket, h: Header, sequenceNumber: nat): World
    requires Has(w.tw.list, h.id)
  {
    var r := Get(w.tw.list, h.id);
    var u := w.(tw := Receive(w.tw, h.id));
    if !ShouldSendResponse(r.numPackets + 1) then u
    else
      var payload := if r.closePacket.Some? then CloseCopy(r.closePacket.value) else PublicReset(sequenceNumber);
      SendOrQueue(u, socket, Response(h.server, h.client, h.id, payload))
  }

  // ---------- sessions ----------

  /** QuicDispatcher::OnConnectionClosed with CleanUpSession */
  ghost function CloseConnection(cfg: ServerConfig, w: World, id: ConnectionId, version: Version,
                                 closePacket: Option<Bytes>): World
    requires cfg.timeWait.maxConnections != 0
  {
    if id !in w.sessions then w
    else w.(
      deleteAlarm := if w.closed == [] then Some(w.tw.clock) else w.deleteAlarm,
      closed := w.closed + [w.sessions[id]],
      queue := Without(w.queue, Connection(w.sessions[id])),
      tw := AddId(cfg.timeWait, w.tw, id, version, closePacket, w.tw.clock),
      sessions := w.sessions - {id})
  }

  /** A write is not attempted while the writer is blocked, and a closed connection reports nothing. */
  ghost function Perform(cfg: ServerConfig, w: World, socket: Socket, act: Act): World
    requires cfg.timeWait.maxConnections != 0
  {
    match act
    case Write =>
      if w.blocked then w else w.(writes := w.writes + 1, blocked := socket(w.writes).Blocked?)
    case ReportBlocked(id) =>
      if id in w.sessions then OnWriteBlocked(w, Connection(w.sessions[id])) else w
    case Close(id, version, closePacket) =>
      CloseConnection(cfg, w, id, version, closePacket)
  }

  ghost function PerformAll(cfg: ServerConfig, w: World, socket: Socket, acts: seq<Act>): (r: World)
    requires cfg.timeWait.maxConnections != 0
    ensures r.blocked || |r.queue| <= |w.queue|
    ensures w.blocked ==> r.blocked
    decreases |acts|
  {
    if acts == [] then w else PerformAll(cfg, Perform(cfg, w, socket, acts[0]), socket, acts[1..])
  }

  /** QuicDispatcher::DeleteSessions */
  ghost function DeleteSessions(w: World): World {
    w.(closed := [], deleted := w.deleted + w.closed)
  }

  // ---------- packets ----------

  /** The framer hands a packet for time-wait on once it has read the sequence number. */
  ghost function HandOver(w: World, socket: Socket, h: Header): World
    requires Has(w.tw.list, h.id)
  {
    if h.reset || h.sequenceNumber.None? then w else ProcessInTimeWait(w, socket, h, h.sequenceNumber.value)
  }

  /** QuicDispatcher::ProcessPacket; `accepted` tells whether a session can be created for an unknown id. */
  ghost function ProcessPacket(cfg: ServerConfig, w: World, socket: Socket, h: Header, accepted: bool,
                               acts: seq<Act>): World
    requires cfg.timeWait.maxConnections != 0
  {
    if h.clientPortIsZero then w
    else if h.id in w.sessions then PerformAll(cfg, w, socket, acts)
    else if Has(w.tw.list, h.id) then HandOver(w, socket, h)
    else if h.reset then w
    else if !h.hasVersion then
      var u := w.(tw := AddId(cfg.timeWait, w.tw, h.id, cfg.highestVersion, None, w.tw.clock));
      AddHas(cfg.timeWait, w.tw, h.id, cfg.highestVersion, None, w.tw.clock);
      HandOver(u, socket, h)
    else if accepted then
      PerformAll(cfg, w.(sessions := w.sessions[h.id := w.created], created := w.created + 1), socket, acts)
    else if !h.versionSupported then w
    else w.(tw := AddId(cfg.timeWait, w.tw, h.id, h.version, None, w.tw.clock))
  }

  lemma AddHas(cfg: Config, t: TimeWait, id: ConnectionId, version: Version, closePacket: Option<Bytes>, now: int)
    requires cfg.maxConnections != 0
    ensures Has(AddId(cfg, t, id, version, closePacket, now).list, id)
  {
    var kept := Trim(Remove(t.list, id), cfg.maxConnections);
    var m := AddId(cfg, t, id, version, closePacket, now).list;
    assert m == kept + [m[|kept|]];
    HasConcat(kept, [m[|kept|]], id);
  }

  // ---------- the socket becomes writable ----------

  ghost function Serve(cfg: ServerConfig, w: World, socket: Socket, acts: seq<Act>): (r: World)
    requires cfg.timeWait.maxConnections != 0 && w.queue != []
    ensures r.blocked || |r.queue| < |w.queue|
  {
    var u := w.(queue := w.queue[1..], called := w.called + [w.queue[0]]);
    if w.queue[0].TimeWaitManager? then Drain(u, socket) else PerformAll(cfg, u, socket, acts)
  }

  ghost function ServeAll(cfg: ServerConfig, w: World, socket: Socket, replies: nat -> seq<Act>, k: nat): (r: World)
    requires cfg.timeWait.maxConnections != 0
    ensures r.queue != [] ==> r.blocked
    decreases if w.blocked then 0 else 1 + |w.queue|
  {
    if w.queue == [] || w.blocked then w
    else ServeAll(cfg, Serve(cfg, w, socket, replies(k)), socket, replies, k + 1)
  }

  /** QuicDispatcher::OnCanWrite; the `k`-th connection it calls does `replies(k)`. */
  ghost function OnCanWrite(cfg: ServerConfig, w: World, socket: Socket, replies: nat -> seq<Act>): World
    requires cfg.timeWait.maxConnections != 0
  {
    ServeAll(cfg, w.(blocked := false), socket, replies, 0)
  }
}
