/** What the socket saw: every response that was sent is a write that it did not block, and in that order. */
module DispatcherWire {
  import opened Sequences
  import opened DispatcherSpec
  import opened DispatcherProofs
  import T = TimeWaitSpec

  /** The writes that took the responses sent, in increasing order; a blocked writer was blocked by its last write. */
  ghost predicate Written(w: World, socket: Socket) {
    && |w.wrote| == |w.sent|
    && (forall i :: 0 <= i < |w.wrote| ==> w.wrote[i] < w.writes && !socket(w.wrote[i]).Blocked?)
    && (forall i, j :: 0 <= i < j < |w.wrote| ==> w.wrote[i] < w.wrote[j])
    && (w.blocked ==> w.writes > 0 && socket(w.writes - 1).Blocked?)
  }

  /** A packet is written, once, unless the writer is blocked; the socket's answer decides what becomes of it. */
  lemma WriteToWireLaw(w: World, socket: Socket, p: DispatcherSpec.Response)
    ensures var (u, consumed) := WriteToWire(w, socket, p);
            && (consumed <==> !w.blocked && !socket(w.writes).Blocked?)
            && u.writes == w.writes + (if w.blocked then 0 else 1)
            && (u.blocked <==> !consumed)
            && u.sent == (if consumed then w.sent + [p] else w.sent)
            && u.wrote == (if consumed then w.wrote + [w.writes] else w.wrote)
            && (!consumed ==> TimeWaitManager in u.queue) && (consumed ==> u.queue == w.queue)
            && u.pending == w.pending && u.generated == w.generated && u.tw == w.tw && u.sessions == w.sessions
  {
  }

  lemma WriteToWireWritten(w: World, socket: Socket, p: DispatcherSpec.Response)
    requires Written(w, socket)
    ensures Written(WriteToWire(w, socket, p).0, socket)
  {
  }

  lemma {:induction false} DrainWritten(w: World, socket: Socket)
    requires Written(w, socket)
    ensures Written(Drain(w, socket), socket)
    decreases |w.pending|
  {
    if w.pending != [] {
      hide WriteToWire, Written;
      WriteToWireWritten(w, socket, w.pending[0]);
      var (u, consumed) := WriteToWire(w, socket, w.pending[0]);
      if consumed {
        OnlyPending(u, w.pending[1..], socket);
        DrainWritten(u.(pending := w.pending[1..]), socket);
      }
    }
  }

  lemma OnlyPending(w: World, pending: seq<DispatcherSpec.Response>, socket: Socket)
    requires Written(w, socket)
    ensures Written(w.(pending := pending), socket)
  {
  }

  /** What a connection does to the writer: it writes unless the writer is blocked, and nothing of it is a response. */
  lemma PerformWritten(cfg: ServerConfig, w: World, socket: Socket, act: Act)
    requires cfg.timeWait.maxConnections != 0 && Written(w, socket)
    ensures var u := Perform(cfg, w, socket, act);
            && Written(u, socket) && u.sent == w.sent && u.pending == w.pending
            && u.writes == w.writes + (if act.Write? && !w.blocked then 1 else 0)
            && u.blocked == (w.blocked || (act.Write? && socket(w.writes).Blocked?))
  {
  }

  lemma {:induction false} PerformAllWritten(cfg: ServerConfig, w: World, socket: Socket, acts: seq<Act>)
    requires cfg.timeWait.maxConnections != 0 && Written(w, socket)
    ensures Written(PerformAll(cfg, w, socket, acts), socket)
    decreases |acts|
  {
    if acts != [] {
      hide Perform;
      PerformWritten(cfg, w, socket, acts[0]);
      PerformAllWritten(cfg, Perform(cfg, w, socket, acts[0]), socket, acts[1..]);
    }
  }

  lemma {:induction false} ServeAllWritten(cfg: ServerConfig, w: World, socket: Socket, replies: nat -> seq<Act>,
                                           k: nat)
    requires cfg.timeWait.maxConnections != 0 && Written(w, socket)
    ensures Written(ServeAll(cfg, w, socket, replies, k), socket)
    decreases if w.blocked then 0 else 1 + |w.queue|
  {
    if w.queue != [] && !w.blocked {
      var u := w.(queue := w.queue[1..], called := w.called + [w.queue[0]]);
      assert Written(u, socket);
      DrainWritten(u, socket);
      PerformAllWritten(cfg, u, socket, replies(k));
      ServeAllWritten(cfg, Serve(cfg, w, socket, replies(k)), socket, replies, k + 1);
    }
  }

  lemma SendOrQueueWritten(w: World, socket: Socket, p: DispatcherSpec.Response)
    requires Written(w, socket)
    ensures Written(SendOrQueue(w, socket, p), socket)
  {
    hide WriteToWire;
    var g := w.(generated := w.generated + [p]);
    assert Written(g, socket);
    WriteToWireWritten(g, socket, p);
  }

  lemma HandOverWritten(w: World, socket: Socket, h: Header)
    requires Written(w, socket) && T.Has(w.tw.list, h.id)
    ensures Written(HandOver(w, socket, h), socket)
  {
    if !h.reset && h.sequenceNumber.Some? {
      hide SendOrQueue, T.Has, T.Get;
      var r := T.Get(w.tw.list, h.id);
      var u := w.(tw := T.Receive(w.tw, h.id));
      assert Written(u, socket);
      var payload :=
        if r.closePacket.Some? then CloseCopy(r.closePacket.value) else PublicReset(h.sequenceNumber.value);
      SendOrQueueWritten(u, socket, DispatcherSpec.Response(h.server, h.client, h.id, payload));
    }
  }

  /** The predicate is about the writer and what was sent. */
  lemma WrittenElsewhere(w: World, u: World, socket: Socket)
    requires Written(w, socket) && u.sent == w.sent && u.wrote == w.wrote && u.writes == w.writes
    requires u.blocked ==> w.blocked
    ensures Written(u, socket)
  {
  }

  lemma ArrivalWritten(cfg: ServerConfig, w: World, socket: Socket, h: Header, accepted: bool, acts: seq<Act>)
    requires cfg.timeWait.maxConnections != 0 && Written(w, socket)
    ensures Written(ProcessPacket(cfg, w, socket, h, accepted, acts), socket)
  {
    hide Written, PerformAll, HandOver, T.AddId, T.Has;
    var o := w.(sessions := w.sessions[h.id := w.created], created := w.created + 1);
    var e := w.(tw := T.AddId(cfg.timeWait, w.tw, h.id, cfg.highestVersion, None, w.tw.clock));
    WrittenElsewhere(w, o, socket);
    WrittenElsewhere(w, e, socket);
    WrittenElsewhere(w, w.(tw := T.AddId(cfg.timeWait, w.tw, h.id, h.version, None, w.tw.clock)), socket);
    PerformAllWritten(cfg, w, socket, acts);
    PerformAllWritten(cfg, o, socket, acts);
    AddHas(cfg.timeWait, w.tw, h.id, cfg.highestVersion, None, w.tw.clock);
    HandOverWritten(e, socket, h);
    if T.Has(w.tw.list, h.id) { HandOverWritten(w, socket, h); }
  }

  lemma AdvanceWritten(cfg: ServerConfig, socket: Socket, w: World, step: Step)
    requires cfg.timeWait.maxConnections != 0 && Written(w, socket)
    ensures Written(Advance(cfg, socket, w, step), socket)
  {
    hide Written, PerformAll, ServeAll, ProcessPacket, T.CleanUp;
    var u := Tick(w, step.elapsed);
    WrittenElsewhere(w, u, socket);
    WrittenElsewhere(w, u.(blocked := false), socket);
    match step {
      case Arrival(h, accepted, acts, _) => ArrivalWritten(cfg, u, socket, h, accepted, acts);
      case Writable(replies, _) => ServeAllWritten(cfg, u.(blocked := false), socket, replies, 0);
      case CleanUpAlarm(_) =>
        WrittenElsewhere(u, u.(tw := T.CleanUp(cfg.timeWait, u.tw, u.tw.clock)), socket);
      case DeleteAlarm(_) => WrittenElsewhere(u, DeleteSessions(u).(deleteAlarm := None), socket);
      case ConnectionAlarm(acts, _) => PerformAllWritten(cfg, u, socket, acts);
    }
  }

  lemma {:induction false} RunWritten(cfg: ServerConfig, socket: Socket, w: World, steps: seq<Step>)
    requires cfg.timeWait.maxConnections != 0 && Written(w, socket)
    ensures Written(Run(cfg, socket, w, steps), socket)
    decreases |steps|
  {
    if steps != [] {
      hide Advance, Written;
      AdvanceWritten(cfg, socket, w, steps[0]);
      RunWritten(cfg, socket, Advance(cfg, socket, w, steps[0]), steps[1..]);
    }
  }

  /**
   Over every run, the responses sent are the first of those generated, each by a write of its own that the socket did
   not block, in increasing order; and the writer is blocked only if the socket blocked its last write.
   */
  lemma SentIsWritten(cfg: ServerConfig, socket: Socket, now: int, steps: seq<Step>)
    requires cfg.timeWait.maxConnections != 0
    ensures var w := Run(cfg, socket, Start(cfg, now), steps);
            && w.sent <= w.generated && |w.wrote| == |w.sent|
            && (forall i :: 0 <= i < |w.wrote| ==> w.wrote[i] < w.writes && !socket(w.wrote[i]).Blocked?)
            && (forall i, j :: 0 <= i < j < |w.wrote| ==> w.wrote[i] < w.wrote[j])
            && (w.blocked ==> w.writes > 0 && socket(w.writes - 1).Blocked?)
  {
    RunWritten(cfg, socket, Start(cfg, now), steps);
    ResponsesLeaveInOrder(cfg, socket, now, steps);
  }
}
