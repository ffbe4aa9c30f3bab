/**
 Whatever the server does, its time-wait list goes through a run of its own, and the responses the server
 generates are the answers of that run. So what holds of those runs holds of the server.
 */
module DispatcherBackoff {
  import opened Sequences
  import opened Backoff
  import opened DispatcherSpec
  import opened DispatcherProofs
  import opened T = TimeWaitSpec

  /** How many of the responses are for `id`. */
  function ResponsesTo(responses: seq<DispatcherSpec.Response>, id: ConnectionId): nat {
    if responses == [] then 0
    else
      var most, last := responses[..|responses| - 1], responses[|responses| - 1];
      ResponsesTo(most, id) + (if last.id == id then 1 else 0)
  }

  /** How many packets for `id` get to the time-wait manager over the steps. */
  ghost function PacketsInTimeWait(cfg: ServerConfig, socket: Socket, w: World, steps: seq<DispatcherProofs.Step>,
                                   id: ConnectionId): nat
    requires cfg.timeWait.maxConnections != 0
    decreases |steps|
  {
    if steps == [] then 0
    else
      var step := steps[0];
      (if step.Arrival? && step.header.id == id && Reaches(Tick(w, step.elapsed), step.header) then 1 else 0)
      + PacketsInTimeWait(cfg, socket, DispatcherProofs.Advance(cfg, socket, w, step), steps[1..], id)
  }

  /** From `w` to `u` the list goes through `ts`, in which `packets` arrive for `id` and are answered as in `u`. */
  ghost predicate Follows(cfg: ServerConfig, w: World, u: World, ts: seq<T.Step>, id: ConnectionId, packets: nat)
    requires cfg.timeWait.maxConnections != 0
  {
    && T.Run(cfg.timeWait, w.tw, ts) == u.tw
    && Arrivals(ts, id) == packets
    && ResponsesTo(u.generated, id) == ResponsesTo(w.generated, id) + Answers(cfg.timeWait, w.tw, ts, id)
  }

  /** If `id` is in the list before and after one handler, then it is all through it. */
  ghost predicate Keeps(cfg: ServerConfig, w: World, u: World, ts: seq<T.Step>, id: ConnectionId)
    requires cfg.timeWait.maxConnections != 0
  {
    Has(w.tw.list, id) && Has(u.tw.list, id) ==> HeldThroughout(cfg.timeWait, w.tw, ts, id)
  }

  lemma FollowsOn(cfg: ServerConfig, w: World, v: World, u: World, a: seq<T.Step>, b: seq<T.Step>, id: ConnectionId,
                  m: nat, n: nat)
    requires cfg.timeWait.maxConnections != 0 && Follows(cfg, w, v, a, id, m) && Follows(cfg, v, u, b, id, n)
    ensures Follows(cfg, w, u, a + b, id, m + n)
    ensures (Keeps(cfg, w, v, a, id) && Keeps(cfg, v, u, b, id) &&
             (Has(w.tw.list, id) && Has(u.tw.list, id) ==> Has(v.tw.list, id))) ==> Keeps(cfg, w, u, a + b, id)
    ensures HeldThroughout(cfg.timeWait, w.tw, a, id) && HeldThroughout(cfg.timeWait, v.tw, b, id) ==>
              HeldThroughout(cfg.timeWait, w.tw, a + b, id)
  {
    RunConcat(cfg.timeWait, w.tw, a, b);
    AnswersConcat(cfg.timeWait, w.tw, a, b, id);
    if HeldThroughout(cfg.timeWait, w.tw, a, id) && HeldThroughout(cfg.timeWait, v.tw, b, id) {
      HeldConcat(cfg.timeWait, w.tw, a, b, id);
    }
  }

  // ---------- an id that leaves the list does not come back in the same handler ----------

  lemma {:induction false} PerformAllKeepsOut(cfg: ServerConfig, w: World, socket: Socket, acts: seq<Act>,
                                              id: ConnectionId)
    requires Core(cfg, w) && Awaited(w) && id !in w.sessions
    ensures id !in PerformAll(cfg, w, socket, acts).sessions
    ensures !Has(w.tw.list, id) ==> !Has(PerformAll(cfg, w, socket, acts).tw.list, id)
    decreases |acts|
  {
    if acts != [] {
      if acts[0].Close? && acts[0].id in w.sessions {
        AddKeepsInv(cfg.timeWait, w.tw, acts[0].id, acts[0].version, acts[0].closePacket, w.tw.clock);
      }
      PerformKeeps(cfg, w, socket, acts[0]);
      PerformAllKeepsOut(cfg, Perform(cfg, w, socket, acts[0]), socket, acts[1..], id);
    }
  }

  lemma ServeKeepsOut(cfg: ServerConfig, w: World, socket: Socket, acts: seq<Act>, id: ConnectionId)
    requires Core(cfg, w) && Awaited(w) && w.queue != [] && id !in w.sessions
    ensures id !in Serve(cfg, w, socket, acts).sessions
    ensures !Has(w.tw.list, id) ==> !Has(Serve(cfg, w, socket, acts).tw.list, id)
  {
    hide Core, Has;
    var u := w.(queue := w.queue[1..], called := w.called + [w.queue[0]]);
    PopKeeps(cfg, w);
    if w.queue[0].TimeWaitManager? {
      DrainLeaves(u, socket);
    } else {
      PerformAllKeepsOut(cfg, u, socket, acts, id);
    }
  }

  lemma {:induction false} ServeAllKeepsOut(cfg: ServerConfig, w: World, socket: Socket,
                                            replies: nat -> seq<Act>, k: nat, id: ConnectionId)
    requires Core(cfg, w) && Awaited(w) && id !in w.sessions && !Has(w.tw.list, id)
    ensures !Has(ServeAll(cfg, w, socket, replies, k).tw.list, id)
    decreases if w.blocked then 0 else 1 + |w.queue|
  {
    if w.queue != [] && !w.blocked {
      ServeKeepsOut(cfg, w, socket, replies(k), id);
      ServeKeeps(cfg, w, socket, replies(k));
      ServeAllKeepsOut(cfg, Serve(cfg, w, socket, replies(k)), socket, replies, k + 1, id);
    }
  }

  // ---------- one handler ----------

  lemma EnterFollows(cfg: ServerConfig, w: World, u: World, x: ConnectionId, version: Version,
                     closePacket: Option<Bytes>, id: ConnectionId) returns (ts: seq<T.Step>)
    requires cfg.timeWait.maxConnections != 0 && u.generated == w.generated
    requires u.tw == AddId(cfg.timeWait, w.tw, x, version, closePacket, w.tw.clock)
    ensures Follows(cfg, w, u, ts, id, 0) && Keeps(cfg, w, u, ts, id)
  {
    ts := [T.Enter(x, version, closePacket, 0)];
    assert ts[1..] == [];
  }

  lemma {:induction false} PerformAllFollows(cfg: ServerConfig, w: World, socket: Socket, acts: seq<Act>,
                                             id: ConnectionId)
    returns (ts: seq<T.Step>)
    requires Core(cfg, w) && Awaited(w)
    ensures Follows(cfg, w, PerformAll(cfg, w, socket, acts), ts, id, 0)
    ensures Keeps(cfg, w, PerformAll(cfg, w, socket, acts), ts, id)
    decreases |acts|
  {
    ts := [];
    if acts != [] {
      var u := Perform(cfg, w, socket, acts[0]);
      PerformKeeps(cfg, w, socket, acts[0]);
      ts := PerformAllFollows(cfg, u, socket, acts[1..], id);
      if acts[0].Close? && acts[0].id in w.sessions {
        if Has(w.tw.list, id) { PerformAllKeepsOut(cfg, u, socket, acts[1..], id); }
        var step := EnterFollows(cfg, w, u, acts[0].id, acts[0].version, acts[0].closePacket, id);
        FollowsOn(cfg, w, u, PerformAll(cfg, u, socket, acts[1..]), step, ts, id, 0, 0);
        ts := step + ts;
      }
    }
  }

  lemma ServeFollows(cfg: ServerConfig, w: World, socket: Socket, acts: seq<Act>, id: ConnectionId)
    returns (ts: seq<T.Step>)
    requires Core(cfg, w) && Awaited(w) && w.queue != []
    ensures Follows(cfg, w, Serve(cfg, w, socket, acts), ts, id, 0)
    ensures Keeps(cfg, w, Serve(cfg, w, socket, acts), ts, id)
  {
    var u := w.(queue := w.queue[1..], called := w.called + [w.queue[0]]);
    PopKeeps(cfg, w);
    hide Core;
    ts := [];
    if w.queue[0].TimeWaitManager? {
      DrainLeaves(u, socket);
    } else {
      ts := PerformAllFollows(cfg, u, socket, acts, id);
    }
  }

  lemma {:induction false} ServeAllFollows(cfg: ServerConfig, w: World, socket: Socket,
                                           replies: nat -> seq<Act>, k: nat, id: ConnectionId) returns (ts: seq<T.Step>)
    requires Core(cfg, w) && Awaited(w)
    ensures Follows(cfg, w, ServeAll(cfg, w, socket, replies, k), ts, id, 0)
    ensures Keeps(cfg, w, ServeAll(cfg, w, socket, replies, k), ts, id)
    decreases if w.blocked then 0 else 1 + |w.queue|
  {
    ts := [];
    if w.queue != [] && !w.blocked {
      var v := Serve(cfg, w, socket, replies(k));
      if Has(w.tw.list, id) { ServeKeepsOut(cfg, w, socket, replies(k), id); }
      ServeKeeps(cfg, w, socket, replies(k));
      if id !in v.sessions && !Has(v.tw.list, id) { ServeAllKeepsOut(cfg, v, socket, replies, k + 1, id); }
      ts := ServeFollows(cfg, w, socket, replies(k), id);
      var rest := ServeAllFollows(cfg, v, socket, replies, k + 1, id);
      FollowsOn(cfg, w, v, ServeAll(cfg, v, socket, replies, k + 1), ts, rest, id, 0, 0);
      ts := ts + rest;
    }
  }

  lemma SendOrQueueGenerates(w: World, socket: Socket, p: DispatcherSpec.Response, id: ConnectionId)
    ensures SendOrQueue(w, socket, p).tw == w.tw
    ensures ResponsesTo(SendOrQueue(w, socket, p).generated, id)
         == ResponsesTo(w.generated, id) + (if p.id == id then 1 else 0)
  {
    assert (w.generated + [p])[..|w.generated|] == w.generated;
  }

  lemma ProcessInTimeWaitGenerates(w: World, socket: Socket, h: Header, sequenceNumber: nat, id: ConnectionId)
    requires Has(w.tw.list, h.id)
    ensures var u := ProcessInTimeWait(w, socket, h, sequenceNumber);
            && u.tw == Receive(w.tw, h.id)
            && ResponsesTo(u.generated, id) == ResponsesTo(w.generated, id)
                 + (if h.id == id && ShouldSendResponse(Get(w.tw.list, h.id).numPackets + 1) then 1 else 0)
  {
    hide SendOrQueue, ShouldSendResponse, ResponsesTo, Has, Receive;
    var r := Get(w.tw.list, h.id);
    var payload := if r.closePacket.Some? then CloseCopy(r.closePacket.value) else PublicReset(sequenceNumber);
    SendOrQueueGenerates(w.(tw := Receive(w.tw, h.id)), socket,
                         DispatcherSpec.Response(h.server, h.client, h.id, payload), id);
  }

  lemma OnePacket(cfg: Config, t: TimeWait, x: ConnectionId, id: ConnectionId)
    requires cfg.maxConnections != 0 && Has(t.list, x)
    ensures var ts := [T.Packet(x, 0)];
            && T.Run(cfg, t, ts) == Receive(t, x)
            && Arrivals(ts, id) == (if x == id then 1 else 0)
            && Answers(cfg, t, ts, id) ==
               (if x == id && ShouldSendResponse(Get(t.list, x).numPackets + 1) then 1 else 0)
  {
    assert [T.Packet(x, 0)][1..] == [];
    assert Arrivals([], id) == 0;
  }

  lemma PacketIsHeld(cfg: Config, t: TimeWait, x: ConnectionId, id: ConnectionId)
    requires cfg.maxConnections != 0 && UniqueIds(t.list)
    ensures Has(Receive(t, x).list, id) <==> Has(t.list, id)
    ensures Has(t.list, id) ==> HeldThroughout(cfg, t, [T.Packet(x, 0)], id)
  {
    hide Has;
    CountFacts(t.list, x);
    assert [T.Packet(x, 0)][1..] == [];
  }

  lemma HandOverFollows(cfg: ServerConfig, w: World, socket: Socket, h: Header, id: ConnectionId)
    returns (ts: seq<T.Step>)
    requires DispatcherProofs.Inv(cfg, w) && Has(w.tw.list, h.id)
    ensures Follows(cfg, w, HandOver(w, socket, h), ts, id,
                    if !h.reset && h.sequenceNumber.Some? && h.id == id then 1 else 0)
    ensures Keeps(cfg, w, HandOver(w, socket, h), ts, id)
    ensures Has(HandOver(w, socket, h).tw.list, id) <==> Has(w.tw.list, id)
  {
    hide DispatcherProofs.Inv, HeldThroughout, ProcessInTimeWait, ShouldSendResponse, ResponsesTo, Has, Get, Receive,
      Arrivals, Answers, T.Run, UniqueIds, T.Inv;
    TimeWaitFacts(cfg, w);
    ts := [];
    if h.reset || h.sequenceNumber.None? {
      NothingFollows(cfg, w, id);
    } else {
      PacketIsHeld(cfg.timeWait, w.tw, h.id, id);
      ts := [T.Packet(h.id, 0)];
      OnePacket(cfg.timeWait, w.tw, h.id, id);
      ProcessInTimeWaitGenerates(w, socket, h, h.sequenceNumber.value, id);
    }
  }

  lemma ArrivalFollows(cfg: ServerConfig, w: World, socket: Socket, h: Header, accepted: bool, acts: seq<Act>,
                       id: ConnectionId) returns (ts: seq<T.Step>)
    requires DispatcherProofs.Inv(cfg, w)
    ensures Follows(cfg, w, ProcessPacket(cfg, w, socket, h, accepted, acts), ts, id,
                    if Reaches(w, h) && h.id == id then 1 else 0)
    ensures Keeps(cfg, w, ProcessPacket(cfg, w, socket, h, accepted, acts), ts, id)
  {
    assert cfg.timeWait.maxConnections != 0 && Awaited(w);
    hide AddId, Has, Follows, HandOver, PerformAll, HeldThroughout, Core;
    var u := ProcessPacket(cfg, w, socket, h, accepted, acts);
    if !h.clientPortIsZero && h.id in w.sessions {
      ts := PerformAllFollows(cfg, w, socket, acts, id);
    } else if !h.clientPortIsZero && Has(w.tw.list, h.id) {
      ts := HandOverFollows(cfg, w, socket, h, id);
    } else if !h.clientPortIsZero && !h.reset && !h.hasVersion {
      var v := w.(tw := AddId(cfg.timeWait, w.tw, h.id, cfg.highestVersion, None, w.tw.clock));
      AddHas(cfg.timeWait, w.tw, h.id, cfg.highestVersion, None, w.tw.clock);
      EnterKeeps(cfg, w, h.id, cfg.highestVersion);
      ts := EnterFollows(cfg, w, v, h.id, cfg.highestVersion, None, id);
      var rest := HandOverFollows(cfg, v, socket, h, id);
      FollowsOn(cfg, w, v, u, ts, rest, id, 0, if Reaches(w, h) && h.id == id then 1 else 0);
      ts := ts + rest;
    } else if !h.clientPortIsZero && !h.reset && accepted {
      var v := w.(sessions := w.sessions[h.id := w.created], created := w.created + 1);
      OpenKeeps(cfg, w, h.id);
      ts := PerformAllFollows(cfg, v, socket, acts, id);
      SameListFollows(cfg, w, v, u, ts, id);
    } else if !h.clientPortIsZero && !h.reset && h.versionSupported {
      ts := EnterFollows(cfg, w, u, h.id, h.version, None, id);
    } else {
      ts := [];
      NothingFollows(cfg, w, id);
    }
  }

  lemma NothingFollows(cfg: ServerConfig, w: World, id: ConnectionId)
    requires cfg.timeWait.maxConnections != 0
    ensures Follows(cfg, w, w, [], id, 0) && Keeps(cfg, w, w, [], id)
  {
  }

  lemma SameListFollows(cfg: ServerConfig, w: World, v: World, u: World, ts: seq<T.Step>, id: ConnectionId)
    requires cfg.timeWait.maxConnections != 0 && w.tw == v.tw && w.generated == v.generated
    requires Follows(cfg, v, u, ts, id, 0) && Keeps(cfg, v, u, ts, id)
    ensures Follows(cfg, w, u, ts, id, 0) && Keeps(cfg, w, u, ts, id)
  {
  }

  lemma TickFollows(cfg: ServerConfig, w: World, elapsed: nat, id: ConnectionId) returns (ts: seq<T.Step>)
    requires cfg.timeWait.maxConnections != 0
    ensures Follows(cfg, w, Tick(w, elapsed), ts, id, 0) && Keeps(cfg, w, Tick(w, elapsed), ts, id)
  {
    ts := [T.Idle(elapsed)];
    assert ts[1..] == [];
  }

  lemma CleanUpFollows(cfg: ServerConfig, w: World, id: ConnectionId) returns (ts: seq<T.Step>)
    requires cfg.timeWait.maxConnections != 0
    ensures var u := if w.tw.deadline <= w.tw.clock then w.(tw := CleanUp(cfg.timeWait, w.tw, w.tw.clock)) else w;
            Follows(cfg, w, u, ts, id, 0) && Keeps(cfg, w, u, ts, id)
  {
    ts := [T.AlarmRound(0)];
    assert ts[1..] == [];
    assert ResponsesTo(w.generated, id) + 0 == ResponsesTo(w.generated, id);
  }

  lemma AdvanceFollows(cfg: ServerConfig, socket: Socket, w: World, step: DispatcherProofs.Step, id: ConnectionId)
    returns (ts: seq<T.Step>)
    requires DispatcherProofs.Inv(cfg, w)
    ensures var reaches := step.Arrival? && Reaches(Tick(w, step.elapsed), step.header) && step.header.id == id;
            Follows(cfg, w, DispatcherProofs.Advance(cfg, socket, w, step), ts, id, if reaches then 1 else 0)
    ensures Keeps(cfg, w, DispatcherProofs.Advance(cfg, socket, w, step), ts, id)
  {
    var u := Tick(w, step.elapsed);
    assert DispatcherProofs.Inv(cfg, u) && cfg.timeWait.maxConnections != 0;
    assert Core(cfg, u.(blocked := false)) && Awaited(u.(blocked := false));
    hide Follows, CleanUp, ProcessPacket, PerformAll, ServeAll, Has, HeldThroughout, Core;
    var v := DispatcherProofs.Advance(cfg, socket, w, step);
    var packets := if step.Arrival? && Reaches(u, step.header) && step.header.id == id then 1 else 0;
    var idle := TickFollows(cfg, w, step.elapsed, id);
    match step {
      case Arrival(h, accepted, acts, _) => ts := ArrivalFollows(cfg, u, socket, h, accepted, acts, id);
      case Writable(replies, _) =>
        ts := ServeAllFollows(cfg, u.(blocked := false), socket, replies, 0, id);
        SameListFollows(cfg, u, u.(blocked := false), v, ts, id);
      case CleanUpAlarm(_) => ts := CleanUpFollows(cfg, u, id);
      case DeleteAlarm(_) =>
        ts := [];
        NothingFollows(cfg, v, id);
        SameListFollows(cfg, u, v, v, ts, id);
      case ConnectionAlarm(acts, _) => ts := PerformAllFollows(cfg, u, socket, acts, id);
    }
    FollowsOn(cfg, w, u, v, idle, ts, id, 0, packets);
    ts := idle + ts;
  }

  // ---------- whole runs ----------

  /** `id` is in time-wait at the start and after every step. */
  ghost predicate Resident(cfg: ServerConfig, socket: Socket, w: World, steps: seq<DispatcherProofs.Step>,
                           id: ConnectionId)
    requires cfg.timeWait.maxConnections != 0
    decreases |steps|
  {
    Has(w.tw.list, id) &&
    (steps != [] ==> Resident(cfg, socket, DispatcherProofs.Advance(cfg, socket, w, steps[0]), steps[1..], id))
  }

  lemma {:induction false} RunFollows(cfg: ServerConfig, socket: Socket, w: World, steps: seq<DispatcherProofs.Step>,
                                      id: ConnectionId) returns (ts: seq<T.Step>)
    requires DispatcherProofs.Inv(cfg, w)
    ensures Follows(cfg, w, DispatcherProofs.Run(cfg, socket, w, steps), ts, id,
                    PacketsInTimeWait(cfg, socket, w, steps, id))
    ensures Resident(cfg, socket, w, steps, id) ==> HeldThroughout(cfg.timeWait, w.tw, ts, id)
    decreases |steps|
  {
    assert cfg.timeWait.maxConnections != 0;
    if steps == [] {
      ts := [];
      NothingFollows(cfg, w, id);
    } else {
      hide Follows, DispatcherProofs.Advance, Reaches, DispatcherProofs.Inv, Has, HeldThroughout;
      var v := DispatcherProofs.Advance(cfg, socket, w, steps[0]);
      var u := DispatcherProofs.Run(cfg, socket, v, steps[1..]);
      var packets := PacketsInTimeWait(cfg, socket, v, steps[1..], id);
      AdvanceKeeps(cfg, socket, w, steps[0]);
      ts := AdvanceFollows(cfg, socket, w, steps[0], id);
      var rest := RunFollows(cfg, socket, v, steps[1..], id);
      FollowsOn(cfg, w, v, u, ts, rest, id, PacketsInTimeWait(cfg, socket, w, steps, id) - packets, packets);
      ts := ts + rest;
    }
  }

  /**
   In any run of the server, the packets for an id resident in time-wait draw those responses that fall on powers of
   two, counted from its entry.
   */
  lemma ServerBacksOff(cfg: ServerConfig, socket: Socket, w: World, steps: seq<DispatcherProofs.Step>, id: ConnectionId)
    requires DispatcherProofs.Inv(cfg, w) && Resident(cfg, socket, w, steps, id)
    ensures var u, n := DispatcherProofs.Run(cfg, socket, w, steps), PacketsInTimeWait(cfg, socket, w, steps, id);
            var before := Get(w.tw.list, id).numPackets;
            && Has(u.tw.list, id) && Get(u.tw.list, id).numPackets == before + n
            && ResponsesTo(u.generated, id) == ResponsesTo(w.generated, id) + Responses(before + n) - Responses(before)
  {
    hide *;
    TimeWaitFacts(cfg, w);
    var ts := RunFollows(cfg, socket, w, steps, id);
    FollowsCounts(cfg, w, DispatcherProofs.Run(cfg, socket, w, steps), ts, id,
                  PacketsInTimeWait(cfg, socket, w, steps, id));
  }

  lemma FollowsCounts(cfg: ServerConfig, w: World, u: World, ts: seq<T.Step>, id: ConnectionId, packets: nat)
    requires cfg.timeWait.maxConnections != 0 && T.Inv(cfg.timeWait, w.tw)
    requires Follows(cfg, w, u, ts, id, packets) && HeldThroughout(cfg.timeWait, w.tw, ts, id)
    ensures Has(w.tw.list, id) && Has(u.tw.list, id)
    ensures var before := Get(w.tw.list, id).numPackets;
            && Get(u.tw.list, id).numPackets == before + packets
            && ResponsesTo(u.generated, id) ==
               ResponsesTo(w.generated, id) + Responses(before + packets) - Responses(before)
  {
    hide T.Inv, ResponsesTo, Responses, Answers, Arrivals, T.Run, Get;
    AnswersFollowTheCount(cfg.timeWait, w.tw, ts, id);
  }

  /** The step in which an id enters time-wait: the packet that brought it there, if one did, is its first. */
  lemma EntryIsCounted(cfg: ServerConfig, socket: Socket, w: World, step: DispatcherProofs.Step, id: ConnectionId)
    requires DispatcherProofs.Inv(cfg, w) && !Has(w.tw.list, id)
    requires Has(DispatcherProofs.Advance(cfg, socket, w, step).tw.list, id)
    ensures var u, n := DispatcherProofs.Advance(cfg, socket, w, step), PacketsInTimeWait(cfg, socket, w, [step], id);
            && n <= 1 && Get(u.tw.list, id).numPackets == n
            && ResponsesTo(u.generated, id) == ResponsesTo(w.generated, id) + Responses(n)
  {
    TimeWaitFacts(cfg, w);
    TickKeeps(cfg, w, step.elapsed);
    hide Has, Get, DispatcherProofs.Inv, Reaches;
    assert [step][1..] == [];
    var v, u := Tick(w, step.elapsed), DispatcherProofs.Advance(cfg, socket, w, step);
    if step.Arrival? && step.header.id == id && Reaches(v, step.header) {
      EntersByPacket(cfg, socket, v, step.header, step.accepted, step.acts);
    } else {
      EntersWithout(cfg, socket, w, step, id);
    }
  }

  lemma EntersWithout(cfg: ServerConfig, socket: Socket, w: World, step: DispatcherProofs.Step, id: ConnectionId)
    requires DispatcherProofs.Inv(cfg, w) && !Has(w.tw.list, id)
    requires !(step.Arrival? && Reaches(Tick(w, step.elapsed), step.header) && step.header.id == id)
    ensures var u := DispatcherProofs.Advance(cfg, socket, w, step);
            && (Has(u.tw.list, id) ==> Get(u.tw.list, id).numPackets == 0)
            && ResponsesTo(u.generated, id) == ResponsesTo(w.generated, id)
  {
    var ts := AdvanceFollows(cfg, socket, w, step, id);
    UncountedStaysUncounted(cfg.timeWait, w.tw, ts, id);
  }

  lemma EntersByPacket(cfg: ServerConfig, socket: Socket, w: World, h: Header, accepted: bool, acts: seq<Act>)
    requires DispatcherProofs.Inv(cfg, w) && !Has(w.tw.list, h.id) && Reaches(w, h)
    ensures var u := ProcessPacket(cfg, w, socket, h, accepted, acts);
            && Has(u.tw.list, h.id) && Get(u.tw.list, h.id).numPackets == 1
            && ResponsesTo(u.generated, h.id) == ResponsesTo(w.generated, h.id) + 1
  {
    TimeWaitFacts(cfg, w);
    hide Has, Get, HandOver, DispatcherProofs.Inv, AddId;
    var t := w.tw;
    var v := w.(tw := AddId(cfg.timeWait, t, h.id, cfg.highestVersion, None, t.clock));
    EnterKeeps(cfg, w, h.id, cfg.highestVersion);
    AddHas(cfg.timeWait, t, h.id, cfg.highestVersion, None, t.clock);
    EntersUncounted(cfg.timeWait, t, T.Enter(h.id, cfg.highestVersion, None, 0), h.id);
    FirstPacket(cfg, v, socket, h);
  }

  lemma FirstPacket(cfg: ServerConfig, w: World, socket: Socket, h: Header)
    requires DispatcherProofs.Inv(cfg, w) && Has(w.tw.list, h.id) && Get(w.tw.list, h.id).numPackets == 0
    requires !h.reset && h.sequenceNumber.Some?
    ensures var u := HandOver(w, socket, h);
            && Has(u.tw.list, h.id) && Get(u.tw.list, h.id).numPackets == 1
            && ResponsesTo(u.generated, h.id) == ResponsesTo(w.generated, h.id) + 1
  {
    hide Has, Get, ProcessInTimeWait, DispatcherProofs.Inv, ResponsesTo, ShouldSendResponse, T.Inv, UniqueIds, Count;
    TimeWaitFacts(cfg, w);
    ProcessInTimeWaitGenerates(w, socket, h, h.sequenceNumber.value, h.id);
    FirstIsAnswered();
    PacketIsCounted(cfg.timeWait, w.tw, h.id);
  }

  lemma PacketIsCounted(cfg: Config, t: TimeWait, id: ConnectionId)
    requires cfg.maxConnections != 0 && T.Inv(cfg, t) && Has(t.list, id)
    ensures Has(Receive(t, id).list, id) && Get(Receive(t, id).list, id).numPackets == Get(t.list, id).numPackets + 1
  {
    hide Has, Get, UniqueIds, InOrder, Count;
    CountFacts(t.list, id);
    StepCounts(cfg, t, T.Packet(id, 0), id);
  }

  lemma TimeWaitFacts(cfg: ServerConfig, w: World)
    requires DispatcherProofs.Inv(cfg, w)
    ensures cfg.timeWait.maxConnections != 0 && T.Inv(cfg.timeWait, w.tw) && UniqueIds(w.tw.list)
  {
  }

  lemma TickKeeps(cfg: ServerConfig, w: World, elapsed: nat)
    requires DispatcherProofs.Inv(cfg, w)
    ensures DispatcherProofs.Inv(cfg, Tick(w, elapsed))
  {
  }

  lemma FirstIsAnswered()
    ensures ShouldSendResponse(1) && Responses(1) == 1
  {
    assert Responses(0) == 0;
  }

  /**
   In any run of the server, the first `n` packets for an id, counted from whatever brought it into time-wait, draw
   floor(log2 n) + 1 responses while it is resident.
   */
  lemma ServerBacksOffFromEntry(cfg: ServerConfig, socket: Socket, w: World, entry: DispatcherProofs.Step,
                                steps: seq<DispatcherProofs.Step>, id: ConnectionId)
    requires DispatcherProofs.Inv(cfg, w) && !Has(w.tw.list, id)
    requires Resident(cfg, socket, DispatcherProofs.Advance(cfg, socket, w, entry), steps, id)
    ensures var u := DispatcherProofs.Run(cfg, socket, w, [entry] + steps);
            var n := PacketsInTimeWait(cfg, socket, w, [entry] + steps, id);
            && ResponsesTo(u.generated, id) == ResponsesTo(w.generated, id) + Responses(n)
            && (n >= 1 ==> ResponsesTo(u.generated, id) == ResponsesTo(w.generated, id) + Log2(n) + 1)
  {
    hide *;
    TimeWaitFacts(cfg, w);
    EntryFirst(cfg, socket, w, entry, steps, id);
    AdvanceKeeps(cfg, socket, w, entry);
    EntryIsCounted(cfg, socket, w, entry, id);
    ServerBacksOff(cfg, socket, DispatcherProofs.Advance(cfg, socket, w, entry), steps, id);
    var n := PacketsInTimeWait(cfg, socket, w, [entry] + steps, id);
    if n >= 1 {
      ResponsesAreLogarithmic(n);
    }
  }

  lemma EntryFirst(cfg: ServerConfig, socket: Socket, w: World, entry: DispatcherProofs.Step,
                   steps: seq<DispatcherProofs.Step>, id: ConnectionId)
    requires cfg.timeWait.maxConnections != 0
    ensures var v := DispatcherProofs.Advance(cfg, socket, w, entry);
            && DispatcherProofs.Run(cfg, socket, w, [entry] + steps) == DispatcherProofs.Run(cfg, socket, v, steps)
            && PacketsInTimeWait(cfg, socket, w, [entry] + steps, id)
               == PacketsInTimeWait(cfg, socket, w, [entry], id) + PacketsInTimeWait(cfg, socket, v, steps, id)
            && (Resident(cfg, socket, v, steps, id) ==> Has(v.tw.list, id))
  {
    hide DispatcherProofs.Advance, Has, Reaches;
    assert ([entry] + steps)[1..] == steps && [entry][1..] == [];
  }
}
