/** What the responses in time-wait contain, over runs of the server. */
module DispatcherAnswers {
  import opened Sequences
  import opened Backoff
  import opened DispatcherSpec
  import opened DispatcherProofs
  import opened DispatcherBackoff
  import R = DispatcherReports
  import T = TimeWaitSpec

  /** The answer to a packet: what closed the connection, if that is known, or a reset that rejects the packet. */
  function Answer(h: Header, closePacket: Option<T.Bytes>): DispatcherSpec.Response
    requires h.sequenceNumber.Some?
  {
    DispatcherSpec.Response(h.server, h.client, h.id,
                            if closePacket.Some? then CloseCopy(closePacket.value)
                            else PublicReset(h.sequenceNumber.value))
  }

  /** The packets counted before this one for its id, and what closed the connection, as time-wait has them. */
  ghost function CountBefore(w: World, h: Header): nat {
    if T.Has(w.tw.list, h.id) then T.Get(w.tw.list, h.id).numPackets else 0
  }

  ghost function ClosedWith(w: World, h: Header): Option<T.Bytes> {
    if T.Has(w.tw.list, h.id) then T.Get(w.tw.list, h.id).closePacket else None
  }

  /** The responses that a packet draws: one, if it makes the count a power of two, or none. */
  ghost function Drawn(w: World, h: Header): seq<DispatcherSpec.Response> {
    if Reaches(w, h) && IsPowerOfTwo(CountBefore(w, h) + 1) then [Answer(h, ClosedWith(w, h))] else []
  }

  // ---------- what each step generates ----------

  lemma SendOrQueueAppends(w: World, socket: Socket, p: DispatcherSpec.Response)
    ensures SendOrQueue(w, socket, p).generated == w.generated + [p]
  {
  }

  lemma ProcessAnswers(w: World, socket: Socket, h: Header)
    requires T.Has(w.tw.list, h.id) && h.sequenceNumber.Some?
    ensures var r := T.Get(w.tw.list, h.id);
            ProcessInTimeWait(w, socket, h, h.sequenceNumber.value).generated == w.generated +
              (if IsPowerOfTwo(r.numPackets + 1) then [Answer(h, r.closePacket)] else [])
  {
    hide SendOrQueue, T.Has, T.Get, T.Receive, IsPowerOfTwo, ShouldSendResponse;
    var r := T.Get(w.tw.list, h.id);
    RespondsAtPowersOfTwo(r.numPackets + 1);
    SendOrQueueAppends(w.(tw := T.Receive(w.tw, h.id)), socket, Answer(h, r.closePacket));
  }

  lemma {:induction false} ServeAllGeneratesNothing(cfg: ServerConfig, w: World, socket: Socket,
                                                    replies: nat -> seq<Act>, k: nat)
    requires cfg.timeWait.maxConnections != 0
    ensures ServeAll(cfg, w, socket, replies, k).generated == w.generated
    decreases if w.blocked then 0 else 1 + |w.queue|
  {
    if w.queue != [] && !w.blocked {
      var u := w.(queue := w.queue[1..], called := w.called + [w.queue[0]]);
      DrainLeaves(u, socket);
      PerformAllCreatesNothing(cfg, u, socket, replies(k));
      ServeAllGeneratesNothing(cfg, Serve(cfg, w, socket, replies(k)), socket, replies, k + 1);
    }
  }

  lemma ArrivalGenerates(cfg: ServerConfig, w: World, socket: Socket, h: Header, accepted: bool, acts: seq<Act>)
    requires cfg.timeWait.maxConnections != 0 && T.Inv(cfg.timeWait, w.tw)
    ensures ProcessPacket(cfg, w, socket, h, accepted, acts).generated == w.generated + Drawn(w, h)
  {
    hide PerformAll, ProcessInTimeWait, T.AddId, T.Has, T.Get, IsPowerOfTwo, T.Inv;
    PerformAllCreatesNothing(cfg, w, socket, acts);
    var o := w.(sessions := w.sessions[h.id := w.created], created := w.created + 1);
    PerformAllCreatesNothing(cfg, o, socket, acts);
    if h.sequenceNumber.Some? {
      if T.Has(w.tw.list, h.id) {
        ProcessAnswers(w, socket, h);
      } else {
        var v := w.(tw := T.AddId(cfg.timeWait, w.tw, h.id, cfg.highestVersion, None, w.tw.clock));
        NewRecord(cfg, w, h.id, cfg.highestVersion, None);
        ProcessAnswers(v, socket, h);
      }
    }
  }

  lemma NewRecord(cfg: ServerConfig, w: World, id: T.ConnectionId, version: T.Version, closePacket: Option<T.Bytes>)
    requires cfg.timeWait.maxConnections != 0 && T.Inv(cfg.timeWait, w.tw) && !T.Has(w.tw.list, id)
    ensures var m := T.AddId(cfg.timeWait, w.tw, id, version, closePacket, w.tw.clock).list;
            T.Has(m, id) && T.Get(m, id) == T.Record(id, 0, version, w.tw.clock, closePacket)
  {
    T.AddFacts(cfg.timeWait, w.tw.list, id, version, closePacket, w.tw.clock);
  }

  /** In any state, a step generates exactly the response that its packet draws, if it is one, with these contents. */
  lemma AdvanceGenerates(cfg: ServerConfig, socket: Socket, w: World, step: Step)
    requires DispatcherProofs.Inv(cfg, w)
    ensures Advance(cfg, socket, w, step).generated ==
              w.generated + (if step.Arrival? then Drawn(Tick(w, step.elapsed), step.header) else [])
  {
    TickKeeps(cfg, w, step.elapsed);
    TimeWaitFacts(cfg, Tick(w, step.elapsed));
    hide DispatcherProofs.Inv, PerformAll, ServeAll, ProcessPacket, Drawn, T.Inv, T.CleanUp;
    var u := Tick(w, step.elapsed);
    match step {
      case Arrival(h, accepted, acts, _) => ArrivalGenerates(cfg, u, socket, h, accepted, acts);
      case Writable(replies, _) => ServeAllGeneratesNothing(cfg, u.(blocked := false), socket, replies, 0);
      case CleanUpAlarm(_) =>
      case DeleteAlarm(_) =>
      case ConnectionAlarm(acts, _) => PerformAllCreatesNothing(cfg, u, socket, acts);
    }
  }

  // ---------- a record in time-wait does not change but for its count ----------

  ghost predicate SameRecord(w: World, u: World, id: T.ConnectionId) {
    T.Has(w.tw.list, id) && T.Has(u.tw.list, id) ==>
      T.Get(u.tw.list, id) == T.Get(w.tw.list, id).(numPackets := T.Get(u.tw.list, id).numPackets)
  }

  lemma SameRecordTransitive(w: World, v: World, u: World, id: T.ConnectionId)
    requires SameRecord(w, v, id) && SameRecord(v, u, id)
    requires T.Has(w.tw.list, id) && T.Has(u.tw.list, id) ==> T.Has(v.tw.list, id)
    ensures SameRecord(w, u, id)
  {
  }

  lemma PerformKeepsRecord(cfg: ServerConfig, w: World, socket: Socket, act: Act, id: T.ConnectionId)
    requires Core(cfg, w)
    ensures SameRecord(w, Perform(cfg, w, socket, act), id)
  {
    if act.Close? && act.id in w.sessions {
      var u := Perform(cfg, w, socket, act);
      if T.Has(w.tw.list, id) && T.Has(u.tw.list, id) {
        T.EnterKeepsOthers(cfg.timeWait, w.tw, act.id, act.version, act.closePacket, w.tw.clock, id);
      }
    }
  }

  lemma {:induction false} PerformAllKeepsRecord(cfg: ServerConfig, w: World, socket: Socket, acts: seq<Act>,
                                                 id: T.ConnectionId)
    requires Core(cfg, w) && Awaited(w)
    ensures SameRecord(w, PerformAll(cfg, w, socket, acts), id)
    decreases |acts|
  {
    if acts != [] {
      var u := Perform(cfg, w, socket, acts[0]);
      var v := PerformAll(cfg, u, socket, acts[1..]);
      PerformKeeps(cfg, w, socket, acts[0]);
      PerformKeepsRecord(cfg, w, socket, acts[0], id);
      PerformAllKeepsRecord(cfg, u, socket, acts[1..], id);
      if T.Has(w.tw.list, id) {
        PerformKeepsOut(cfg, w, socket, acts[0], id);
        PerformAllKeepsOut(cfg, u, socket, acts[1..], id);
      }
      SameRecordTransitive(w, u, v, id);
    }
  }

  lemma PerformKeepsOut(cfg: ServerConfig, w: World, socket: Socket, act: Act, id: T.ConnectionId)
    requires Core(cfg, w) && T.Has(w.tw.list, id)
    ensures id !in Perform(cfg, w, socket, act).sessions && id !in w.sessions
  {
  }

  lemma ServeKeepsRecord(cfg: ServerConfig, w: World, socket: Socket, acts: seq<Act>, id: T.ConnectionId)
    requires Core(cfg, w) && Awaited(w) && w.queue != []
    ensures SameRecord(w, Serve(cfg, w, socket, acts), id)
  {
    PopKeeps(cfg, w);
    hide Core, T.Has, T.Get;
    var u := w.(queue := w.queue[1..], called := w.called + [w.queue[0]]);
    if w.queue[0].TimeWaitManager? {
      DrainLeaves(u, socket);
    } else {
      PerformAllKeepsRecord(cfg, u, socket, acts, id);
    }
  }

  lemma {:induction false} ServeAllKeepsRecord(cfg: ServerConfig, w: World, socket: Socket, replies: nat -> seq<Act>,
                                               k: nat, id: T.ConnectionId)
    requires Core(cfg, w) && Awaited(w)
    ensures SameRecord(w, ServeAll(cfg, w, socket, replies, k), id)
    decreases if w.blocked then 0 else 1 + |w.queue|
  {
    if w.queue != [] && !w.blocked {
      var v := Serve(cfg, w, socket, replies(k));
      ServeKeeps(cfg, w, socket, replies(k));
      ServeKeepsRecord(cfg, w, socket, replies(k), id);
      ServeAllKeepsRecord(cfg, v, socket, replies, k + 1, id);
      if T.Has(w.tw.list, id) {
        ServeKeepsOut(cfg, w, socket, replies(k), id);
        if !T.Has(v.tw.list, id) { ServeAllKeepsOut(cfg, v, socket, replies, k + 1, id); }
      }
      SameRecordTransitive(w, v, ServeAll(cfg, v, socket, replies, k + 1), id);
    }
  }

  lemma HandOverKeepsRecord(cfg: ServerConfig, w: World, socket: Socket, h: Header, id: T.ConnectionId)
    requires DispatcherProofs.Inv(cfg, w) && T.Has(w.tw.list, h.id)
    ensures SameRecord(w, HandOver(w, socket, h), id)
  {
    TimeWaitFacts(cfg, w);
    hide DispatcherProofs.Inv, HandOver, T.Has, T.Get, T.UniqueIds, T.Inv;
    HandOverCreatesNothing(w, socket, h);
    if T.Has(w.tw.list, id) { T.CountKeepsTheRest(w.tw.list, h.id, id); }
  }

  lemma ArrivalKeepsRecord(cfg: ServerConfig, w: World, socket: Socket, h: Header, accepted: bool, acts: seq<Act>,
                           id: T.ConnectionId)
    requires DispatcherProofs.Inv(cfg, w) && T.Has(w.tw.list, id)
    ensures SameRecord(w, ProcessPacket(cfg, w, socket, h, accepted, acts), id)
  {
    TimeWaitFacts(cfg, w);
    assert Core(cfg, w) && Awaited(w);
    hide PerformAll, HandOver, T.AddId, T.Has, T.Get, Core, Awaited, T.Inv, SameRecord, T.UniqueIds;
    NothingChanges(w, id);
    var u := ProcessPacket(cfg, w, socket, h, accepted, acts);
    if !h.clientPortIsZero && h.id in w.sessions {
      PerformAllKeepsRecord(cfg, w, socket, acts, id);
    } else if !h.clientPortIsZero && T.Has(w.tw.list, h.id) {
      HandOverKeepsRecord(cfg, w, socket, h, id);
    } else if !h.clientPortIsZero && !h.reset && !h.hasVersion {
      var v := w.(tw := T.AddId(cfg.timeWait, w.tw, h.id, cfg.highestVersion, None, w.tw.clock));
      AddHas(cfg.timeWait, w.tw, h.id, cfg.highestVersion, None, w.tw.clock);
      EnterKeeps(cfg, w, h.id, cfg.highestVersion);
      EnterKeepsRecord(cfg, w, h.id, cfg.highestVersion, id);
      HandOverKeepsRecord(cfg, v, socket, h, id);
      HandOverKeepsIds(cfg, v, socket, h, id);
      SameRecordTransitive(w, v, u, id);
    } else if !h.clientPortIsZero && !h.reset && accepted {
      var v := w.(sessions := w.sessions[h.id := w.created], created := w.created + 1);
      OpenKeeps(cfg, w, h.id);
      CoreOf(cfg, v);
      PerformAllKeepsRecord(cfg, v, socket, acts, id);
      SameRecordOf(w, v, u, id);
    } else if !h.clientPortIsZero && !h.reset && h.versionSupported {
      EnterKeepsRecord(cfg, w, h.id, h.version, id);
    }
  }

  lemma CoreOf(cfg: ServerConfig, w: World)
    requires DispatcherProofs.Inv(cfg, w)
    ensures Core(cfg, w) && Awaited(w)
  {
  }

  lemma NothingChanges(w: World, id: T.ConnectionId)
    ensures SameRecord(w, w, id)
  {
  }

  lemma SameRecordOf(w: World, v: World, u: World, id: T.ConnectionId)
    requires w.tw == v.tw && SameRecord(v, u, id)
    ensures SameRecord(w, u, id)
  {
  }

  lemma EnterKeepsRecord(cfg: ServerConfig, w: World, x: T.ConnectionId, version: T.Version, id: T.ConnectionId)
    requires DispatcherProofs.Inv(cfg, w) && !T.Has(w.tw.list, x)
    ensures SameRecord(w, w.(tw := T.AddId(cfg.timeWait, w.tw, x, version, None, w.tw.clock)), id)
  {
    var u := w.(tw := T.AddId(cfg.timeWait, w.tw, x, version, None, w.tw.clock));
    if T.Has(w.tw.list, id) && T.Has(u.tw.list, id) {
      T.EnterKeepsOthers(cfg.timeWait, w.tw, x, version, None, w.tw.clock, id);
    }
  }

  lemma HandOverKeepsIds(cfg: ServerConfig, w: World, socket: Socket, h: Header, id: T.ConnectionId)
    requires DispatcherProofs.Inv(cfg, w) && T.Has(w.tw.list, h.id)
    ensures T.Has(HandOver(w, socket, h).tw.list, id) <==> T.Has(w.tw.list, id)
  {
    TimeWaitFacts(cfg, w);
    hide DispatcherProofs.Inv, HandOver, T.Has, T.UniqueIds, T.Inv;
    HandOverCreatesNothing(w, socket, h);
    T.CountFacts(w.tw.list, h.id);
  }

  lemma AdvanceKeepsRecord(cfg: ServerConfig, socket: Socket, w: World, step: Step, id: T.ConnectionId)
    requires DispatcherProofs.Inv(cfg, w) && T.Has(w.tw.list, id)
    ensures SameRecord(w, Advance(cfg, socket, w, step), id)
  {
    var u := Tick(w, step.elapsed);
    TickKeeps(cfg, w, step.elapsed);
    TimeWaitFacts(cfg, u);
    assert Core(cfg, u.(blocked := false)) && Awaited(u.(blocked := false));
    CoreOf(cfg, u);
    hide DispatcherProofs.Inv, Core, Awaited, PerformAll, ServeAll, ProcessPacket, T.CleanUp, T.Has, T.Get, T.Inv;
    match step {
      case Arrival(h, accepted, acts, _) => ArrivalKeepsRecord(cfg, u, socket, h, accepted, acts, id);
      case Writable(replies, _) => ServeAllKeepsRecord(cfg, u.(blocked := false), socket, replies, 0, id);
      case CleanUpAlarm(_) =>
        var c := T.CleanUp(cfg.timeWait, u.tw, u.tw.clock);
        if T.Has(c.list, id) { T.CleanUpKeepsOthers(cfg.timeWait, u.tw, u.tw.clock, id); }
      case DeleteAlarm(_) =>
      case ConnectionAlarm(acts, _) => PerformAllKeepsRecord(cfg, u, socket, acts, id);
    }
  }

  // ---------- whole runs ----------

  /** `r` answers one of the packets of the steps, as `closePacket` has it. */
  ghost predicate AnswersOne(steps: seq<Step>, r: DispatcherSpec.Response, closePacket: Option<T.Bytes>) {
    exists i :: 0 <= i < |steps| && steps[i].Arrival? && steps[i].header.sequenceNumber.Some? &&
      r == Answer(steps[i].header, closePacket)
  }

  ghost predicate AllAnswer(responses: seq<DispatcherSpec.Response>, id: T.ConnectionId, steps: seq<Step>,
                            closePacket: Option<T.Bytes>) {
    forall r :: r in responses && r.id == id ==> AnswersOne(steps, r, closePacket)
  }

  lemma AllAnswerFirst(first: seq<DispatcherSpec.Response>, others: seq<DispatcherSpec.Response>, id: T.ConnectionId,
                       steps: seq<Step>, closePacket: Option<T.Bytes>)
    requires steps != [] && AllAnswer(others, id, steps[1..], closePacket)
    requires forall r :: r in first && r.id == id ==>
               steps[0].Arrival? && steps[0].header.sequenceNumber.Some? && r == Answer(steps[0].header, closePacket)
    ensures AllAnswer(first + others, id, steps, closePacket)
  {
    hide Answer;
    forall r | r in first + others && r.id == id ensures AnswersOne(steps, r, closePacket) {
      if r in others {
        var i :| 0 <= i < |steps[1..]| && steps[1..][i].Arrival? && steps[1..][i].header.sequenceNumber.Some? &&
          r == Answer(steps[1..][i].header, closePacket);
        assert steps[i + 1] == steps[1..][i];
      }
    }
  }

  /**
   Over any run in which an id is resident in time-wait, every response generated for it answers one of its packets:
   with a copy of what closed the connection, if its record holds that, and else with a reset of that packet's number.
   */
  lemma {:induction false} ResidentsAreAnswered(cfg: ServerConfig, socket: Socket, w: World, steps: seq<Step>,
                                                id: T.ConnectionId)
    requires DispatcherProofs.Inv(cfg, w) && Resident(cfg, socket, w, steps, id)
    ensures var u := Run(cfg, socket, w, steps);
            && w.generated <= u.generated
            && AllAnswer(u.generated[|w.generated|..], id, steps, T.Get(w.tw.list, id).closePacket)
    decreases |steps|
  {
    if steps != [] {
      hide DispatcherProofs.Inv, Advance, T.Has, T.Get, Drawn, Answer, AllAnswer, AnswersOne;
      TimeWaitFacts(cfg, w);
      var v := Advance(cfg, socket, w, steps[0]);
      var u := Run(cfg, socket, v, steps[1..]);
      StepIsAnswered(cfg, socket, w, steps[0], id);
      ResidentsAreAnswered(cfg, socket, v, steps[1..], id);
      var first, others := v.generated[|w.generated|..], u.generated[|v.generated|..];
      AllAnswerFirst(first, others, id, steps, T.Get(w.tw.list, id).closePacket);
      assert u.generated[|w.generated|..] == first + others;
    }
  }

  lemma StepIsAnswered(cfg: ServerConfig, socket: Socket, w: World, step: Step, id: T.ConnectionId)
    requires DispatcherProofs.Inv(cfg, w) && cfg.timeWait.maxConnections != 0
    requires T.Has(w.tw.list, id) && T.Has(Advance(cfg, socket, w, step).tw.list, id)
    ensures var v := Advance(cfg, socket, w, step);
            && DispatcherProofs.Inv(cfg, v) && w.generated <= v.generated
            && T.Get(v.tw.list, id).closePacket == T.Get(w.tw.list, id).closePacket
            && forall r :: r in v.generated[|w.generated|..] && r.id == id ==>
                 step.Arrival? && step.header.sequenceNumber.Some? &&
                 r == Answer(step.header, T.Get(w.tw.list, id).closePacket)
  {
    hide DispatcherProofs.Inv, Advance, T.Has, T.Get, Drawn, Answer, SameRecord;
    var v := Advance(cfg, socket, w, step);
    AdvanceKeeps(cfg, socket, w, step);
    AdvanceGenerates(cfg, socket, w, step);
    AdvanceKeepsRecord(cfg, socket, w, step, id);
    SameClosePacket(w, v, id);
    forall r | r in v.generated[|w.generated|..] && r.id == id
      ensures step.Arrival? && step.header.sequenceNumber.Some? &&
              r == Answer(step.header, T.Get(w.tw.list, id).closePacket)
    {
      DrawnIsAnswer(w, step, r);
    }
  }

  lemma SameClosePacket(w: World, u: World, id: T.ConnectionId)
    requires SameRecord(w, u, id) && T.Has(w.tw.list, id) && T.Has(u.tw.list, id)
    ensures T.Get(u.tw.list, id).closePacket == T.Get(w.tw.list, id).closePacket
  {
  }

  lemma DrawnIsAnswer(w: World, step: Step, r: DispatcherSpec.Response)
    requires step.Arrival? && r in Drawn(Tick(w, step.elapsed), step.header) && T.Has(w.tw.list, r.id)
    ensures step.header.sequenceNumber.Some? && r == Answer(step.header, T.Get(w.tw.list, r.id).closePacket)
  {
  }

  // ---------- what a record holds when an id enters ----------

  /** A session closed while its connection acts leaves in time-wait what closed it, unless it is evicted at once. */
  lemma ClosingStores(cfg: ServerConfig, w: World, socket: Socket, before: seq<Act>, id: T.ConnectionId,
                      version: T.Version, closePacket: Option<T.Bytes>, rest: seq<Act>)
    requires Core(cfg, w) && Awaited(w) && id in PerformAll(cfg, w, socket, before).sessions
    ensures var v := PerformAll(cfg, w, socket, before + [Close(id, version, closePacket)] + rest);
            && id !in v.sessions
            && (T.Has(v.tw.list, id) ==>
                  T.Get(v.tw.list, id).closePacket == closePacket && T.Get(v.tw.list, id).version == version)
  {
    hide Core, Awaited, T.Has, T.Get, PerformAll;
    CoreFacts(cfg, w);
    var u := PerformAll(cfg, w, socket, before);
    var c := CloseConnection(cfg, u, id, version, closePacket);
    PerformAllKeeps(cfg, w, socket, before);
    ActsAround(cfg, w, socket, before, Close(id, version, closePacket), rest);
    CloseLaw(cfg, u, id, version, closePacket);
    CloseKeeps(cfg, u, id, version, closePacket);
    PerformAllKeepsRecord(cfg, c, socket, rest, id);
    PerformAllKeepsOut(cfg, c, socket, rest, id);
  }

  /** The same of a session closed by a connection that OnCanWrite calls, whatever it calls after that. */
  lemma ClosingInOnCanWriteStores(cfg: ServerConfig, socket: Socket, w: World, replies: nat -> seq<Act>, n: nat,
                                  before: seq<Act>, id: T.ConnectionId, version: T.Version,
                                  closePacket: Option<T.Bytes>, rest: seq<Act>, elapsed: nat)
    requires DispatcherProofs.Inv(cfg, w) && replies(n) == before + [Close(id, version, closePacket)] + rest
    requires var t := R.AfterTurns(cfg, Tick(w, elapsed).(blocked := false), socket, replies, 0, n);
             t.queue != [] && t.queue[0].Connection? && !t.blocked
    requires id in PerformAll(cfg, R.AtTurn(cfg, Tick(w, elapsed), socket, replies, n), socket, before).sessions
    ensures var v := Advance(cfg, socket, w, Writable(replies, elapsed));
            T.Has(v.tw.list, id) ==>
              T.Get(v.tw.list, id).closePacket == closePacket && T.Get(v.tw.list, id).version == version
  {
    hide DispatcherProofs.Inv, R.AfterTurns, PerformAll, Core, Awaited, T.Has, T.Get;
    R.TurnFacts(cfg, socket, w, replies, n, elapsed);
    R.WritableFacts(cfg, w, elapsed);
    var s := Tick(w, elapsed).(blocked := false);
    var t, p := R.AfterTurns(cfg, s, socket, replies, 0, n), R.AtTurn(cfg, Tick(w, elapsed), socket, replies, n);
    var v := PerformAll(cfg, p, socket, replies(n));
    R.ServesOn(cfg, s, socket, replies, 0, n);
    ClosingStores(cfg, p, socket, before, id, version, closePacket, rest);
    PerformAllKeeps(cfg, p, socket, replies(n));
    assert Serve(cfg, t, socket, replies(n)) == v;
    ServeAllKeepsRecord(cfg, v, socket, replies, n + 1, id);
    if !T.Has(v.tw.list, id) { ServeAllKeepsOut(cfg, v, socket, replies, n + 1, id); }
  }

  /** From a state in which a record holds a close packet, while the id is resident, every response for it is a copy. */
  lemma StoredIsReplayed(cfg: ServerConfig, socket: Socket, w: World, steps: seq<Step>, id: T.ConnectionId,
                         packet: T.Bytes)
    requires DispatcherProofs.Inv(cfg, w) && Resident(cfg, socket, w, steps, id)
    requires T.Get(w.tw.list, id).closePacket == Some(packet)
    ensures var u := Run(cfg, socket, w, steps);
            && w.generated <= u.generated
            && forall r :: r in u.generated[|w.generated|..] && r.id == id ==> r.payload == CloseCopy(packet)
  {
    hide DispatcherProofs.Inv, Run, Resident, T.Get;
    ResidentsAreAnswered(cfg, socket, w, steps, id);
  }

  lemma ActsAround(cfg: ServerConfig, w: World, socket: Socket, before: seq<Act>, act: Act, rest: seq<Act>)
    requires cfg.timeWait.maxConnections != 0
    ensures PerformAll(cfg, w, socket, before + [act] + rest)
         == PerformAll(cfg, Perform(cfg, PerformAll(cfg, w, socket, before), socket, act), socket, rest)
  {
    var u := PerformAll(cfg, w, socket, before);
    PerformAllConcat(cfg, w, socket, before + [act], rest);
    PerformAllConcat(cfg, w, socket, before, [act]);
    assert [act][1..] == [];
    var t := Perform(cfg, u, socket, act);
    assert PerformAll(cfg, t, socket, []) == t;
  }

  /** From the closing on, while the id is resident, every response for it is a copy of the packet that closed it. */
  lemma ClosePacketIsReplayed(cfg: ServerConfig, socket: Socket, w: World, before: seq<Act>, id: T.ConnectionId,
                              version: T.Version, packet: T.Bytes, rest: seq<Act>, steps: seq<Step>)
    requires DispatcherProofs.Inv(cfg, w) && id in PerformAll(cfg, w, socket, before).sessions
    requires var v := PerformAll(cfg, w, socket, before + [Close(id, version, Some(packet))] + rest);
             Resident(cfg, socket, v, steps, id)
    ensures var v := PerformAll(cfg, w, socket, before + [Close(id, version, Some(packet))] + rest);
            var u := Run(cfg, socket, v, steps);
            && v.generated <= u.generated
            && forall r :: r in u.generated[|v.generated|..] && r.id == id ==> r.payload == CloseCopy(packet)
  {
    hide DispatcherProofs.Inv, PerformAll, T.Get, T.Has, Run;
    CoreOf(cfg, w);
    ClosingStores(cfg, w, socket, before, id, version, Some(packet), rest);
    PerformAllStaysBlocked(cfg, w, socket, before + [Close(id, version, Some(packet))] + rest);
    ResidentsAreAnswered(cfg, socket, PerformAll(cfg, w, socket, before + [Close(id, version, Some(packet))] + rest),
                         steps, id);
  }

  /** Packets from port zero, and resets for ids that have no session, change nothing. */
  lemma SomePacketsAreIgnored(cfg: ServerConfig, w: World, socket: Socket, h: Header, accepted: bool, acts: seq<Act>)
    requires cfg.timeWait.maxConnections != 0 && (h.clientPortIsZero || (h.reset && h.id !in w.sessions))
    ensures ProcessPacket(cfg, w, socket, h, accepted, acts) == w
  {
  }

  /** Which packets for unknown ids enter time-wait, and with what: no packet that closed a connection. */
  lemma EntryByPacket(cfg: ServerConfig, w: World, socket: Socket, h: Header, accepted: bool, acts: seq<Act>)
    requires DispatcherProofs.Inv(cfg, w) && !T.Has(w.tw.list, h.id) && h.id !in w.sessions
    requires !(h.hasVersion && accepted)
    ensures var u := ProcessPacket(cfg, w, socket, h, accepted, acts);
            T.Has(u.tw.list, h.id) <==> !h.clientPortIsZero && !h.reset && (!h.hasVersion || h.versionSupported)
    ensures var u := ProcessPacket(cfg, w, socket, h, accepted, acts);
            T.Has(u.tw.list, h.id) ==>
              var r := T.Get(u.tw.list, h.id);
              && r.closePacket == None && r.timeAdded == w.tw.clock
              && r.version == if h.hasVersion then h.version else cfg.highestVersion
  {
    TimeWaitFacts(cfg, w);
    hide T.Has, T.Get, HandOver, T.AddId, DispatcherProofs.Inv, T.Inv, T.UniqueIds;
    NewRecord(cfg, w, h.id, cfg.highestVersion, None);
    NewRecord(cfg, w, h.id, h.version, None);
    if !h.clientPortIsZero && !h.reset && !h.hasVersion {
      var v := w.(tw := T.AddId(cfg.timeWait, w.tw, h.id, cfg.highestVersion, None, w.tw.clock));
      EnterKeeps(cfg, w, h.id, cfg.highestVersion);
      HandOverKeepsRecord(cfg, v, socket, h, h.id);
      HandOverKeepsIds(cfg, v, socket, h, h.id);
    }
  }
}
