/** How long an id stays in time-wait over runs of the server. */
module DispatcherResidency {
  import opened Sequences
  import opened DispatcherSpec
  import opened DispatcherProofs
  import T = TimeWaitSpec

  /** What one handler does to `id`, in time-wait since `added` and no session's. */
  ghost predicate HoldsOn(cfg: ServerConfig, w: World, u: World, id: T.ConnectionId, added: int) {
    && u.tw.clock == w.tw.clock && |u.tw.list| >= |w.tw.list|
    && (T.Holds(w.tw.list, id, added) && T.Roomy(cfg.timeWait, u.tw.list) ==> T.Holds(u.tw.list, id, added))
  }

  lemma HoldsOnTransitive(cfg: ServerConfig, w: World, v: World, u: World, id: T.ConnectionId, added: int)
    requires HoldsOn(cfg, w, v, id, added) && HoldsOn(cfg, v, u, id, added)
    ensures HoldsOn(cfg, w, u, id, added)
  {
  }

  lemma PerformHolds(cfg: ServerConfig, w: World, socket: Socket, act: Act, id: T.ConnectionId, added: int)
    requires Core(cfg, w)
    ensures HoldsOn(cfg, w, Perform(cfg, w, socket, act), id, added)
  {
    if act.Close? && act.id in w.sessions {
      T.AddWithRoom(cfg.timeWait, w.tw, act.id, act.version, act.closePacket, w.tw.clock, id, added);
    }
  }

  lemma {:induction false} PerformAllHolds(cfg: ServerConfig, w: World, socket: Socket, acts: seq<Act>,
                                           id: T.ConnectionId, added: int)
    requires Core(cfg, w) && Awaited(w)
    ensures HoldsOn(cfg, w, PerformAll(cfg, w, socket, acts), id, added)
    decreases |acts|
  {
    if acts != [] {
      var u := Perform(cfg, w, socket, acts[0]);
      PerformKeeps(cfg, w, socket, acts[0]);
      PerformHolds(cfg, w, socket, acts[0], id, added);
      PerformAllHolds(cfg, u, socket, acts[1..], id, added);
    }
  }

  lemma ServeHolds(cfg: ServerConfig, w: World, socket: Socket, acts: seq<Act>, id: T.ConnectionId, added: int)
    requires Core(cfg, w) && Awaited(w) && w.queue != []
    ensures HoldsOn(cfg, w, Serve(cfg, w, socket, acts), id, added)
  {
    PopKeeps(cfg, w);
    hide Core;
    var u := w.(queue := w.queue[1..], called := w.called + [w.queue[0]]);
    if w.queue[0].TimeWaitManager? {
      DrainLeaves(u, socket);
    } else {
      PerformAllHolds(cfg, u, socket, acts, id, added);
    }
  }

  lemma {:induction false} ServeAllHolds(cfg: ServerConfig, w: World, socket: Socket, replies: nat -> seq<Act>, k: nat,
                                         id: T.ConnectionId, added: int)
    requires Core(cfg, w) && Awaited(w)
    ensures HoldsOn(cfg, w, ServeAll(cfg, w, socket, replies, k), id, added)
    decreases if w.blocked then 0 else 1 + |w.queue|
  {
    if w.queue != [] && !w.blocked {
      var v := Serve(cfg, w, socket, replies(k));
      ServeKeeps(cfg, w, socket, replies(k));
      ServeHolds(cfg, w, socket, replies(k), id, added);
      ServeAllHolds(cfg, v, socket, replies, k + 1, id, added);
      HoldsOnTransitive(cfg, w, v, ServeAll(cfg, v, socket, replies, k + 1), id, added);
    }
  }

  lemma HandOverHolds(cfg: ServerConfig, w: World, socket: Socket, h: Header, id: T.ConnectionId, added: int)
    requires Inv(cfg, w) && T.Has(w.tw.list, h.id)
    ensures HoldsOn(cfg, w, HandOver(w, socket, h), id, added)
  {
    assert T.UniqueIds(w.tw.list);
    hide Inv, HandOver, T.Has, T.Holds;
    HandOverCreatesNothing(w, socket, h);
    if T.Holds(w.tw.list, id, added) {
      T.CountHolds(w.tw.list, h.id, id, added);
    }
  }

  lemma EnterHolds(cfg: ServerConfig, w: World, x: T.ConnectionId, version: T.Version, id: T.ConnectionId, added: int)
    requires Inv(cfg, w) && !T.Has(w.tw.list, x)
    ensures HoldsOn(cfg, w, w.(tw := T.AddId(cfg.timeWait, w.tw, x, version, None, w.tw.clock)), id, added)
  {
    T.AddWithRoom(cfg.timeWait, w.tw, x, version, None, w.tw.clock, id, added);
  }

  lemma ArrivalHolds(cfg: ServerConfig, w: World, socket: Socket, h: Header, accepted: bool, acts: seq<Act>,
                     id: T.ConnectionId, added: int)
    requires Inv(cfg, w)
    ensures HoldsOn(cfg, w, ProcessPacket(cfg, w, socket, h, accepted, acts), id, added)
  {
    assert cfg.timeWait.maxConnections != 0 && Awaited(w);
    hide T.AddId, T.Has, T.Holds, HandOver, PerformAll, Core;
    var u := ProcessPacket(cfg, w, socket, h, accepted, acts);
    if !h.clientPortIsZero && h.id in w.sessions {
      PerformAllHolds(cfg, w, socket, acts, id, added);
    } else if !h.clientPortIsZero && T.Has(w.tw.list, h.id) {
      HandOverHolds(cfg, w, socket, h, id, added);
    } else if !h.clientPortIsZero && !h.reset && !h.hasVersion {
      var v := w.(tw := T.AddId(cfg.timeWait, w.tw, h.id, cfg.highestVersion, None, w.tw.clock));
      AddHas(cfg.timeWait, w.tw, h.id, cfg.highestVersion, None, w.tw.clock);
      EnterKeeps(cfg, w, h.id, cfg.highestVersion);
      EnterHolds(cfg, w, h.id, cfg.highestVersion, id, added);
      HandOverHolds(cfg, v, socket, h, id, added);
      HoldsOnTransitive(cfg, w, v, u, id, added);
    } else if !h.clientPortIsZero && !h.reset && accepted {
      var v := w.(sessions := w.sessions[h.id := w.created], created := w.created + 1);
      OpenKeeps(cfg, w, h.id);
      PerformAllHolds(cfg, v, socket, acts, id, added);
    } else if !h.clientPortIsZero && !h.reset && h.versionSupported {
      EnterHolds(cfg, w, h.id, h.version, id, added);
    }
  }

  /** One step: an id stays until its period is over, unless the list reaches its limit. */
  lemma AdvanceHolds(cfg: ServerConfig, socket: Socket, w: World, step: Step, id: T.ConnectionId, added: int)
    requires Inv(cfg, w)
    ensures var u := Advance(cfg, socket, w, step);
            && u.tw.clock == w.tw.clock + step.elapsed
            && ((T.Holds(w.tw.list, id, added) && u.tw.clock < added + cfg.timeWait.period &&
                 T.Roomy(cfg.timeWait, u.tw.list)) ==> T.Holds(u.tw.list, id, added))
  {
    var u := Tick(w, step.elapsed);
    assert Inv(cfg, u) && cfg.timeWait.maxConnections != 0;
    assert Core(cfg, u.(blocked := false)) && Awaited(u.(blocked := false));
    hide Core, ProcessPacket, PerformAll, ServeAll, T.Holds;
    match step {
      case Arrival(h, accepted, acts, _) => ArrivalHolds(cfg, u, socket, h, accepted, acts, id, added);
      case Writable(replies, _) => ServeAllHolds(cfg, u.(blocked := false), socket, replies, 0, id, added);
      case CleanUpAlarm(_) =>
        if T.Holds(u.tw.list, id, added) && u.tw.clock < added + cfg.timeWait.period {
          CleanUpHolds(cfg, u, id, added);
        }
      case DeleteAlarm(_) =>
      case ConnectionAlarm(acts, _) => PerformAllHolds(cfg, u, socket, acts, id, added);
    }
  }

  lemma CleanUpHolds(cfg: ServerConfig, w: World, id: T.ConnectionId, added: int)
    requires Inv(cfg, w) && T.Holds(w.tw.list, id, added) && w.tw.clock < added + cfg.timeWait.period
    ensures T.Holds(T.CleanUp(cfg.timeWait, w.tw, w.tw.clock).list, id, added)
  {
    hide T.InOrder;
    assert T.InOrder(w.tw.list) && T.UniqueIds(w.tw.list);
    var list := T.Expire(w.tw.list, w.tw.clock - cfg.timeWait.period);
    T.ExpireRemovesTheOld(w.tw.list, w.tw.clock - cfg.timeWait.period);
    T.GetIsTheRecord(list, T.Get(w.tw.list, id));
  }

  /** After none of the steps is the list at its limit. */
  ghost predicate AlwaysRoomy(cfg: ServerConfig, socket: Socket, w: World, steps: seq<Step>)
    requires cfg.timeWait.maxConnections != 0
    decreases |steps|
  {
    steps != [] ==>
      var u := Advance(cfg, socket, w, steps[0]);
      T.Roomy(cfg.timeWait, u.tw.list) && AlwaysRoomy(cfg, socket, u, steps[1..])
  }

  lemma {:induction false} ClockAdvances(cfg: ServerConfig, socket: Socket, w: World, steps: seq<Step>)
    requires Inv(cfg, w)
    ensures Run(cfg, socket, w, steps).tw.clock >= w.tw.clock
    decreases |steps|
  {
    if steps != [] {
      AdvanceKeeps(cfg, socket, w, steps[0]);
      AdvanceHolds(cfg, socket, w, steps[0], 0, 0);
      ClockAdvances(cfg, socket, Advance(cfg, socket, w, steps[0]), steps[1..]);
    }
  }

  /**
   Over any run of the server in which the list stays below its limit, an id added at `added` is in time-wait, with
   that time, until its period is over. That it is gone afterwards is `NoIdOutstaysItsPeriod`.
   */
  lemma {:induction false} ServerResidency(cfg: ServerConfig, socket: Socket, w: World, steps: seq<Step>,
                                           id: T.ConnectionId, added: int)
    requires Inv(cfg, w) && T.Holds(w.tw.list, id, added) && AlwaysRoomy(cfg, socket, w, steps)
    ensures var u := Run(cfg, socket, w, steps);
            u.tw.clock < added + cfg.timeWait.period ==> T.Holds(u.tw.list, id, added)
    decreases |steps|
  {
    if steps != [] {
      hide T.Holds, Advance;
      var v := Advance(cfg, socket, w, steps[0]);
      AdvanceKeeps(cfg, socket, w, steps[0]);
      AdvanceHolds(cfg, socket, w, steps[0], id, added);
      ClockAdvances(cfg, socket, v, steps[1..]);
      if v.tw.clock < added + cfg.timeWait.period {
        ServerResidency(cfg, socket, v, steps[1..], id, added);
      }
    }
  }
}
