/** A connection that reports itself blocked is called when the socket is writable again, or it has been closed. */
module DispatcherReports {
  import opened Sequences
  import opened DispatcherSpec
  import opened DispatcherProofs
  import opened DispatcherWaiting

  /** The acts of a connection in which it reports itself blocked, among others. */
  function Reporting(before: seq<Act>, id: TimeWaitSpec.ConnectionId, rest: seq<Act>): seq<Act> {
    before + [ReportBlocked(id)] + rest
  }

  lemma PerformReporting(cfg: ServerConfig, w: World, socket: Socket, before: seq<Act>, id: TimeWaitSpec.ConnectionId,
                         rest: seq<Act>)
    requires cfg.timeWait.maxConnections != 0 && id in PerformAll(cfg, w, socket, before).sessions
    ensures var u := PerformAll(cfg, w, socket, before);
            PerformAll(cfg, w, socket, Reporting(before, id, rest))
            == PerformAll(cfg, OnWriteBlocked(u, Connection(u.sessions[id])), socket, rest)
  {
    var u := PerformAll(cfg, w, socket, before);
    PerformAllConcat(cfg, w, socket, before + [ReportBlocked(id)], rest);
    PerformAllConcat(cfg, w, socket, before, [ReportBlocked(id)]);
    assert [ReportBlocked(id)][1..] == [];
    var t := Perform(cfg, u, socket, ReportBlocked(id));
    assert PerformAll(cfg, t, socket, []) == t;
  }

  /** When the acts are done, the connection waits behind those that waited when it reported, or it has been closed. */
  lemma ReportWaits(cfg: ServerConfig, w: World, socket: Socket, before: seq<Act>, id: TimeWaitSpec.ConnectionId,
                    rest: seq<Act>)
    requires Core(cfg, w) && Awaited(w)
    requires var u := PerformAll(cfg, w, socket, before); id in u.sessions && u.blocked
    ensures var u, v := PerformAll(cfg, w, socket, before), PerformAll(cfg, w, socket, Reporting(before, id, rest));
            var x := Connection(u.sessions[id]);
            && Inv(cfg, v) && v.blocked
            && ((x in v.queue && Pos(v.queue, x) <= |u.queue|) || Gone(v, x))
  {
    var u := PerformAll(cfg, w, socket, before);
    var x := Connection(u.sessions[id]);
    var t := OnWriteBlocked(u, x);
    PerformReporting(cfg, w, socket, before, id, rest);
    PerformAllKeeps(cfg, w, socket, before);
    OnWriteBlockedKeeps(cfg, u, x);
    OnWriteBlockedLaw(u, x);
    PerformAllKeeps(cfg, t, socket, rest);
    PerformAllNotPushedBack(cfg, t, socket, rest, x);
  }

  /**
   Whenever a connection of a live session reports itself blocked on a blocked socket, with `n` writers queued, it is
   called, or its session has ended, before the socket has become writable `n + 1` times.
   */
  lemma ReportIsServed(cfg: ServerConfig, socket: Socket, w: World, before: seq<Act>, id: TimeWaitSpec.ConnectionId,
                       rest: seq<Act>, steps: seq<Step>)
    requires Core(cfg, w) && Awaited(w)
    requires var u := PerformAll(cfg, w, socket, before); id in u.sessions && u.blocked && Turns(steps) > |u.queue|
    ensures var u, v := PerformAll(cfg, w, socket, before), PerformAll(cfg, w, socket, Reporting(before, id, rest));
            var r, x := Run(cfg, socket, v, steps), Connection(u.sessions[id]);
            v.called <= r.called && (x in CalledSince(v, r) || Gone(r, x))
  {
    hide PerformAll, Core, Awaited, Gone, Pos, Run, Turns, Reporting, Grows;
    CoreFacts(cfg, w);
    ReportWaits(cfg, w, socket, before, id, rest);
    var u, v := PerformAll(cfg, w, socket, before), PerformAll(cfg, w, socket, Reporting(before, id, rest));
    var x := Connection(u.sessions[id]);
    RunCalls(cfg, socket, v, steps);
    if Gone(v, x) {
      GoneForGood(cfg, socket, v, steps, x);
    } else {
      CalledWithinPosition(cfg, socket, v, steps, x);
    }
  }

  lemma RunCalls(cfg: ServerConfig, socket: Socket, w: World, steps: seq<Step>)
    requires cfg.timeWait.maxConnections != 0
    ensures w.called <= Run(cfg, socket, w, steps).called
  {
    RunGrows(cfg, socket, w, steps);
  }

  // ---------- the steps in which connections act ----------

  /** What has become of the connection `x`, which acted in `step`, once `steps` have followed. */
  ghost predicate Served(cfg: ServerConfig, socket: Socket, w: World, step: Step, steps: seq<Step>, x: Writer)
    requires cfg.timeWait.maxConnections != 0
  {
    var v := Advance(cfg, socket, w, step);
    var r := Run(cfg, socket, v, steps);
    v.called <= r.called && (x in CalledSince(v, r) || Gone(r, x))
  }

  /** A connection's alarm. */
  lemma ReportFromAlarm(cfg: ServerConfig, socket: Socket, w: World, before: seq<Act>, id: TimeWaitSpec.ConnectionId,
                        rest: seq<Act>, elapsed: nat, steps: seq<Step>)
    requires Inv(cfg, w)
    requires var u := PerformAll(cfg, Tick(w, elapsed), socket, before);
             id in u.sessions && u.blocked && Turns(steps) > |u.queue|
    ensures Served(cfg, socket, w, ConnectionAlarm(Reporting(before, id, rest), elapsed), steps,
                   Connection(PerformAll(cfg, Tick(w, elapsed), socket, before).sessions[id]))
  {
    assert Inv(cfg, Tick(w, elapsed));
    ReportIsServed(cfg, socket, Tick(w, elapsed), before, id, rest, steps);
  }

  /** The state in which a packet finds its connection, which it may have created. */
  ghost function Delivered(w: World, h: Header): World {
    if h.id in w.sessions then w else w.(sessions := w.sessions[h.id := w.created], created := w.created + 1)
  }

  /** Is the packet for a connection? */
  ghost predicate ForConnection(w: World, h: Header, accepted: bool) {
    && !h.clientPortIsZero
    && (h.id in w.sessions || (!TimeWaitSpec.Has(w.tw.list, h.id) && !h.reset && h.hasVersion && accepted))
  }

  /** A packet for a connection. */
  lemma ReportFromPacket(cfg: ServerConfig, socket: Socket, w: World, h: Header, accepted: bool, before: seq<Act>,
                         id: TimeWaitSpec.ConnectionId, rest: seq<Act>, elapsed: nat, steps: seq<Step>)
    requires Inv(cfg, w) && ForConnection(Tick(w, elapsed), h, accepted)
    requires var u := PerformAll(cfg, Delivered(Tick(w, elapsed), h), socket, before);
             id in u.sessions && u.blocked && Turns(steps) > |u.queue|
    ensures Served(cfg, socket, w, Arrival(h, accepted, Reporting(before, id, rest), elapsed), steps,
                   Connection(PerformAll(cfg, Delivered(Tick(w, elapsed), h), socket, before).sessions[id]))
  {
    var t := Tick(w, elapsed);
    assert Inv(cfg, t);
    if h.id !in t.sessions { OpenKeeps(cfg, t, h.id); }
    ReportIsServed(cfg, socket, Delivered(t, h), before, id, rest, steps);
  }

  /** The state after `n` turns of the loop in OnCanWrite, or after all there are. */
  ghost function AfterTurns(cfg: ServerConfig, w: World, socket: Socket, replies: nat -> seq<Act>, k: nat,
                            n: nat): World
    requires cfg.timeWait.maxConnections != 0
    decreases n
  {
    if n == 0 || w.queue == [] || w.blocked then w
    else AfterTurns(cfg, Serve(cfg, w, socket, replies(k)), socket, replies, k + 1, n - 1)
  }

  lemma {:induction false} ServesOn(cfg: ServerConfig, w: World, socket: Socket, replies: nat -> seq<Act>, k: nat,
                                    n: nat)
    requires Core(cfg, w) && Awaited(w)
    ensures var t := AfterTurns(cfg, w, socket, replies, k, n);
            Core(cfg, t) && Awaited(t) &&
            ServeAll(cfg, w, socket, replies, k) == ServeAll(cfg, t, socket, replies, k + n)
    decreases n
  {
    hide Core, Awaited, Serve;
    CoreFacts(cfg, w);
    if n > 0 && w.queue != [] && !w.blocked {
      ServeKeeps(cfg, w, socket, replies(k));
      ServesOn(cfg, Serve(cfg, w, socket, replies(k)), socket, replies, k + 1, n - 1);
    }
  }

  /** The state in which turn `n` of the loop in OnCanWrite calls its writer. */
  ghost function AtTurn(cfg: ServerConfig, w: World, socket: Socket, replies: nat -> seq<Act>, n: nat): World
    requires cfg.timeWait.maxConnections != 0
  {
    var t := AfterTurns(cfg, w.(blocked := false), socket, replies, 0, n);
    if t.queue == [] then t else t.(queue := t.queue[1..], called := t.called + [t.queue[0]])
  }

  /** A connection that is called because the socket is writable. */
  lemma ReportFromOnCanWrite(cfg: ServerConfig, socket: Socket, w: World, replies: nat -> seq<Act>, n: nat,
                             before: seq<Act>, id: TimeWaitSpec.ConnectionId, rest: seq<Act>, elapsed: nat,
                             steps: seq<Step>)
    requires Inv(cfg, w) && replies(n) == Reporting(before, id, rest)
    requires var t := AfterTurns(cfg, Tick(w, elapsed).(blocked := false), socket, replies, 0, n);
             t.queue != [] && t.queue[0].Connection? && !t.blocked
    requires var u := PerformAll(cfg, AtTurn(cfg, Tick(w, elapsed), socket, replies, n), socket, before);
             id in u.sessions && u.blocked && Turns(steps) > |u.queue|
    ensures Served(cfg, socket, w, Writable(replies, elapsed), steps,
                   Connection(PerformAll(cfg, AtTurn(cfg, Tick(w, elapsed), socket, replies, n), socket,
                                         before).sessions[id]))
  {
    hide *;
    TurnFacts(cfg, socket, w, replies, n, elapsed);
    var p := AtTurn(cfg, Tick(w, elapsed), socket, replies, n);
    ReportWaits(cfg, p, socket, before, id, rest);
    ReportIsServed(cfg, socket, p, before, id, rest, steps);
    EndsAtTurn(cfg, socket, w, replies, n, elapsed);
    IsServed(cfg, socket, w, Writable(replies, elapsed), steps, p, replies(n),
             Connection(PerformAll(cfg, p, socket, before).sessions[id]));
  }

  lemma IsServed(cfg: ServerConfig, socket: Socket, w: World, step: Step, steps: seq<Step>, p: World, acts: seq<Act>,
                 x: Writer)
    requires cfg.timeWait.maxConnections != 0 && Advance(cfg, socket, w, step) == PerformAll(cfg, p, socket, acts)
    requires var v := PerformAll(cfg, p, socket, acts);
             var r := Run(cfg, socket, v, steps);
             v.called <= r.called && (x in CalledSince(v, r) || Gone(r, x))
    ensures Served(cfg, socket, w, step, steps, x)
  {
    hide Advance, PerformAll, Run, Gone, CalledSince;
  }

  lemma WritableFacts(cfg: ServerConfig, w: World, elapsed: nat)
    requires Inv(cfg, w)
    ensures cfg.timeWait.maxConnections != 0
    ensures Core(cfg, Tick(w, elapsed).(blocked := false)) && Awaited(Tick(w, elapsed).(blocked := false))
  {
  }

  lemma TurnFacts(cfg: ServerConfig, socket: Socket, w: World, replies: nat -> seq<Act>, n: nat, elapsed: nat)
    requires Inv(cfg, w)
    requires var t := AfterTurns(cfg, Tick(w, elapsed).(blocked := false), socket, replies, 0, n);
             t.queue != [] && t.queue[0].Connection?
    ensures var p := AtTurn(cfg, Tick(w, elapsed), socket, replies, n);
            Core(cfg, p) && Awaited(p) && cfg.timeWait.maxConnections != 0
  {
    hide AfterTurns, Inv, Core, Awaited;
    WritableFacts(cfg, w, elapsed);
    var s := Tick(w, elapsed).(blocked := false);
    ServesOn(cfg, s, socket, replies, 0, n);
    PopKeeps(cfg, AfterTurns(cfg, s, socket, replies, 0, n));
  }

  /** A turn that leaves the socket blocked is the last. */
  lemma EndsAtTurn(cfg: ServerConfig, socket: Socket, w: World, replies: nat -> seq<Act>, n: nat, elapsed: nat)
    requires Inv(cfg, w)
    requires var t := AfterTurns(cfg, Tick(w, elapsed).(blocked := false), socket, replies, 0, n);
             t.queue != [] && t.queue[0].Connection? && !t.blocked
    requires PerformAll(cfg, AtTurn(cfg, Tick(w, elapsed), socket, replies, n), socket, replies(n)).blocked
    ensures Advance(cfg, socket, w, Writable(replies, elapsed))
         == PerformAll(cfg, AtTurn(cfg, Tick(w, elapsed), socket, replies, n), socket, replies(n))
  {
    hide AfterTurns, PerformAll, Core, Awaited, Inv;
    WritableFacts(cfg, w, elapsed);
    var s := Tick(w, elapsed).(blocked := false);
    ServesOn(cfg, s, socket, replies, 0, n);
    var t, p := AfterTurns(cfg, s, socket, replies, 0, n), AtTurn(cfg, Tick(w, elapsed), socket, replies, n);
    assert Serve(cfg, t, socket, replies(n)) == PerformAll(cfg, p, socket, replies(n));
  }
}
