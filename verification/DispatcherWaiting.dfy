/** How long a blocked writer waits, in which order writers are served, and what only ever grows. */
module DispatcherWaiting {
  import opened Sequences
  import opened DispatcherSpec
  import opened DispatcherProofs

  // ---------- history ----------

  /** Histories are only appended to. */
  ghost predicate Grows(w: World, u: World) {
    && w.called <= u.called && w.sent <= u.sent && w.generated <= u.generated && w.deleted <= u.deleted
    && w.created <= u.created
  }

  lemma {:induction false} DrainGrows(w: World, socket: Socket)
    ensures Grows(w, Drain(w, socket)) && Drain(w, socket).called == w.called
    ensures Drain(w, socket).created == w.created && Drain(w, socket).sessions == w.sessions
    ensures w.queue <= Drain(w, socket).queue
    decreases |w.pending|
  {
    if w.pending != [] && !w.blocked && !socket(w.writes).Blocked? {
      var u := w.(writes := w.writes + 1, sent := w.sent + [w.pending[0]], wrote := w.wrote + [w.writes],
                  pending := w.pending[1..]);
      DrainGrows(u, socket);
    }
  }

  lemma {:induction false} PerformAllGrows(cfg: ServerConfig, w: World, socket: Socket, acts: seq<Act>)
    requires cfg.timeWait.maxConnections != 0
    ensures var u := PerformAll(cfg, w, socket, acts);
            && u.called == w.called && u.sent == w.sent && u.generated == w.generated && u.deleted == w.deleted
            && u.created == w.created
    decreases |acts|
  {
    if acts != [] {
      PerformAllGrows(cfg, Perform(cfg, w, socket, acts[0]), socket, acts[1..]);
    }
  }

  lemma ServeGrows(cfg: ServerConfig, w: World, socket: Socket, acts: seq<Act>)
    requires cfg.timeWait.maxConnections != 0 && w.queue != []
    ensures Grows(w, Serve(cfg, w, socket, acts)) && Serve(cfg, w, socket, acts).called == w.called + [w.queue[0]]
    ensures Serve(cfg, w, socket, acts).created == w.created
  {
    var u := w.(queue := w.queue[1..], called := w.called + [w.queue[0]]);
    DrainGrows(u, socket);
    PerformAllGrows(cfg, u, socket, acts);
  }

  lemma {:induction false} ServeAllGrows(cfg: ServerConfig, w: World, socket: Socket, replies: nat -> seq<Act>, k: nat)
    requires cfg.timeWait.maxConnections != 0
    ensures Grows(w, ServeAll(cfg, w, socket, replies, k))
    decreases if w.blocked then 0 else 1 + |w.queue|
  {
    if w.queue != [] && !w.blocked {
      ServeGrows(cfg, w, socket, replies(k));
      ServeAllGrows(cfg, Serve(cfg, w, socket, replies(k)), socket, replies, k + 1);
    }
  }

  lemma SendOrQueueGrows(w: World, socket: Socket, p: DispatcherSpec.Response)
    ensures var u := SendOrQueue(w, socket, p);
            && Grows(w, u) && u.called == w.called && w.queue <= u.queue
            && u.sessions == w.sessions && u.created == w.created && u.generated == w.generated + [p]
  {
  }

  lemma HandOverGrows(w: World, socket: Socket, h: Header)
    requires TimeWaitSpec.Has(w.tw.list, h.id)
    ensures var u := HandOver(w, socket, h);
            && Grows(w, u) && u.called == w.called && w.queue <= u.queue
            && u.sessions == w.sessions && u.created == w.created
  {
    hide TimeWaitSpec.Has, TimeWaitSpec.Get, TimeWaitSpec.Receive, SendOrQueue;
    if !h.reset && h.sequenceNumber.Some? {
      var r := TimeWaitSpec.Get(w.tw.list, h.id);
      var payload :=
        if r.closePacket.Some? then CloseCopy(r.closePacket.value) else PublicReset(h.sequenceNumber.value);
      SendOrQueueGrows(w.(tw := TimeWaitSpec.Receive(w.tw, h.id)), socket,
                       DispatcherSpec.Response(h.server, h.client, h.id, payload));
    }
  }

  lemma AdvanceGrows(cfg: ServerConfig, socket: Socket, w: World, step: Step)
    requires cfg.timeWait.maxConnections != 0
    ensures Grows(w, Advance(cfg, socket, w, step))
    ensures !step.Writable? ==> Advance(cfg, socket, w, step).called == w.called
  {
    hide PerformAll, ServeAll, HandOver, TimeWaitSpec.Has, TimeWaitSpec.AddId, TimeWaitSpec.CleanUp;
    var u := Tick(w, step.elapsed);
    match step {
      case Arrival(h, accepted, acts, _) =>
        PerformAllGrows(cfg, u, socket, acts);
        PerformAllGrows(cfg, u.(sessions := u.sessions[h.id := u.created], created := u.created + 1), socket, acts);
        if TimeWaitSpec.Has(u.tw.list, h.id) { HandOverGrows(u, socket, h); }
        var v := u.(tw := TimeWaitSpec.AddId(cfg.timeWait, u.tw, h.id, cfg.highestVersion, None, u.tw.clock));
        AddHas(cfg.timeWait, u.tw, h.id, cfg.highestVersion, None, u.tw.clock);
        HandOverGrows(v, socket, h);
      case Writable(replies, _) => ServeAllGrows(cfg, u.(blocked := false), socket, replies, 0);
      case CleanUpAlarm(_) =>
      case DeleteAlarm(_) =>
      case ConnectionAlarm(acts, _) => PerformAllGrows(cfg, u, socket, acts);
    }
  }

  // ---------- positions in the queue ----------

  ghost function Pos(q: seq<Writer>, x: Writer): (i: nat)
    requires x in q
    ensures i < |q| && q[i] == x
  {
    if q[0] == x then 0 else 1 + Pos(q[1..], x)
  }

  lemma {:induction false} PosPrefix(q: seq<Writer>, r: seq<Writer>, x: Writer)
    requires q <= r && x in q
    ensures x in r && Pos(r, x) == Pos(q, x)
  {
    assert q[0] == r[0];
    if q[0] != x {
      PosPrefix(q[1..], r[1..], x);
    }
  }

  lemma {:induction false} PosWithout(q: seq<Writer>, c: Writer, x: Writer)
    requires NoDup(q) && x in q && x != c
    ensures x in Without(q, c) && Pos(Without(q, c), x) <= Pos(q, x)
  {
    var rest := q[1..];
    assert q == [q[0]] + rest;
    NoDupCons(q[0], rest);
    WithoutCons(q[0], rest, c);
    WithoutKeeps(q, c);
    if q[0] != x {
      PosWithout(rest, c, x);
      if q[0] != c {
        assert ([q[0]] + Without(rest, c))[1..] == Without(rest, c);
      }
    }
  }

  // ---------- what other writers' turns do to a waiting writer ----------

  /** The connection has been closed; its session never becomes live again. */
  ghost predicate Gone(w: World, x: Writer) {
    x.Connection? && x.session < w.created && x.session !in w.sessions.Values
  }

  /** A writer waiting in `w` is still waiting in `u`, no further back, or it is gone. */
  ghost predicate NotPushedBack(w: World, u: World, x: Writer)
    requires x in w.queue
  {
    (x in u.queue && Pos(u.queue, x) <= Pos(w.queue, x)) || Gone(u, x)
  }

  lemma PerformNotPushedBack(cfg: ServerConfig, w: World, socket: Socket, act: Act, x: Writer)
    requires Core(cfg, w)
    ensures x in w.queue ==> NotPushedBack(w, Perform(cfg, w, socket, act), x)
    ensures Gone(w, x) ==> Gone(Perform(cfg, w, socket, act), x)
  {
    var u := Perform(cfg, w, socket, act);
    if x in w.queue {
      if w.queue <= u.queue {
        PosPrefix(w.queue, u.queue, x);
      } else if x != Connection(w.sessions[act.id]) {
        PosWithout(w.queue, Connection(w.sessions[act.id]), x);
      }
    }
  }

  lemma {:induction false} PerformAllNotPushedBack(cfg: ServerConfig, w: World, socket: Socket, acts: seq<Act>,
                                                   x: Writer)
    requires Core(cfg, w) && Awaited(w)
    ensures x in w.queue ==> NotPushedBack(w, PerformAll(cfg, w, socket, acts), x)
    ensures Gone(w, x) ==> Gone(PerformAll(cfg, w, socket, acts), x)
    decreases |acts|
  {
    if acts != [] {
      PerformKeeps(cfg, w, socket, acts[0]);
      PerformNotPushedBack(cfg, w, socket, acts[0], x);
      PerformAllNotPushedBack(cfg, Perform(cfg, w, socket, acts[0]), socket, acts[1..], x);
    }
  }

  /** Another writer's turn moves a waiting writer forward by at least one. */
  lemma ServeMovesUp(cfg: ServerConfig, w: World, socket: Socket, acts: seq<Act>, x: Writer)
    requires Core(cfg, w) && Awaited(w) && w.queue != []
    ensures var u := Serve(cfg, w, socket, acts);
            && (x in w.queue ==> x == w.queue[0] || Gone(u, x) || (x in u.queue && Pos(u.queue, x) < Pos(w.queue, x)))
            && (Gone(w, x) ==> Gone(u, x))
  {
    var u := w.(queue := w.queue[1..], called := w.called + [w.queue[0]]);
    assert w.queue == [w.queue[0]] + w.queue[1..];
    NoDupCons(w.queue[0], w.queue[1..]);
    if w.queue[0].TimeWaitManager? {
      DrainGrows(u, socket);
      if x in u.queue { PosPrefix(u.queue, Drain(u, socket).queue, x); }
    } else {
      PerformAllNotPushedBack(cfg, u, socket, acts, x);
    }
  }

  // ---------- bounded waiting ----------

  /** What has become of a writer that waited in `w`, `turns` writable sockets later. */
  ghost predicate Waited(w: World, u: World, x: Writer, turns: nat)
    requires x in w.queue && w.called <= u.called
  {
    x in u.called[|w.called|..] || Gone(u, x) || (x in u.queue && Pos(u.queue, x) + turns <= Pos(w.queue, x))
  }

  lemma {:induction false} GoneStaysGone(cfg: ServerConfig, w: World, socket: Socket, replies: nat -> seq<Act>, k: nat,
                                         x: Writer)
    requires Core(cfg, w) && Awaited(w) && Gone(w, x)
    ensures Gone(ServeAll(cfg, w, socket, replies, k), x)
    decreases if w.blocked then 0 else 1 + |w.queue|
  {
    if w.queue != [] && !w.blocked {
      ServeKeeps(cfg, w, socket, replies(k));
      ServeMovesUp(cfg, w, socket, replies(k), x);
      GoneStaysGone(cfg, Serve(cfg, w, socket, replies(k)), socket, replies, k + 1, x);
    }
  }

  /** A turn that brings the writer `turns` places forward adds to what the turns after it do. */
  lemma WaitedOn(w: World, v: World, u: World, x: Writer, turns: nat, more: nat)
    requires x in w.queue && w.called <= v.called <= u.called
    requires x in v.called[|w.called|..] || Gone(u, x) ||
               (x in v.queue && Pos(v.queue, x) + turns <= Pos(w.queue, x) && Waited(v, u, x, more))
    ensures Waited(w, u, x, turns + more)
  {
    assert u.called[|w.called|..] == v.called[|w.called|..] + u.called[|v.called|..];
  }

  lemma {:induction false} ServeAllMovesUp(cfg: ServerConfig, w: World, socket: Socket,
                                           replies: nat -> seq<Act>, k: nat, x: Writer)
    requires Core(cfg, w) && Awaited(w) && x in w.queue
    ensures var u := ServeAll(cfg, w, socket, replies, k);
            w.called <= u.called && Waited(w, u, x, if w.blocked then 0 else 1)
    decreases if w.blocked then 0 else 1 + |w.queue|
  {
    hide Core, Awaited, Serve, Gone, Pos;
    CoreFacts(cfg, w);
    if !w.blocked {
      var v := Serve(cfg, w, socket, replies(k));
      var u := ServeAll(cfg, v, socket, replies, k + 1);
      ServeKeeps(cfg, w, socket, replies(k));
      ServeGrows(cfg, w, socket, replies(k));
      ServeMovesUp(cfg, w, socket, replies(k), x);
      ServeAllGrows(cfg, v, socket, replies, k + 1);
      if Gone(v, x) {
        GoneStaysGone(cfg, v, socket, replies, k + 1, x);
      } else if x != w.queue[0] {
        ServeAllMovesUp(cfg, v, socket, replies, k + 1, x);
      }
      WaitedOn(w, v, u, x, 1, 0);
    }
  }

  lemma ArrivalNotPushedBack(cfg: ServerConfig, w: World, socket: Socket, h: Header, accepted: bool, acts: seq<Act>,
                             x: Writer)
    requires Inv(cfg, w)
    ensures x in w.queue ==> NotPushedBack(w, ProcessPacket(cfg, w, socket, h, accepted, acts), x)
    ensures Gone(w, x) ==> Gone(ProcessPacket(cfg, w, socket, h, accepted, acts), x)
  {
    hide PerformAll, HandOver, TimeWaitSpec.AddId, TimeWaitSpec.Has, Pos, Core, Accounted, Exclusive;
    CoreFacts(cfg, w);
    if !h.clientPortIsZero && h.id in w.sessions {
      PerformAllNotPushedBack(cfg, w, socket, acts, x);
    } else if !h.clientPortIsZero && !TimeWaitSpec.Has(w.tw.list, h.id) && !h.reset && h.hasVersion && accepted {
      var v := w.(sessions := w.sessions[h.id := w.created], created := w.created + 1);
      OpenKeeps(cfg, w, h.id);
      if Gone(w, x) { GoneStaysGoneAtOpening(cfg, w, h.id, x); }
      PerformAllNotPushedBack(cfg, v, socket, acts, x);
    } else {
      var u := ProcessPacket(cfg, w, socket, h, accepted, acts);
      OtherPacketsPushNoOneBack(cfg, w, socket, h, accepted, acts);
      if x in w.queue { PosPrefix(w.queue, u.queue, x); }
    }
  }

  lemma GoneStaysGoneAtOpening(cfg: ServerConfig, w: World, id: TimeWaitSpec.ConnectionId, x: Writer)
    requires Core(cfg, w) && id !in w.sessions && Gone(w, x)
    ensures Gone(w.(sessions := w.sessions[id := w.created], created := w.created + 1), x)
  {
  }

  lemma OtherPacketsPushNoOneBack(cfg: ServerConfig, w: World, socket: Socket, h: Header, accepted: bool,
                                  acts: seq<Act>)
    requires cfg.timeWait.maxConnections != 0
    requires h.clientPortIsZero ||
             (h.id !in w.sessions && (TimeWaitSpec.Has(w.tw.list, h.id) || h.reset || !h.hasVersion || !accepted))
    ensures var u := ProcessPacket(cfg, w, socket, h, accepted, acts);
            w.queue <= u.queue && u.sessions == w.sessions && u.created == w.created
  {
    hide PerformAll, HandOver, TimeWaitSpec.AddId, TimeWaitSpec.Has;
    if TimeWaitSpec.Has(w.tw.list, h.id) { HandOverGrows(w, socket, h); }
    AddHas(cfg.timeWait, w.tw, h.id, cfg.highestVersion, None, w.tw.clock);
    var v := w.(tw := TimeWaitSpec.AddId(cfg.timeWait, w.tw, h.id, cfg.highestVersion, None, w.tw.clock));
    HandOverGrows(v, socket, h);
  }

  lemma AdvanceMovesUp(cfg: ServerConfig, socket: Socket, w: World, step: Step, x: Writer)
    requires Inv(cfg, w)
    ensures var u := Advance(cfg, socket, w, step);
            && w.called <= u.called
            && (x in w.queue ==> Waited(w, u, x, if step.Writable? then 1 else 0))
            && (Gone(w, x) ==> Gone(u, x))
  {
    hide PerformAll, ServeAll, ProcessPacket, TimeWaitSpec.CleanUp;
    var u := Tick(w, step.elapsed);
    assert Inv(cfg, u);
    AdvanceGrows(cfg, socket, w, step);
    match step {
      case Arrival(h, accepted, acts, _) => ArrivalNotPushedBack(cfg, u, socket, h, accepted, acts, x);
      case Writable(replies, _) =>
        var v := u.(blocked := false);
        assert Core(cfg, v);
        if x in w.queue { ServeAllMovesUp(cfg, v, socket, replies, 0, x); }
        if Gone(v, x) { GoneStaysGone(cfg, v, socket, replies, 0, x); }
      case CleanUpAlarm(_) =>
      case DeleteAlarm(_) =>
      case ConnectionAlarm(acts, _) => PerformAllNotPushedBack(cfg, u, socket, acts, x);
    }
  }

  function Turns(steps: seq<Step>): nat {
    if steps == [] then 0 else (if steps[0].Writable? then 1 else 0) + Turns(steps[1..])
  }

  lemma {:induction false} GoneForGood(cfg: ServerConfig, socket: Socket, w: World, steps: seq<Step>, x: Writer)
    requires Inv(cfg, w) && Gone(w, x)
    ensures Gone(Run(cfg, socket, w, steps), x)
    decreases |steps|
  {
    if steps != [] {
      AdvanceKeeps(cfg, socket, w, steps[0]);
      AdvanceMovesUp(cfg, socket, w, steps[0], x);
      GoneForGood(cfg, socket, Advance(cfg, socket, w, steps[0]), steps[1..], x);
    }
  }

  lemma {:induction false} RunGrows(cfg: ServerConfig, socket: Socket, w: World, steps: seq<Step>)
    requires cfg.timeWait.maxConnections != 0
    ensures Grows(w, Run(cfg, socket, w, steps))
    decreases |steps|
  {
    if steps != [] {
      AdvanceGrows(cfg, socket, w, steps[0]);
      RunGrows(cfg, socket, Advance(cfg, socket, w, steps[0]), steps[1..]);
    }
  }

  /** Over any run, every time the socket becomes writable brings a waiting writer at least one place forward. */
  lemma {:induction false} WaitingIsBounded(cfg: ServerConfig, socket: Socket, w: World, steps: seq<Step>, x: Writer)
    requires Inv(cfg, w) && x in w.queue
    ensures var u := Run(cfg, socket, w, steps);
            w.called <= u.called && Waited(w, u, x, Turns(steps))
    decreases |steps|
  {
    if steps != [] {
      var v := Advance(cfg, socket, w, steps[0]);
      var u := Run(cfg, socket, v, steps[1..]);
      AdvanceKeeps(cfg, socket, w, steps[0]);
      AdvanceMovesUp(cfg, socket, w, steps[0], x);
      RunGrows(cfg, socket, v, steps[1..]);
      if Gone(v, x) {
        GoneForGood(cfg, socket, v, steps[1..], x);
      } else if x in v.queue {
        WaitingIsBounded(cfg, socket, v, steps[1..], x);
      }
      WaitedOn(w, v, u, x, if steps[0].Writable? then 1 else 0, Turns(steps[1..]));
    }
  }

  /** A writer at position `k` is called, or its connection closed, before the socket is writable `k + 1` times. */
  lemma CalledWithinPosition(cfg: ServerConfig, socket: Socket, w: World, steps: seq<Step>, x: Writer)
    requires Inv(cfg, w) && x in w.queue && Turns(steps) > Pos(w.queue, x)
    ensures var u := Run(cfg, socket, w, steps);
            w.called <= u.called && (x in u.called[|w.called|..] || Gone(u, x))
  {
    WaitingIsBounded(cfg, socket, w, steps, x);
  }

  // ---------- the order of service ----------

  /** `c` is `q` with some elements left out. */
  ghost predicate Sub(c: seq<Writer>, q: seq<Writer>)
    decreases |q|
  {
    c == [] || (q != [] && if c[0] == q[0] then Sub(c[1..], q[1..]) else Sub(c, q[1..]))
  }

  lemma {:induction false} SubTail(c: seq<Writer>, q: seq<Writer>)
    requires c != [] && Sub(c, q)
    ensures Sub(c[1..], q)
    decreases |q|
  {
    if |c| > 1 {
      if c[0] == q[0] {
        if c[1] == q[0] { SubTail(c[1..], q[1..]); }
      } else {
        SubTail(c, q[1..]);
      }
      if c[0] != q[0] && c[1] == q[0] { SubTail(c[1..], q[1..]); }
    }
  }

  lemma SubSkip(c: seq<Writer>, q: seq<Writer>)
    requires q != [] && Sub(c, q[1..])
    ensures Sub(c, q)
  {
    if c != [] && c[0] == q[0] {
      SubTail(c, q[1..]);
    }
  }

  lemma {:induction false} SubTransitive(a: seq<Writer>, b: seq<Writer>, c: seq<Writer>)
    requires Sub(a, b) && Sub(b, c)
    ensures Sub(a, c)
    decreases |c|
  {
    if a != [] {
      if b[0] == c[0] {
        if a[0] == b[0] {
          SubTransitive(a[1..], b[1..], c[1..]);
        } else {
          SubTransitive(a, b[1..], c[1..]);
        }
      } else {
        SubTransitive(a, b, c[1..]);
        SubSkip(a, c);
      }
    }
  }

  lemma {:induction false} SubReflexive(q: seq<Writer>)
    ensures Sub(q, q)
  {
    if q != [] {
      SubReflexive(q[1..]);
    }
  }

  lemma {:induction false} WithoutIsSub(q: seq<Writer>, x: Writer)
    requires NoDup(q)
    ensures Sub(Without(q, x), q)
  {
    SubReflexive(q);
    if q != [] {
      var rest := q[1..];
      assert q == [q[0]] + rest;
      NoDupCons(q[0], rest);
      WithoutCons(q[0], rest, x);
      if q[0] == x {
        SubReflexive(rest);
        SubSkip(rest, q);
      } else {
        WithoutIsSub(rest, x);
        assert ([q[0]] + Without(rest, x))[1..] == Without(rest, x);
      }
    }
  }

  lemma {:induction false} PerformAllOnlyShortens(cfg: ServerConfig, w: World, socket: Socket, acts: seq<Act>)
    requires Core(cfg, w) && Awaited(w) && !PerformAll(cfg, w, socket, acts).blocked
    ensures Sub(PerformAll(cfg, w, socket, acts).queue, w.queue)
    decreases |acts|
  {
    SubReflexive(w.queue);
    if acts != [] {
      var u := Perform(cfg, w, socket, acts[0]);
      PerformKeeps(cfg, w, socket, acts[0]);
      PerformAllOnlyShortens(cfg, u, socket, acts[1..]);
      if acts[0].Close? && acts[0].id in w.sessions {
        WithoutIsSub(w.queue, Connection(w.sessions[acts[0].id]));
      }
      SubTransitive(PerformAll(cfg, w, socket, acts).queue, u.queue, w.queue);
    }
  }

  /** One writable socket calls writers in the order in which they blocked, each at most once. */
  lemma {:induction false} ServesInOrder(cfg: ServerConfig, w: World, socket: Socket, replies: nat -> seq<Act>, k: nat)
    requires Core(cfg, w) && Awaited(w)
    ensures var u := ServeAll(cfg, w, socket, replies, k);
            w.called <= u.called && Sub(u.called[|w.called|..], w.queue) && NoDup(w.queue)
    decreases if w.blocked then 0 else 1 + |w.queue|
  {
    var u := ServeAll(cfg, w, socket, replies, k);
    ServeAllGrows(cfg, w, socket, replies, k);
    if w.queue != [] && !w.blocked {
      var head, rest := w.queue[0], w.queue[1..];
      var v := Serve(cfg, w, socket, replies(k));
      ServeKeeps(cfg, w, socket, replies(k));
      ServeGrows(cfg, w, socket, replies(k));
      ServeAllGrows(cfg, v, socket, replies, k + 1);
      var c := u.called[|v.called|..];
      assert u.called[|w.called|..] == [head] + c;
      if v.blocked {
        assert c == [];
      } else {
        ServesInOrder(cfg, v, socket, replies, k + 1);
        ServeOnlyShortens(cfg, w, socket, replies(k));
        SubTransitive(c, v.queue, rest);
      }
      assert ([head] + c)[1..] == c;
    }
  }

  lemma ServeOnlyShortens(cfg: ServerConfig, w: World, socket: Socket, acts: seq<Act>)
    requires Core(cfg, w) && Awaited(w) && w.queue != [] && !Serve(cfg, w, socket, acts).blocked
    ensures Sub(Serve(cfg, w, socket, acts).queue, w.queue[1..])
  {
    var u := w.(queue := w.queue[1..], called := w.called + [w.queue[0]]);
    assert w.queue == [w.queue[0]] + w.queue[1..];
    NoDupCons(w.queue[0], w.queue[1..]);
    SubReflexive(w.queue[1..]);
    if w.queue[0].Connection? {
      PerformAllOnlyShortens(cfg, u, socket, acts);
    }
  }

  // ---------- nobody is passed over ----------

  ghost predicate Ahead(q: seq<Writer>, x: Writer, y: Writer) {
    x in q && y in q && Pos(q, x) < Pos(q, y)
  }

  lemma {:induction false} SubMembers(c: seq<Writer>, q: seq<Writer>, x: Writer)
    requires Sub(c, q) && x in c
    ensures x in q
    decreases |q|
  {
    if c[0] != q[0] {
      SubMembers(c, q[1..], x);
    } else if x != c[0] {
      SubMembers(c[1..], q[1..], x);
    }
  }

  /** Leaving elements out keeps the order of the others. */
  lemma {:induction false} SubKeepsOrder(c: seq<Writer>, q: seq<Writer>, x: Writer, y: Writer)
    requires Sub(c, q) && NoDup(q) && Ahead(q, x, y) && x in c && y in c
    ensures Ahead(c, x, y)
    decreases |q|
  {
    var rest := q[1..];
    assert q == [q[0]] + rest;
    NoDupCons(q[0], rest);
    if c[0] != q[0] {
      SubMembers(c, rest, x);
      SubMembers(c, rest, y);
      SubKeepsOrder(c, rest, x, y);
    } else if x != q[0] {
      SubKeepsOrder(c[1..], rest, x, y);
    }
  }

  /** The writers called from `w` to `u`. */
  ghost function CalledSince(w: World, u: World): seq<Writer>
    requires w.called <= u.called
  {
    u.called[|w.called|..]
  }

  /** The first turn: whoever waited behind the one called waits on in the same order, or is gone. */
  lemma ServeKeepsOrder(cfg: ServerConfig, w: World, socket: Socket, acts: seq<Act>, x: Writer, y: Writer)
    requires Core(cfg, w) && Awaited(w) && Ahead(w.queue, x, y) && x != w.queue[0]
    ensures var v := Serve(cfg, w, socket, acts);
            !v.blocked && y in v.queue ==> Gone(v, x) || Ahead(v.queue, x, y)
  {
    hide Core, Awaited, Serve, Gone;
    CoreFacts(cfg, w);
    var v := Serve(cfg, w, socket, acts);
    var rest := w.queue[1..];
    ServeMovesUp(cfg, w, socket, acts, x);
    if !v.blocked && y in v.queue && !Gone(v, x) {
      assert w.queue == [w.queue[0]] + rest;
      NoDupCons(w.queue[0], rest);
      ServeOnlyShortens(cfg, w, socket, acts);
      SubKeepsOrder(v.queue, rest, x, y);
    }
  }

  /** If a writer is called, so was every writer ahead of it in the queue, unless its connection was closed. */
  lemma {:induction false} NobodyIsPassedOver(cfg: ServerConfig, w: World, socket: Socket, replies: nat -> seq<Act>,
                                              k: nat, x: Writer, y: Writer)
    requires Core(cfg, w) && Awaited(w) && Ahead(w.queue, x, y)
    ensures var u := ServeAll(cfg, w, socket, replies, k);
            w.called <= u.called && (y in CalledSince(w, u) ==> x in CalledSince(w, u) || Gone(u, x))
    decreases if w.blocked then 0 else 1 + |w.queue|
  {
    hide Core, Awaited, Serve, Gone, Ahead, Pos, Sub, NoDup, Grows;
    CoreFacts(cfg, w);
    ServeAllGrows(cfg, w, socket, replies, k);
    AheadFacts(w.queue, x, y);
    if !w.blocked {
      var v := Serve(cfg, w, socket, replies(k));
      var u := ServeAll(cfg, v, socket, replies, k + 1);
      ServeKeeps(cfg, w, socket, replies(k));
      ServeGrows(cfg, w, socket, replies(k));
      ServeAllGrows(cfg, v, socket, replies, k + 1);
      CalledAlong(w, v, u);
      if x != w.queue[0] && y in CalledSince(v, u) {
        assert !v.blocked;
        ServesInOrder(cfg, v, socket, replies, k + 1);
        SubMembers(CalledSince(v, u), v.queue, y);
        ServeKeepsOrder(cfg, w, socket, replies(k), x, y);
        if Gone(v, x) {
          GoneStaysGone(cfg, v, socket, replies, k + 1, x);
        } else {
          NobodyIsPassedOver(cfg, v, socket, replies, k + 1, x, y);
        }
      }
    }
  }

  lemma CalledAlong(w: World, v: World, u: World)
    requires w.queue != [] && v.called == w.called + [w.queue[0]] && Grows(v, u)
    ensures w.called <= v.called <= u.called && CalledSince(w, u) == [w.queue[0]] + CalledSince(v, u)
  {
  }

  lemma AheadFacts(q: seq<Writer>, x: Writer, y: Writer)
    requires Ahead(q, x, y)
    ensures x in q && y in q && y != q[0]
  {
  }
}
