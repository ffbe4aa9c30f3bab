/**
 Passes over the ready list as values: OnEvent is called for what was ready when the pass began, whatever the
 callbacks do meanwhile; and runs of calls and passes.
 */
module EpollFdPasses {
  import opened Sequences
  import opened EpollFdSpec

  // ---------- one pass over the ready list ----------

  /** The head of the list being walked is taken off it and its OnEvent begins. */
  ghost function Start(s: State): (r: State)
    requires Idle(s) && s.tmp != []
    ensures Inv(r) && r.busy == {} && r.running == Some(s.tmp[0]) && r.tmp == s.tmp[1..] && r.ready == s.ready
    ensures |r.log| == |s.log| + 1 && s.log <= r.log && r.log[|s.log|].Delivered? && r.log[|s.log|].fd == s.tmp[0]
  {
    var fd := s.tmp[0];
    var slot := s.slots[fd];
    assert s.tmp == [fd] + s.tmp[1..];
    NoDupCons(fd, s.tmp[1..]);
    assert Queued(s, fd);
    assert forall x :: x in s.tmp[1..] ==> x in s.tmp && x != fd;
    s.(tmp := s.tmp[1..],
       running := Some(fd),
       slots := s.slots[fd := slot.(asserted := 0, fake := 0, inUse := true)],
       log := s.log + [Delivered(fd, slot.cb.value, slot.asserted | slot.fake)])
  }

  /** OnEvent has returned and its node is still registered, or is again. */
  ghost function Release(s: State): (r: State)
    requires Inv(s) && s.running.Some? && s.busy == {} && Registered(s, s.running.value)
    ensures Idle(r) && r.log == s.log && r.tmp == s.tmp && r.ready == s.ready && Registered(r, s.running.value)
  {
    var fd := s.running.value;
    s.(running := None, slots := s.slots[fd := s.slots[fd].(inUse := false)])
  }

  /** OnEvent has returned and its node was unregistered meanwhile. */
  ghost function Bury(s: State): (r: State)
    requires Inv(s) && s.running.Some? && s.busy == {} && !Registered(s, s.running.value)
    ensures Idle(r) && r.log == s.log && r.tmp == s.tmp && r.ready == s.ready
  {
    s.(running := None, slots := s.slots - {s.running.value})
  }

  /** What the server does once OnEvent has returned: a callback that asked for more is queued again. */
  ghost function Finish(s: State, outReadyMask: Mask): (r: State)
    requires Inv(s) && s.running.Some? && s.busy == {}
    ensures Idle(r) && r.log == s.log && r.tmp == s.tmp
    ensures forall fd :: fd in s.ready ==> fd in r.ready
    ensures outReadyMask != 0 && Registered(s, s.running.value) ==> Queued(r, s.running.value)
  {
    var fd := s.running.value;
    if !Registered(s, fd) then Bury(s)
    else
      var t := Release(s);
      if outReadyMask == 0 then t else Enqueue(Mark(t, fd, t.slots[fd].asserted, outReadyMask), fd)
  }

  /** Part of a pass leads from `s` to `r`: deliveries in queue order, and what became ready meanwhile waits. */
  ghost predicate PassPart(s: State, r: State) {
    && KeepsReady(s, r)
    && Disciplined(s.tmp, r.log[|s.log|..])
    && r.tmp == Untouched(s.tmp, r.log[|s.log|..])
  }

  lemma PassPartTransitive(s: State, t: State, r: State)
    requires PassPart(s, t) && PassPart(t, r)
    ensures PassPart(s, r)
  {
    var a, b := t.log[|s.log|..], r.log[|t.log|..];
    assert r.log[|s.log|..] == a + b;
    DisciplinedConcat(s.tmp, a, b);
    KeepsReadyTransitive(s, t, r);
  }

  lemma StartUnqueues(s: State)
    requires Idle(s) && s.tmp != []
    ensures var u := Unqueue(s, s.tmp[0]);
            u.tmp == s.tmp[1..] && u.ready == s.ready && Registered(s, s.tmp[0])
  {
    assert s.tmp == [s.tmp[0]] + s.tmp[1..];
    WithoutCons(s.tmp[0], s.tmp[1..], s.tmp[0]);
    assert Queued(s, s.tmp[0]);
  }

  ghost function Deliver(s: State, reply: Reply): (r: State)
    requires Idle(s) && s.tmp != [] && Polite(reply.script, {})
    ensures Idle(r) && |r.tmp| < |s.tmp| && PassPart(s, r)
  {
    var t := Start(s);
    var u := Run(t, reply.script);
    StartThenFrame(s, t, u);
    Finish(u, reply.outReadyMask)
  }

  ghost function Pass(s: State, replies: nat -> Reply, k: nat): (r: State)
    requires Idle(s) && forall i :: Polite(replies(i).script, {})
    ensures Idle(r) && r.tmp == [] && PassPart(s, r)
    decreases |s.tmp|
  {
    if s.tmp == [] then assert Untouched([], []) == []; s
    else
      var t := Deliver(s, replies(k));
      var r := Pass(t, replies, k + 1);
      PassPartTransitive(s, t, r);
      r
  }

  /** The ready list becomes the list to walk, leaving room for new entries. */
  ghost function Swap(s: State): (r: State)
    requires Inv(s) && s.tmp == []
    ensures Inv(r) && (Idle(s) ==> Idle(r))
  {
    s.(ready := [], tmp := s.ready)
  }

  ghost function CallReadyListCallbacks(s: State, replies: nat -> Reply): (r: State)
    requires Idle(s) && s.tmp == [] && forall i :: Polite(replies(i).script, {})
    ensures Idle(r) && r.tmp == []
  {
    Pass(Swap(s), replies, 0)
  }

  // ---------- what a pass delivers ----------

  /** Every delivery goes to the oldest descriptor of the walked queue `q` not yet named in the log. */
  ghost predicate Disciplined(q: seq<int>, log: seq<Event>) {
    forall i :: 0 <= i < |log| && log[i].Delivered? ==>
      Untouched(q, log[..i]) != [] && Untouched(q, log[..i])[0] == log[i].fd
  }

  lemma DisciplinedConcat(q: seq<int>, a: seq<Event>, b: seq<Event>)
    requires Disciplined(q, a) && Disciplined(Untouched(q, a), b)
    ensures Disciplined(q, a + b) && Untouched(q, a + b) == Untouched(Untouched(q, a), b)
  {
    UntouchedConcat(q, a, b);
    forall i | 0 <= i < |a + b| && (a + b)[i].Delivered?
      ensures Untouched(q, (a + b)[..i]) != [] && Untouched(q, (a + b)[..i])[0] == (a + b)[i].fd
    {
      if i < |a| {
        assert (a + b)[..i] == a[..i];
      } else {
        assert (a + b)[..i] == a + b[..i - |a|];
        UntouchedConcat(q, a, b[..i - |a|]);
      }
    }
  }

  lemma StartThenFrame(s: State, t: State, u: State)
    requires Idle(s) && s.tmp != [] && t == Start(s) && Frame(t, u)
    ensures PassPart(s, u) && |u.tmp| < |s.tmp|
  {
    var e, rest := t.log[|s.log|], u.log[|t.log|..];
    assert u.log[|s.log|..] == [e] + rest;
    assert s.tmp == [e.fd] + t.tmp;
    WithoutCons(e.fd, t.tmp, e.fd);
    assert Untouched(s.tmp, [e]) == Without(Untouched(s.tmp, []), e.fd) == t.tmp;
    assert Untouched(s.tmp, [e][..0]) == s.tmp;
    DisciplinedConcat(s.tmp, [e], rest);
    TouchesConcat([e], rest);
  }

  function Deliveries(log: seq<Event>): seq<int> {
    if log == [] then []
    else (if log[0].Delivered? then [log[0].fd] else []) + Deliveries(log[1..])
  }

  /** Is the first thing that happens to `fd` its delivery? */
  predicate DeliveredFirst(log: seq<Event>, fd: int) {
    log != [] && if log[0].fd == fd then log[0].Delivered? else DeliveredFirst(log[1..], fd)
  }

  ghost function Served(q: seq<int>, log: seq<Event>): seq<int> {
    if q == [] then []
    else (if DeliveredFirst(log, q[0]) then [q[0]] else []) + Served(q[1..], log)
  }

  lemma {:induction false} ServedWithout(q: seq<int>, log: seq<Event>, fd: int)
    requires NoDup(q) && log != [] && log[0].fd == fd
    requires log[0].Dequeued? || fd !in q
    ensures Served(q, log) == Served(Without(q, fd), log[1..])
  {
    if q != [] {
      assert q == [q[0]] + q[1..];
      NoDupCons(q[0], q[1..]);
      WithoutCons(q[0], q[1..], fd);
      ServedWithout(q[1..], log, fd);
    }
  }

  /**
   A pass calls OnEvent for exactly those queued descriptors that no callback dequeued before their turn,
   once each, in queue order, and for no others.
   */
  lemma {:induction false} DeliversExactlyTheUndequeued(q: seq<int>, log: seq<Event>)
    requires NoDup(q) && Disciplined(q, log) && Untouched(q, log) == []
    ensures Deliveries(log) == Served(q, log)
    decreases |log|
  {
    if log != [] {
      var e, rest := log[0], log[1..];
      var q' := Without(q, e.fd);
      assert log == [e] + rest;
      UntouchedConcat(q, [e], rest);
      assert Untouched(q, [e]) == Without(Untouched(q, []), e.fd) == q';
      forall i | 0 <= i < |rest| && rest[i].Delivered?
        ensures Untouched(q', rest[..i]) != [] && Untouched(q', rest[..i])[0] == rest[i].fd
      {
        assert log[..i + 1] == [e] + rest[..i];
        UntouchedConcat(q, [e], rest[..i]);
      }
      WithoutKeeps(q, e.fd);
      DeliversExactlyTheUndequeued(q', rest);
      if e.Delivered? {
        assert Untouched(q, log[..0]) == q;
        assert q == [q[0]] + q[1..];
        NoDupCons(q[0], q[1..]);
        WithoutCons(q[0], q[1..], e.fd);
        ServedWithout(q[1..], log, e.fd);
      } else {
        ServedWithout(q, log, e.fd);
      }
    }
  }

  lemma {:induction false} UntouchedMembers(q: seq<int>, log: seq<Event>, fd: int)
    requires NoDup(q)
    ensures NoDup(Untouched(q, log)) && (fd in Untouched(q, log) <==> fd in q && !Touches(log, fd))
  {
    if log != [] {
      var most, last := log[..|log| - 1], log[|log| - 1..];
      assert log == most + last;
      UntouchedMembers(q, most, fd);
      WithoutKeeps(Untouched(q, most), last[0].fd);
      TouchesConcat(most, last);
      assert Touches(last, fd) <==> last[0].fd == fd;
    }
  }

  // ---------- whole runs ----------

  /** What the program does to the server between callbacks: calls it, or lets it run the ready callbacks. */
  datatype Step = Call(op: Op) | Callbacks(replies: nat -> Reply)

  ghost predicate PoliteStep(step: Step) {
    match step
    case Call(op) => PoliteOp(op, {})
    case Callbacks(replies) => forall i :: Polite(replies(i).script, {})
  }

  ghost function Advance(s: State, step: Step): (r: State)
    requires Idle(s) && s.tmp == [] && PoliteStep(step)
    ensures Idle(r) && r.tmp == [] && KeepsReady(s, r)
  {
    match step
    case Call(op) =>
      var r := Apply(s, op);
      UntouchedEmpty(r.log[|s.log|..]);
      r
    case Callbacks(replies) =>
      var r := CallReadyListCallbacks(s, replies);
      PassTouchesAll(s, replies);
      r
  }

  ghost function History(s: State, steps: seq<Step>): (r: State)
    requires Idle(s) && s.tmp == [] && forall i :: 0 <= i < |steps| ==> PoliteStep(steps[i])
    ensures Idle(r) && r.tmp == []
    decreases |steps|
  {
    if steps == [] then s else History(Advance(s, steps[0]), steps[1..])
  }

  lemma {:induction false} UntouchedEmpty(log: seq<Event>)
    ensures Untouched([], log) == []
  {
    if log != [] {
      UntouchedEmpty(log[..|log| - 1]);
    }
  }

  /** Every descriptor queued at the start of a pass leaves that pass delivered or dequeued. */
  lemma PassTouchesAll(s: State, replies: nat -> Reply)
    requires Idle(s) && s.tmp == [] && forall i :: Polite(replies(i).script, {})
    ensures var r := CallReadyListCallbacks(s, replies);
            s.log <= r.log && forall fd :: fd in s.ready ==> Touches(r.log[|s.log|..], fd)
  {
    var r := CallReadyListCallbacks(s, replies);
    forall fd | fd in s.ready ensures Touches(r.log[|s.log|..], fd) {
      UntouchedMembers(s.ready, r.log[|s.log|..], fd);
    }
  }

  /** What one pass delivers, as a function of the queue at its start and of what the callbacks dequeue. */
  lemma PassDelivers(s: State, replies: nat -> Reply)
    requires Idle(s) && s.tmp == [] && forall i :: Polite(replies(i).script, {})
    ensures var r := CallReadyListCallbacks(s, replies);
            s.log <= r.log && Deliveries(r.log[|s.log|..]) == Served(s.ready, r.log[|s.log|..])
  {
    var r := CallReadyListCallbacks(s, replies);
    DeliversExactlyTheUndequeued(s.ready, r.log[|s.log|..]);
  }

  /** No readiness is lost over any run: a queued descriptor stays queued until it is delivered or dequeued. */
  lemma {:induction false} QueuedUntilTouched(s: State, steps: seq<Step>)
    requires Idle(s) && s.tmp == [] && forall i :: 0 <= i < |steps| ==> PoliteStep(steps[i])
    ensures KeepsReady(s, History(s, steps))
    decreases |steps|
  {
    if steps != [] {
      var t := Advance(s, steps[0]);
      QueuedUntilTouched(t, steps[1..]);
      KeepsReadyTransitive(s, t, History(t, steps[1..]));
    }
  }

  // ---------- what epoll_wait returns ----------

  datatype EpollEvent = EpollEvent(fd: int, mask: Mask)

  lemma AssertQueues(s: State, fd: int, mask: Mask)
    requires Idle(s) && s.tmp == []
    ensures var r := Assert(s, fd, mask);
            && Idle(r) && r.tmp == [] && r.log == s.log && (Registered(s, fd) ==> fd in r.ready)
            && (forall f :: f in s.ready ==> f in r.ready)
            && (forall f :: Registered(r, f) <==> Registered(s, f))
  {
    hide Frame, NoDup, KernelMirrors;
  }

  /** Every event is handed to HandleEvent in turn; the registered descriptors among them are then ready. */
  ghost function HandleAll(s: State, events: seq<EpollEvent>): (r: State)
    requires Idle(s) && s.tmp == []
    ensures Idle(r) && r.tmp == [] && r.log == s.log
    ensures forall fd :: fd in s.ready ==> fd in r.ready
    ensures forall e :: e in events && Registered(s, e.fd) ==> e.fd in r.ready
    decreases |events|
  {
    if events == [] then s
    else
      AssertQueues(s, events[0].fd, events[0].mask);
      HandleAll(Assert(s, events[0].fd, events[0].mask), events[1..])
  }
}
