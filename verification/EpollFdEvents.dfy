/** Which events callbacks are told of: those the kernel reported, and those left over from a registration before. */
module EpollFdEvents {
  import opened Sequences
  import opened EpollFdSpec
  import opened EpollFdPasses

  // ---------- callbacks that leave the events of a descriptor to the kernel ----------

  /** Nothing that a callback does, or the callbacks it triggers, sets events for `fd`. */
  ghost predicate Quiet(script: Script, fd: int)
    decreases script
  {
    script.Do? ==> QuietOp(script.op, fd) && Quiet(script.next, fd)
  }

  ghost predicate QuietOp(op: Op, fd: int)
    decreases op
  {
    match op
    case RegisterFD(_, _, _, onUnregistration, onRegistration) =>
      Quiet(onUnregistration, fd) && Quiet(onRegistration, fd)
    case UnregisterFD(_, onUnregistration) => Quiet(onUnregistration, fd)
    case ModifyFD(_, _, _, onModification) => Quiet(onModification, fd)
    case SetFDReady(f, _) => f != fd
    case SetFDNotReady(_) => true
    case HandleEvent(f, _) => f != fd
  }

  /** From `s` to `r`, `fd` waits on the walked list with its callback and its events, unless something dequeued it. */
  ghost predicate Leaves(s: State, r: State, fd: int) {
    && s.log <= r.log
    && (fd in s.tmp && !Touches(r.log[|s.log|..], fd) ==>
          && fd in r.tmp && fd in s.slots && fd in r.slots && r.slots[fd].cb == s.slots[fd].cb
          && r.slots[fd].asserted == s.slots[fd].asserted && r.slots[fd].fake == s.slots[fd].fake)
  }

  lemma LeavesTransitive(s: State, t: State, r: State, fd: int)
    requires Leaves(s, t, fd) && Leaves(t, r, fd)
    ensures Leaves(s, r, fd)
  {
    assert r.log[|s.log|..] == t.log[|s.log|..] + r.log[|t.log|..];
    TouchesConcat(t.log[|s.log|..], r.log[|t.log|..]);
  }

  lemma DequeueTouches(s: State, fd: int)
    requires Inv(s)
    ensures var r := Dequeue(s, fd);
            s.log <= r.log && Touches(r.log[|s.log|..], fd)
  {
    var r := Dequeue(s, fd);
    assert r.log[|s.log|..][0].fd == fd;
  }

  lemma {:induction false} RunLeaves(s: State, script: Script, fd: int)
    requires Inv(s) && Polite(script, s.busy) && Quiet(script, fd)
    ensures Leaves(s, Run(s, script), fd)
    decreases script, 0
  {
    hide Inv, Frame, Apply, Leaves;
    match script {
      case Return => NothingLeaves(s, fd);
      case Do(op, next) =>
        var t := Apply(s, op);
        ApplyLeaves(s, op, fd);
        assert Inv(t) && t.busy == s.busy by { FrameFacts(s, t); }
        RunLeaves(t, next, fd);
        LeavesTransitive(s, t, Run(t, next), fd);
    }
  }

  lemma NothingLeaves(s: State, fd: int)
    requires Inv(s)
    ensures Leaves(s, s, fd)
  {
  }

  lemma FrameFacts(s: State, r: State)
    requires Frame(s, r)
    ensures r.busy == s.busy && r.running == s.running && s.log <= r.log
    ensures r.tmp == Untouched(s.tmp, r.log[|s.log|..])
  {
  }

  lemma {:induction false} SupplantLeaves(s: State, f: int, cb: Callback, mask: Mask, onUnregistration: Script, fd: int)
    requires Inv(s) && Registered(s, f) && f !in s.busy && Polite(onUnregistration, s.busy + {f})
    requires Quiet(onUnregistration, fd)
    ensures Leaves(s, Supplant(s, f, cb, mask, onUnregistration), fd)
    decreases onUnregistration, 1
  {
    hide Inv, Frame, Run, Supplant, Polite, Quiet;
    SupplantSteps(s, f, cb, mask, onUnregistration);
    SupplantCalls(s, f);
    var d := Dequeue(s, f);
    var u := Begin(d, f);
    var v := Run(u, onUnregistration);
    RunLeaves(u, onUnregistration, fd);
    Unwinds(s, d, u, v, Replace(s, v, f, cb, mask), f, fd);
  }

  lemma {:induction false} WithdrawLeaves(s: State, f: int, onUnregistration: Script, fd: int)
    requires Inv(s) && Registered(s, f) && f !in s.busy && Polite(onUnregistration, s.busy + {f})
    requires Quiet(onUnregistration, fd)
    ensures Leaves(s, Withdraw(s, f, onUnregistration), fd)
    decreases onUnregistration, 1
  {
    hide Inv, Frame, Run, Withdraw, Polite, Quiet;
    WithdrawSteps(s, f, onUnregistration);
    WithdrawCalls(s, f);
    var d := Dequeue(s, f);
    var u := Depart(Begin(d, f), f);
    var v := Run(u, onUnregistration);
    RunLeaves(u, onUnregistration, fd);
    Unwinds(s, d, u, v, Discard(s, v, f), f, fd);
  }

  /** A call dequeues `f`, tells its callback in `u`, which returns in `v`, and then settles the slot of `f`. */
  lemma Unwinds(s: State, d: State, u: State, v: State, r: State, f: int, fd: int)
    requires Inv(s) && d == Dequeue(s, f) && u.slots == d.slots && u.tmp == d.tmp && u.log == d.log
    requires Leaves(u, v, fd) && r.log == v.log && r.tmp == v.tmp
    requires forall g :: g != f && g in v.slots ==> g in r.slots && r.slots[g] == v.slots[g]
    ensures Leaves(s, r, fd)
  {
    DequeueTouches(s, f);
    WithoutKeeps(s.tmp, f);
    assert s.log <= d.log <= v.log;
    assert r.log[|s.log|..] == d.log[|s.log|..] + v.log[|d.log|..];
    TouchesConcat(d.log[|s.log|..], v.log[|d.log|..]);
  }

  lemma {:induction false} ApplyLeaves(s: State, op: Op, fd: int)
    requires Inv(s) && PoliteOp(op, s.busy) && QuietOp(op, fd)
    ensures Leaves(s, Apply(s, op), fd)
    decreases op, 0
  {
    hide Inv, Frame, Leaves, Place, Withdraw, Remask, Ready, Assert, NotReady, Run, Polite;
    match op {
      case RegisterFD(f, cb, mask, onUnregistration, onRegistration) =>
        var t := Place(s, f, cb, mask, onUnregistration);
        PlaceLeaves(s, f, cb, mask, onUnregistration, fd);
        RunLeaves(t, onRegistration, fd);
        LeavesTransitive(s, t, Run(t, onRegistration), fd);
      case UnregisterFD(f, onUnregistration) =>
        if Registered(s, f) { WithdrawLeaves(s, f, onUnregistration, fd); } else { NothingLeaves(s, fd); }
      case ModifyFD(f, remove, add, onModification) =>
        if Registered(s, f) {
          var t := Remask(s, f, (s.slots[f].mask & !remove) | add);
          RemaskLeaves(s, f, (s.slots[f].mask & !remove) | add, fd);
          RunLeaves(t, onModification, fd);
          LeavesTransitive(s, t, Run(t, onModification), fd);
        } else {
          NothingLeaves(s, fd);
        }
      case SetFDReady(f, mask) => MarkLeaves(s, f, mask, fd);
      case SetFDNotReady(f) => NotReadyLeaves(s, f, fd);
      case HandleEvent(f, mask) => MarkLeaves(s, f, mask, fd);
    }
  }

  lemma RemaskLeaves(s: State, f: int, mask: Mask, fd: int)
    requires Inv(s) && Registered(s, f) && f !in s.busy
    ensures Leaves(s, Remask(s, f, mask), fd)
  {
    NothingLeaves(s, fd);
  }

  lemma MarkLeaves(s: State, f: int, mask: Mask, fd: int)
    requires Inv(s) && f !in s.busy && f != fd
    ensures Leaves(s, Ready(s, f, mask), fd) && Leaves(s, Assert(s, f, mask), fd)
  {
    NothingLeaves(s, fd);
  }

  lemma NotReadyLeaves(s: State, f: int, fd: int)
    requires Inv(s)
    ensures Leaves(s, NotReady(s, f), fd)
  {
    NothingLeaves(s, fd);
    if f in s.slots {
      var d := Dequeue(s, f);
      NothingLeaves(d, fd);
      Unwinds(s, d, d, d, d, f, fd);
    }
  }

  lemma {:induction false} PlaceLeaves(s: State, f: int, cb: Callback, mask: Mask, onUnregistration: Script, fd: int)
    requires Inv(s) && f !in s.busy && Polite(onUnregistration, s.busy + {f}) && Quiet(onUnregistration, fd)
    ensures Leaves(s, Place(s, f, cb, mask, onUnregistration), fd)
    decreases onUnregistration, 2
  {
    if Registered(s, f) {
      SupplantLeaves(s, f, cb, mask, onUnregistration, fd);
    } else {
      assert fd in s.tmp ==> fd != f && fd in s.slots;
      NothingLeaves(s, fd);
    }
  }

  // ---------- what a pass tells ----------

  /** The first thing that happens to `fd`. */
  function First(log: seq<Event>, fd: int): Option<Event> {
    if log == [] then None else if log[0].fd == fd then Some(log[0]) else First(log[1..], fd)
  }

  lemma {:induction false} FirstConcat(a: seq<Event>, b: seq<Event>, fd: int)
    ensures First(a, fd).Some? <==> Touches(a, fd)
    ensures First(a, fd).Some? ==> First(a, fd).value in a && First(a, fd).value.fd == fd
    ensures First(a + b, fd) == if Touches(a, fd) then First(a, fd) else First(b, fd)
  {
    if a == [] {
      assert a + b == b;
    } else {
      assert (a + b)[1..] == a[1..] + b;
      FirstConcat(a[1..], b, fd);
      TouchesConcat([a[0]], a[1..]);
      assert [a[0]] + a[1..] == a;
      assert Touches([a[0]], fd) <==> a[0].fd == fd by { assert [a[0]][0] == a[0]; }
    }
  }

  /** If the first thing that happens to `fd` after `s` is its delivery, it is told what it has in `s`. */
  ghost predicate Tells(s: State, log: seq<Event>, fd: int) {
    First(log, fd).Some? && First(log, fd).value.Delivered? ==>
      fd in s.slots && s.slots[fd].cb.Some? &&
      First(log, fd).value == Delivered(fd, s.slots[fd].cb.value, s.slots[fd].asserted | s.slots[fd].fake)
  }

  lemma QueuedIsRegistered(s: State, fd: int)
    requires Idle(s) && fd in s.tmp
    ensures fd in s.slots && s.slots[fd].cb.Some?
  {
    assert Queued(s, fd);
  }

  lemma StartTells(s: State)
    requires Idle(s) && s.tmp != []
    ensures var fd := s.tmp[0];
            && fd in s.slots && s.slots[fd].cb.Some?
            && Start(s).log ==
                 s.log + [Delivered(fd, s.slots[fd].cb.value, s.slots[fd].asserted | s.slots[fd].fake)]
  {
    QueuedIsRegistered(s, s.tmp[0]);
    hide Inv;
  }

  lemma StartPasses(s: State, fd: int)
    requires Idle(s) && fd in s.tmp && fd != s.tmp[0]
    ensures fd in Start(s).tmp && fd in s.slots && fd in Start(s).slots && Start(s).slots[fd] == s.slots[fd]
  {
    QueuedIsRegistered(s, fd);
    hide Inv;
  }

  lemma FinishLeaves(s: State, outReadyMask: Mask, fd: int)
    requires Inv(s) && s.running.Some? && s.busy == {} && s.running != Some(fd) && fd in s.slots
    ensures var r := Finish(s, outReadyMask);
            r.log == s.log && r.tmp == s.tmp && fd in r.slots && r.slots[fd] == s.slots[fd]
  {
  }

  lemma DequeuedFirst(log: seq<Event>, fd: int)
    requires forall i :: 0 <= i < |log| ==> log[i].Dequeued?
    ensures First(log, fd).Some? ==> First(log, fd).value.Dequeued?
  {
    FirstConcat(log, [], fd);
  }

  /** One delivery, to `fd` or to the descriptor before it. */
  lemma DeliverTells(s: State, reply: Reply, fd: int)
    requires Idle(s) && fd in s.tmp && Polite(reply.script, {}) && Quiet(reply.script, fd)
    ensures var r := Deliver(s, reply);
            s.log <= r.log && Tells(s, r.log[|s.log|..], fd) && Leaves(s, r, fd)
  {
    hide Inv, KernelMirrors, NoDup, Start, Run, Finish, KeepsReady, PassPart;
    var t := Start(s);
    var u := Run(t, reply.script);
    var r := Finish(u, reply.outReadyMask);
    QueuedIsRegistered(s, fd);
    StartTells(s);
    if s.tmp[0] != fd { StartPasses(s, fd); }
    FrameFacts(t, u);
    RunLeaves(t, reply.script, fd);
    var e, rest := t.log[|s.log|], u.log[|t.log|..];
    assert u.log[|s.log|..] == [e] + rest;
    assert [e][0].fd == s.tmp[0] && First([e], fd) == if s.tmp[0] == fd then Some(e) else None;
    FirstConcat([e], rest, fd);
    TouchesConcat([e], rest);
    DequeuedFirst(rest, fd);
    if s.tmp[0] != fd && !Touches(rest, fd) {
      FinishLeaves(u, reply.outReadyMask, fd);
    }
  }

  lemma {:induction false} PassTells(s: State, replies: nat -> Reply, k: nat, fd: int)
    requires Idle(s) && fd in s.tmp && forall i :: Polite(replies(i).script, {}) && Quiet(replies(i).script, fd)
    ensures var r := Pass(s, replies, k);
            s.log <= r.log && Tells(s, r.log[|s.log|..], fd)
    decreases |s.tmp|
  {
    hide Idle, PassPart, Polite, Quiet, Deliver, Leaves, Tells;
    var t := Deliver(s, replies(k));
    var r := Pass(t, replies, k + 1);
    DeliverTells(s, replies(k), fd);
    PassGrows(t, replies, k + 1);
    if fd in t.tmp {
      PassTells(t, replies, k + 1, fd);
    }
    TellsOn(s, t, r, fd);
  }

  lemma PassGrows(s: State, replies: nat -> Reply, k: nat)
    requires Idle(s) && forall i :: Polite(replies(i).script, {})
    ensures s.log <= Pass(s, replies, k).log
  {
  }

  lemma TellsOn(s: State, t: State, r: State, fd: int)
    requires s.log <= t.log <= r.log && fd in s.tmp && Tells(s, t.log[|s.log|..], fd) && Leaves(s, t, fd)
    requires fd in t.tmp ==> Tells(t, r.log[|t.log|..], fd)
    ensures Tells(s, r.log[|s.log|..], fd)
  {
    assert r.log[|s.log|..] == t.log[|s.log|..] + r.log[|t.log|..];
    FirstConcat(t.log[|s.log|..], r.log[|t.log|..], fd);
  }

  // ---------- what epoll_wait reports ----------

  /** The last mask reported for `fd`, or `before` if there is none. */
  function LastMask(events: seq<EpollEvent>, fd: int, before: Mask): Mask {
    if events == [] then before else LastMask(events[1..], fd, if events[0].fd == fd then events[0].mask else before)
  }

  lemma {:induction false} HandleAllStores(s: State, events: seq<EpollEvent>, fd: int)
    requires Idle(s) && s.tmp == [] && Registered(s, fd)
    ensures var t := HandleAll(s, events);
            fd in t.slots && t.slots[fd] == s.slots[fd].(asserted := LastMask(events, fd, s.slots[fd].asserted))
    decreases |events|
  {
    if events != [] {
      AssertQueues(s, events[0].fd, events[0].mask);
      AssertStores(s, events[0].fd, events[0].mask, fd);
      HandleAllStores(Assert(s, events[0].fd, events[0].mask), events[1..], fd);
    }
  }

  lemma AssertStores(s: State, f: int, mask: Mask, fd: int)
    requires Idle(s) && Registered(s, fd)
    ensures var t := Assert(s, f, mask);
            fd in t.slots && t.slots[fd] == if f == fd then s.slots[fd].(asserted := mask) else s.slots[fd]
  {
  }

  /**
   Every event that the kernel reports for a registered descriptor reaches its callback in the same pass, unless the
   descriptor is dequeued first.
   */
  lemma EventsAreDelivered(s: State, events: seq<EpollEvent>, replies: nat -> Reply, fd: int)
    requires Idle(s) && s.tmp == [] && forall i :: Polite(replies(i).script, {})
    ensures var t := HandleAll(s, events);
            var r := CallReadyListCallbacks(t, replies);
            && s.log <= r.log
            && ((exists e :: e in events && e.fd == fd && Registered(s, fd)) || fd in s.ready ==>
                  Touches(r.log[|s.log|..], fd))
            && Deliveries(r.log[|s.log|..]) == Served(t.ready, r.log[|s.log|..])
  {
    hide Inv, Frame, PassPart;
    PassTouchesAll(HandleAll(s, events), replies);
    PassDelivers(HandleAll(s, events), replies);
  }

  /**
   A descriptor whose turn comes before it is dequeued is told the last mask that epoll_wait reported for it and what
   was faked before, of the callback it had, provided callbacks do not set events for it themselves.
   */
  lemma TellsTheLastReport(s: State, events: seq<EpollEvent>, replies: nat -> Reply, fd: int)
    requires Idle(s) && s.tmp == [] && Registered(s, fd)
    requires forall i :: Polite(replies(i).script, {}) && Quiet(replies(i).script, fd)
    requires fd in HandleAll(s, events).ready
    ensures var r := CallReadyListCallbacks(HandleAll(s, events), replies);
            && s.log <= r.log
            && First(r.log[|s.log|..], fd).Some?
            && var first := First(r.log[|s.log|..], fd).value;
               first.Delivered? ==>
                 first == Delivered(fd, s.slots[fd].cb.value,
                                    LastMask(events, fd, s.slots[fd].asserted) | s.slots[fd].fake)
  {
    hide Inv, Frame, PassPart, Quiet, Polite;
    var t := HandleAll(s, events);
    var r := CallReadyListCallbacks(t, replies);
    HandleAllStores(s, events, fd);
    PassTouchesAll(t, replies);
    PassTells(Swap(t), replies, 0, fd);
    FirstConcat(r.log[|s.log|..], [], fd);
  }

  // ---------- events that outlive a registration ----------

  /** Whatever OnUnregistration does, a new registration finds the asserted events of the node that was there. */
  lemma RegistrationKeepsAssertedEvents(s: State, fd: int, cb: Callback, mask: Mask, onUnregistration: Script)
    requires Inv(s) && fd !in s.busy && Polite(onUnregistration, s.busy + {fd})
    ensures var t := Place(s, fd, cb, mask, onUnregistration);
            && fd in t.slots && t.slots[fd].cb == Some(cb) && t.slots[fd].mask == mask && t.slots[fd].fake == 0
            && t.slots[fd].asserted == (if fd in s.slots then s.slots[fd].asserted else 0)
            && (t.slots[fd].asserted != 0 <==> fd in s.slots && s.slots[fd].asserted != 0)
  {
    hide KernelMirrors, NoDup, KeepsReady;
    if Registered(s, fd) {
      SupplantSteps(s, fd, cb, mask, onUnregistration);
    }
  }

  /** Whatever OnUnregistration does, a node outlives its registration exactly if its OnEvent runs, with its events. */
  lemma UnregistrationKeepsRunningNodes(s: State, fd: int, onUnregistration: Script)
    requires Inv(s) && Registered(s, fd) && fd !in s.busy && Polite(onUnregistration, s.busy + {fd})
    ensures var t := Withdraw(s, fd, onUnregistration);
            && (fd in t.slots <==> s.running == Some(fd))
            && (fd in t.slots ==> t.slots[fd] == Slot(None, 0, s.slots[fd].asserted, 0, true))
  {
    hide KernelMirrors, NoDup, KeepsReady;
    WithdrawSteps(s, fd, onUnregistration);
  }

  // ---------- runs from the empty server ----------

  function Initial(): State {
    State(map[], [], [], map[], None, {}, {}, [])
  }

  /** In every state of every run the kernel holds exactly the registered descriptors, with their masks. */
  lemma KernelFollows(steps: seq<Step>)
    requires forall i :: 0 <= i < |steps| ==> PoliteStep(steps[i])
    ensures Idle(Initial()) && Initial().tmp == [] && var s := History(Initial(), steps);
            && (forall fd :: fd in s.kernel <==> fd in s.slots)
            && (forall fd :: fd in s.slots ==> s.slots[fd].cb.Some? && s.kernel[fd] == KernelMask(s.slots[fd].mask))
            && (forall fd :: fd in s.ready ==> fd in s.slots) && NoDup(s.ready)
  {
    assert Idle(Initial());
    var s := History(Initial(), steps);
    assert Idle(s);
    assert forall fd :: fd in s.slots ==> !s.slots[fd].inUse;
  }

  /** For one: a callback registered over another finds the events that were asserted for the other. */
  lemma AssertedEventsOutliveTheirCallback(events: Mask)
    requires events != 0
    ensures var s := Initial();
            Idle(s) &&
            var t := Place(s, 5, 1, 1, Return);
            Idle(t) &&
            var u := Assert(t, 5, events);
            Idle(u) && 5 in Place(u, 5, 2, 1, Return).slots
            && Place(u, 5, 2, 1, Return).slots[5].cb == Some(2) && Place(u, 5, 2, 1, Return).slots[5].asserted == events
  {
    assert Idle(Initial());
    var t := Place(Initial(), 5, 1, 1, Return);
    RegistrationKeepsAssertedEvents(Initial(), 5, 1, 1, Return);
    AssertStores(t, 5, events, 5);
    RegistrationKeepsAssertedEvents(Assert(t, 5, events), 5, 2, 1, Return);
  }
}
