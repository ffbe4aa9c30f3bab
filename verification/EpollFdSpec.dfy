/**
 The file-descriptor half of the epoll server as plain values: what each public call does to the registered
 descriptors, the two ready lists and the kernel's interest set.

 User callbacks are adversarial: what one call of a callback does to the server is a finite `Script`
 of server calls, and each of those calls carries the scripts of the callbacks it triggers in turn.
 */
module EpollFdSpec {
  import opened Sequences

  type Mask = bv32
  type Callback = nat

  const EPOLLERR: Mask := 0x008
  const EPOLLHUP: Mask := 0x010

  datatype Op =
    | RegisterFD(fd: int, cb: Callback, mask: Mask, onUnregistration: Script, onRegistration: Script)
    | UnregisterFD(fd: int, onUnregistration: Script)
    | ModifyFD(fd: int, remove: Mask, add: Mask, onModification: Script)
    | SetFDReady(fd: int, mask: Mask)
    | SetFDNotReady(fd: int)
    | HandleEvent(fd: int, mask: Mask)

  datatype Script = Return | Do(op: Op, next: Script)

  /** One call of OnEvent: what it does to the server, and the mask it leaves in out_ready_mask. */
  datatype Reply = Reply(script: Script, outReadyMask: Mask)

  /** The one contract on callbacks: OnUnregistration does not call the server for its own descriptor. */
  ghost predicate Polite(script: Script, busy: set<int>)
    decreases script
  {
    script.Do? ==> PoliteOp(script.op, busy) && Polite(script.next, busy)
  }

  ghost predicate PoliteOp(op: Op, busy: set<int>)
    decreases op
  {
    && op.fd !in busy
    && match op
       case RegisterFD(fd, _, _, onUnregistration, onRegistration) =>
         Polite(onUnregistration, busy + {fd}) && Polite(onRegistration, busy)
       case UnregisterFD(fd, onUnregistration) => Polite(onUnregistration, busy + {fd})
       case ModifyFD(_, _, _, onModification) => Polite(onModification, busy)
       case _ => true
  }

  // ---------- state ----------

  /** One CBAndEventMask without its links; `cb.None?` is the null callback of a node kept alive. */
  datatype Slot = Slot(cb: Option<Callback>, mask: Mask, asserted: Mask, fake: Mask, inUse: bool)

  /** History of what took descriptors off the ready lists. */
  datatype Event = Dequeued(fd: int) | Delivered(fd: int, cb: Callback, events: Mask)

  /**
   `running` is the descriptor whose OnEvent is on the stack, `busy` those whose OnUnregistration is,
   and `leaving` those of them already removed from the kernel.
   */
  datatype State = State(
    slots: map<int, Slot>, ready: seq<int>, tmp: seq<int>, kernel: map<int, Mask>,
    running: Option<int>, busy: set<int>, leaving: set<int>, log: seq<Event>)

  predicate Registered(s: State, fd: int) {
    fd in s.slots && s.slots[fd].cb.Some?
  }

  predicate Queued(s: State, fd: int) {
    fd in s.ready || fd in s.tmp
  }

  function KernelMask(mask: Mask): Mask {
    mask | EPOLLERR | EPOLLHUP
  }

  ghost predicate KernelMirrors(s: State) {
    && (forall fd :: fd in s.kernel <==> Registered(s, fd) && fd !in s.leaving)
    && (forall fd :: fd in s.kernel ==> fd in s.slots && s.kernel[fd] == KernelMask(s.slots[fd].mask))
  }

  ghost predicate Inv(s: State) {
    && NoDup(s.ready) && NoDup(s.tmp)
    && (forall fd :: fd in s.ready ==> fd !in s.tmp)
    && (forall fd :: Queued(s, fd) ==> Registered(s, fd) && fd !in s.busy)
    && (forall fd :: fd in s.slots ==> (s.slots[fd].inUse <==> s.running == Some(fd)))
    && (forall fd :: fd in s.slots && s.slots[fd].cb.None? ==> s.slots[fd].inUse)
    && (s.running.Some? ==> s.running.value in s.slots)
    && (forall fd :: fd in s.busy ==> Registered(s, fd))
    && s.leaving <= s.busy
    && KernelMirrors(s)
  }

  /** Between callbacks and outside a pass. */
  ghost predicate Idle(s: State) {
    Inv(s) && s.running.None? && s.busy == {}
  }

  /** The queue `q` without the descriptors that the events of `log` name. */
  ghost function Untouched(q: seq<int>, log: seq<Event>): (r: seq<int>)
    ensures |r| <= |q|
  {
    if log == [] then q else Without(Untouched(q, log[..|log| - 1]), log[|log| - 1].fd)
  }

  lemma {:induction false} UntouchedConcat(q: seq<int>, a: seq<Event>, b: seq<Event>)
    ensures Untouched(q, a + b) == Untouched(Untouched(q, a), b)
  {
    if b == [] {
      assert a + b == a;
    } else {
      assert (a + b)[..|a + b| - 1] == a + b[..|b| - 1];
      UntouchedConcat(q, a, b[..|b| - 1]);
    }
  }

  ghost predicate Touches(log: seq<Event>, fd: int) {
    exists i :: 0 <= i < |log| && log[i].fd == fd
  }

  /** What was ready in `s` is ready in `r` unless something since took it off the list. */
  ghost predicate KeepsReady(s: State, r: State) {
    && s.log <= r.log
    && (forall fd :: fd in s.ready && !Touches(r.log[|s.log|..], fd) ==> fd in r.ready)
  }

  lemma TouchesConcat(a: seq<Event>, b: seq<Event>)
    ensures forall fd :: Touches(a + b, fd) <==> Touches(a, fd) || Touches(b, fd)
  {
    forall fd | Touches(a, fd) ensures Touches(a + b, fd) {
      var i :| 0 <= i < |a| && a[i].fd == fd;
      assert (a + b)[i].fd == fd;
    }
    forall fd | Touches(b, fd) ensures Touches(a + b, fd) {
      var i :| 0 <= i < |b| && b[i].fd == fd;
      assert (a + b)[|a| + i].fd == fd;
    }
  }

  lemma KeepsReadyTransitive(s: State, t: State, r: State)
    requires KeepsReady(s, t) && KeepsReady(t, r)
    ensures KeepsReady(s, r)
  {
    assert r.log[|s.log|..] == t.log[|s.log|..] + r.log[|t.log|..];
    TouchesConcat(t.log[|s.log|..], r.log[|t.log|..]);
  }

  /**
   What a callback leaves alone, whatever it does: the callbacks further down the stack with their
   descriptors' slots, and the list being walked, which can only lose the descriptors it dequeued.
   */
  ghost predicate Frame(s: State, r: State) {
    && r.running == s.running && r.busy == s.busy && r.leaving == s.leaving
    && (forall fd :: fd in s.busy && fd in s.slots ==> fd in r.slots && r.slots[fd] == s.slots[fd])
    && KeepsReady(s, r)
    && r.tmp == Untouched(s.tmp, r.log[|s.log|..])
    && (forall i :: |s.log| <= i < |r.log| ==> r.log[i].Dequeued?)
  }

  lemma FrameTransitive(s: State, t: State, r: State)
    requires Frame(s, t) && Frame(t, r)
    ensures Frame(s, r)
  {
    assert s.log <= t.log <= r.log;
    hide KeepsReady, Untouched;
    var a, b := t.log[|s.log|..], r.log[|t.log|..];
    assert r.log[|s.log|..] == a + b;
    UntouchedConcat(s.tmp, a, b);
    KeepsReadyTransitive(s, t, r);
    assert forall i :: |t.log| > i >= |s.log| ==> r.log[i] == t.log[i];
  }

  // ---------- the kernel's own rules for epoll_ctl ----------

  function EpollAdd(kernel: map<int, Mask>, fd: int, mask: Mask): map<int, Mask>
    requires fd !in kernel
  {
    kernel[fd := KernelMask(mask)]
  }

  function EpollMod(kernel: map<int, Mask>, fd: int, mask: Mask): map<int, Mask>
    requires fd in kernel
  {
    kernel[fd := KernelMask(mask)]
  }

  function EpollDel(kernel: map<int, Mask>, fd: int): map<int, Mask>
    requires fd in kernel
  {
    kernel - {fd}
  }

  /** Which epoll_ctl operation the kernel accepts for `fd`, and what may be on a ready list or in use. */
  lemma KernelHolds(s: State, fd: int)
    requires Inv(s)
    ensures fd in s.kernel <==> Registered(s, fd) && fd !in s.leaving
    ensures Queued(s, fd) ==> Registered(s, fd) && fd !in s.busy
    ensures fd in s.slots ==> (s.slots[fd].inUse <==> s.running == Some(fd))
    ensures fd in s.leaving ==> fd in s.busy
  {
  }

  // ---------- ready list ----------

  ghost function Enqueue(s: State, fd: int): (r: State)
    ensures Inv(s) && Registered(s, fd) && fd !in s.busy ==> Inv(r) && Frame(s, r)
    ensures Queued(r, fd) && r.slots == s.slots && r.log == s.log
  {
    NoDupCons(fd, s.ready);
    if Queued(s, fd) then s else s.(ready := [fd] + s.ready)
  }

  ghost function Unqueue(s: State, fd: int): (r: State)
    ensures r.slots == s.slots && r.log == s.log
  {
    s.(ready := Without(s.ready, fd), tmp := Without(s.tmp, fd))
  }

  /** A call takes `fd` off the ready lists before its turn. */
  ghost function Dequeue(s: State, fd: int): (r: State)
    requires Inv(s)
    ensures Inv(r) && Frame(s, r) && !Queued(r, fd)
  {
    WithoutKeeps(s.ready, fd);
    WithoutKeeps(s.tmp, fd);
    var r := Unqueue(s, fd).(log := s.log + [Dequeued(fd)]);
    assert r.log[|s.log|..] == [Dequeued(fd)];
    assert Untouched(s.tmp, [Dequeued(fd)]) == Without(Untouched(s.tmp, []), fd);
    r
  }

  // ---------- pieces of the calls around a callback ----------

  /** OnUnregistration for `fd` goes on the stack. */
  ghost function Begin(s: State, fd: int): (r: State)
    requires Inv(s) && Registered(s, fd) && !Queued(s, fd)
    ensures Inv(r)
  {
    s.(busy := s.busy + {fd})
  }

  /** DelFD, before OnUnregistration runs and while the node still holds its callback. */
  ghost function Depart(s: State, fd: int): (r: State)
    requires Inv(s) && fd in s.busy && fd !in s.leaving
    ensures Inv(r)
  {
    s.(kernel := EpollDel(s.kernel, fd), leaving := s.leaving + {fd})
  }

  /** `v` is the state in which OnUnregistration for `fd`, called from a state that came from `s`, returns. */
  ghost predicate Returned(s: State, v: State, fd: int) {
    && Inv(v) && v.busy == s.busy + {fd} && fd !in s.busy && Registered(v, fd)
    && Frame(s, v.(busy := s.busy, leaving := s.leaving))
  }

  lemma ReturnsFromCallback(s: State, t: State, u: State, v: State, fd: int)
    requires Inv(v) && fd !in s.busy && fd in t.slots
    requires Frame(s, t) && Frame(u, v)
    requires u == t.(busy := t.busy + {fd}, leaving := u.leaving, kernel := u.kernel)
    ensures Returned(s, v, fd) && v.leaving == u.leaving
  {
    assert Frame(t, v.(busy := t.busy, leaving := t.leaving));
    FrameTransitive(s, t, v.(busy := t.busy, leaving := t.leaving));
  }

  /** RegisterFD over a live registration, once the other callback has been told. */
  ghost function Replace(s: State, v: State, fd: int, cb: Callback, mask: Mask): (r: State)
    requires Returned(s, v, fd) && v.leaving == s.leaving && fd !in s.leaving
    ensures Inv(r) && Frame(s, r)
  {
    v.(busy := s.busy,
       kernel := EpollMod(v.kernel, fd, mask),
       slots := v.slots[fd := v.slots[fd].(cb := Some(cb), mask := mask, fake := 0)])
  }

  /** RegisterFD where no callback is registered: a fresh node, or the recycled one whose OnEvent is running. */
  ghost function Install(s: State, fd: int, cb: Callback, mask: Mask): (r: State)
    requires Inv(s) && !Registered(s, fd) && fd !in s.busy
    ensures Inv(r) && Frame(s, r) && r.busy == s.busy && r.running == s.running
  {
    var slot := if fd in s.slots then s.slots[fd].(cb := Some(cb), mask := mask, fake := 0)
                else Slot(Some(cb), mask, 0, 0, false);
    s.(kernel := EpollAdd(s.kernel, fd, mask), slots := s.slots[fd := slot])
  }

  /** UnregisterFD after OnUnregistration: the node goes, unless its OnEvent is running. */
  ghost function Discard(s: State, v: State, fd: int): (r: State)
    requires Returned(s, v, fd) && v.leaving == s.leaving + {fd} && fd !in s.leaving && s.leaving <= s.busy
    ensures Inv(r) && Frame(s, r) && !Registered(r, fd)
  {
    v.(busy := s.busy, leaving := s.leaving,
       slots := if v.slots[fd].inUse then v.slots[fd := v.slots[fd].(cb := None, mask := 0, fake := 0)]
                else v.slots - {fd})
  }

  ghost function Remask(s: State, fd: int, mask: Mask): (r: State)
    requires Inv(s) && Registered(s, fd) && fd !in s.busy
    ensures Inv(r) && Frame(s, r) && r.busy == s.busy && r.running == s.running
  {
    s.(slots := s.slots[fd := s.slots[fd].(mask := mask)], kernel := EpollMod(s.kernel, fd, mask))
  }

  /** Sets the events to report at the next OnEvent of `fd`; neither mask is ever merged with the old one. */
  ghost function Mark(s: State, fd: int, asserted: Mask, fake: Mask): (r: State)
    requires Inv(s) && Registered(s, fd) && fd !in s.busy
    ensures Inv(r) && Frame(s, r) && Registered(r, fd) && r.busy == s.busy
  {
    var r := s.(slots := s.slots[fd := s.slots[fd].(asserted := asserted, fake := fake)]);
    assert forall f :: Registered(r, f) <==> Registered(s, f);
    r
  }

  ghost function Ready(s: State, fd: int, mask: Mask): (r: State)
    requires Inv(s) && fd !in s.busy
    ensures Inv(r) && Frame(s, r)
  {
    if Registered(s, fd) then Enqueue(Mark(s, fd, s.slots[fd].asserted, mask), fd) else s
  }

  ghost function Assert(s: State, fd: int, mask: Mask): (r: State)
    requires Inv(s) && fd !in s.busy
    ensures Inv(r) && Frame(s, r)
  {
    if Registered(s, fd) then Enqueue(Mark(s, fd, mask, s.slots[fd].fake), fd) else s
  }

  ghost function NotReady(s: State, fd: int): (r: State)
    requires Inv(s)
    ensures Inv(r) && Frame(s, r)
  {
    if fd in s.slots then Dequeue(s, fd) else s
  }

  // ---------- calls ----------

  ghost function Run(s: State, script: Script): (r: State)
    requires Inv(s) && Polite(script, s.busy)
    ensures Inv(r) && Frame(s, r) && r.busy == s.busy && r.running == s.running
    decreases script, 0
  {
    match script
    case Return => s
    case Do(op, next) =>
      var t := Apply(s, op);
      var r := Run(t, next);
      FrameTransitive(s, t, r);
      r
  }

  /** RegisterFD over a live registration, up to where the new callback is told. */
  ghost function Supplant(s: State, fd: int, cb: Callback, mask: Mask, onUnregistration: Script): (r: State)
    requires Inv(s) && Registered(s, fd) && fd !in s.busy && Polite(onUnregistration, s.busy + {fd})
    ensures Inv(r) && Frame(s, r) && r.busy == s.busy && r.running == s.running
    decreases onUnregistration, 1
  {
    var d := Dequeue(s, fd);
    var u := Begin(d, fd);
    var v := Run(u, onUnregistration);
    ReturnsFromCallback(s, d, u, v, fd);
    Replace(s, v, fd, cb, mask)
  }

  /** RegisterFD up to where the new callback is told. */
  ghost function Place(s: State, fd: int, cb: Callback, mask: Mask, onUnregistration: Script): (r: State)
    requires Inv(s) && fd !in s.busy && Polite(onUnregistration, s.busy + {fd})
    ensures Inv(r) && Frame(s, r) && r.busy == s.busy && r.running == s.running
    decreases onUnregistration, 2
  {
    if Registered(s, fd) then Supplant(s, fd, cb, mask, onUnregistration) else Install(s, fd, cb, mask)
  }

  /** UnregisterFD of a live registration. */
  ghost function Withdraw(s: State, fd: int, onUnregistration: Script): (r: State)
    requires Inv(s) && Registered(s, fd) && fd !in s.busy && Polite(onUnregistration, s.busy + {fd})
    ensures Inv(r) && Frame(s, r) && !Registered(r, fd)
    decreases onUnregistration, 1
  {
    var d := Dequeue(s, fd);
    var u := Depart(Begin(d, fd), fd);
    var v := Run(u, onUnregistration);
    ReturnsFromCallback(s, d, u, v, fd);
    Discard(s, v, fd)
  }

  /** What OnUnregistration finds when RegisterFD calls it: off the lists, the kernel and the node as they were. */
  lemma SupplantCalls(s: State, fd: int)
    requires Inv(s) && Registered(s, fd) && fd !in s.busy
    ensures var u := Begin(Dequeue(s, fd), fd);
            && !Queued(u, fd) && u.slots == s.slots && u.kernel == s.kernel
            && fd in u.kernel && u.kernel[fd] == KernelMask(s.slots[fd].mask)
            && u.ready == Without(s.ready, fd) && u.tmp == Without(s.tmp, fd)
  {
  }

  /** And what it finds when UnregisterFD does: off the lists, out of the kernel's set, the node as it was. */
  lemma WithdrawCalls(s: State, fd: int)
    requires Inv(s) && Registered(s, fd) && fd !in s.busy
    ensures var b := Begin(Dequeue(s, fd), fd);
            fd in b.busy && fd !in b.leaving &&
            var u := Depart(b, fd);
            && !Queued(u, fd) && u.slots == s.slots && u.kernel == s.kernel - {fd}
            && u.ready == Without(s.ready, fd) && u.tmp == Without(s.tmp, fd)
  {
  }

  lemma SupplantSteps(s: State, fd: int, cb: Callback, mask: Mask, onUnregistration: Script)
    requires Inv(s) && Registered(s, fd) && fd !in s.busy && Polite(onUnregistration, s.busy + {fd})
    ensures var u := Begin(Dequeue(s, fd), fd);
            u.busy == s.busy + {fd} && u.running == s.running &&
            var v := Run(u, onUnregistration);
            Returned(s, v, fd) && v.leaving == s.leaving && fd !in s.leaving &&
            Supplant(s, fd, cb, mask, onUnregistration) == Replace(s, v, fd, cb, mask)
  {
    var d := Dequeue(s, fd);
    var u := Begin(d, fd);
    ReturnsFromCallback(s, d, u, Run(u, onUnregistration), fd);
  }

  lemma WithdrawSteps(s: State, fd: int, onUnregistration: Script)
    requires Inv(s) && Registered(s, fd) && fd !in s.busy && Polite(onUnregistration, s.busy + {fd})
    ensures var b := Begin(Dequeue(s, fd), fd);
            fd in b.busy && fd !in b.leaving &&
            var u := Depart(b, fd);
            u.busy == s.busy + {fd} && u.running == s.running &&
            var v := Run(u, onUnregistration);
            Returned(s, v, fd) && v.leaving == s.leaving + {fd} && fd !in s.leaving && s.leaving <= s.busy &&
            Withdraw(s, fd, onUnregistration) == Discard(s, v, fd)
  {
    var d := Dequeue(s, fd);
    var u := Depart(Begin(d, fd), fd);
    ReturnsFromCallback(s, d, u, Run(u, onUnregistration), fd);
  }

  ghost function Apply(s: State, op: Op): (r: State)
    requires Inv(s) && PoliteOp(op, s.busy)
    ensures Inv(r) && Frame(s, r)
    decreases op, 0
  {
    match op
    case RegisterFD(fd, cb, mask, onUnregistration, onRegistration) =>
      var t := Place(s, fd, cb, mask, onUnregistration);
      var r := Run(t, onRegistration);
      FrameTransitive(s, t, r);
      r
    case UnregisterFD(fd, onUnregistration) =>
      if Registered(s, fd) then Withdraw(s, fd, onUnregistration) else s
    case ModifyFD(fd, remove, add, onModification) =>
      if Registered(s, fd) then
        var t := Remask(s, fd, (s.slots[fd].mask & !remove) | add);
        var r := Run(t, onModification);
        FrameTransitive(s, t, r);
        r
      else s
    case SetFDReady(fd, mask) => Ready(s, fd, mask)
    case SetFDNotReady(fd) => NotReady(s, fd)
    case HandleEvent(fd, mask) => Assert(s, fd, mask)
  }
}
