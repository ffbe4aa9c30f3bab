/** What each call and each OnEvent does, in every state that callbacks can see and whatever callbacks they trigger. */
module EpollFdLaws {
  import opened Sequences
  import opened EpollFdSpec
  import opened EpollFdPasses
  import opened EpollFdEvents

  // ---------- callbacks that have nothing to do with a descriptor ----------

  /** Nothing that a callback does, or the callbacks it triggers, names `g`. */
  ghost predicate Avoids(script: Script, g: int)
    decreases script
  {
    script.Do? ==> AvoidsOp(script.op, g) && Avoids(script.next, g)
  }

  ghost predicate AvoidsOp(op: Op, g: int)
    decreases op
  {
    && op.fd != g
    && match op
       case RegisterFD(_, _, _, onUnregistration, onRegistration) =>
         Avoids(onUnregistration, g) && Avoids(onRegistration, g)
       case UnregisterFD(_, onUnregistration) => Avoids(onUnregistration, g)
       case ModifyFD(_, _, _, onModification) => Avoids(onModification, g)
       case _ => true
  }

  /** `g` has the same node, the same mask in the kernel and the same lists in both states. */
  ghost predicate Same(s: State, r: State, g: int) {
    && (g in r.slots <==> g in s.slots) && (g in s.slots ==> r.slots[g] == s.slots[g])
    && (g in r.kernel <==> g in s.kernel) && (g in s.kernel ==> r.kernel[g] == s.kernel[g])
    && (g in r.ready <==> g in s.ready) && (g in r.tmp <==> g in s.tmp)
  }

  lemma DequeueAvoids(s: State, f: int, g: int)
    requires Inv(s) && f != g
    ensures Same(s, Dequeue(s, f), g)
  {
    WithoutKeeps(s.ready, f);
    WithoutKeeps(s.tmp, f);
  }

  lemma {:induction false} RunAvoids(s: State, script: Script, g: int)
    requires Inv(s) && Polite(script, s.busy) && Avoids(script, g)
    ensures Same(s, Run(s, script), g)
    decreases script, 0
  {
    hide Inv, Frame, Apply;
    match script {
      case Return =>
      case Do(op, next) =>
        ApplyAvoids(s, op, g);
        FrameFacts(s, Apply(s, op));
        RunAvoids(Apply(s, op), next, g);
    }
  }

  lemma {:induction false} SupplantAvoids(s: State, f: int, cb: Callback, mask: Mask, onUnregistration: Script, g: int)
    requires Inv(s) && Registered(s, f) && f !in s.busy && Polite(onUnregistration, s.busy + {f})
    requires f != g && Avoids(onUnregistration, g)
    ensures Same(s, Supplant(s, f, cb, mask, onUnregistration), g)
    decreases onUnregistration, 1
  {
    hide Inv, Frame, Run, Supplant, Polite, Avoids;
    SupplantSteps(s, f, cb, mask, onUnregistration);
    DequeueAvoids(s, f, g);
    RunAvoids(Begin(Dequeue(s, f), f), onUnregistration, g);
  }

  lemma {:induction false} WithdrawAvoids(s: State, f: int, onUnregistration: Script, g: int)
    requires Inv(s) && Registered(s, f) && f !in s.busy && Polite(onUnregistration, s.busy + {f})
    requires f != g && Avoids(onUnregistration, g)
    ensures Same(s, Withdraw(s, f, onUnregistration), g)
    decreases onUnregistration, 1
  {
    hide Inv, Frame, Run, Withdraw, Polite, Avoids;
    WithdrawSteps(s, f, onUnregistration);
    DequeueAvoids(s, f, g);
    RunAvoids(Depart(Begin(Dequeue(s, f), f), f), onUnregistration, g);
  }

  lemma {:induction false} PlaceAvoids(s: State, f: int, cb: Callback, mask: Mask, onUnregistration: Script, g: int)
    requires Inv(s) && f !in s.busy && Polite(onUnregistration, s.busy + {f})
    requires f != g && Avoids(onUnregistration, g)
    ensures Same(s, Place(s, f, cb, mask, onUnregistration), g)
    decreases onUnregistration, 2
  {
    hide Inv, Frame, Supplant;
    if Registered(s, f) {
      SupplantAvoids(s, f, cb, mask, onUnregistration, g);
    }
  }

  /** A call leaves every descriptor alone that neither it nor the callbacks it triggers name. */
  lemma {:induction false} ApplyAvoids(s: State, op: Op, g: int)
    requires Inv(s) && PoliteOp(op, s.busy) && AvoidsOp(op, g)
    ensures Same(s, Apply(s, op), g)
    decreases op, 0
  {
    hide Inv, Frame, Place, Withdraw, Run, Polite, Same, Remask, Ready, Assert, NotReady;
    SameTransitive(s, g);
    match op {
      case RegisterFD(f, cb, mask, onUnregistration, onRegistration) =>
        PlaceAvoids(s, f, cb, mask, onUnregistration, g);
        RunAvoids(Place(s, f, cb, mask, onUnregistration), onRegistration, g);
      case UnregisterFD(f, onUnregistration) =>
        if Registered(s, f) { WithdrawAvoids(s, f, onUnregistration, g); }
      case ModifyFD(f, remove, add, onModification) =>
        if Registered(s, f) {
          LeavesOthers(s, f, (s.slots[f].mask & !remove) | add, g);
          RunAvoids(Remask(s, f, (s.slots[f].mask & !remove) | add), onModification, g);
        }
      case SetFDReady(f, mask) => LeavesOthers(s, f, mask, g);
      case SetFDNotReady(f) => NotReadyLeavesOthers(s, f, g);
      case HandleEvent(f, mask) => LeavesOthers(s, f, mask, g);
    }
  }

  lemma SameTransitive(s: State, g: int)
    ensures Same(s, s, g)
    ensures forall t, r :: Same(s, t, g) && Same(t, r, g) ==> Same(s, r, g)
  {
  }

  lemma LeavesOthers(s: State, f: int, mask: Mask, g: int)
    requires Inv(s) && f !in s.busy && f != g
    ensures Registered(s, f) ==> Same(s, Remask(s, f, mask), g)
    ensures Same(s, Ready(s, f, mask), g) && Same(s, Assert(s, f, mask), g)
  {
    hide Inv, Frame;
  }

  lemma NotReadyLeavesOthers(s: State, f: int, g: int)
    requires Inv(s) && f != g
    ensures Same(s, NotReady(s, f), g)
  {
    hide Inv, Frame, Dequeue;
    DequeueAvoids(s, f, g);
  }

  // ---------- callbacks ----------

  function Then(a: Script, b: Script): Script {
    match a
    case Return => b
    case Do(op, next) => Do(op, Then(next, b))
  }

  /** A callback's calls take effect one after the other, each as if the program had made it. */
  lemma {:induction false} RunThen(s: State, a: Script, b: Script)
    requires Inv(s) && Polite(a, s.busy) && Polite(b, s.busy)
    ensures Polite(Then(a, b), s.busy) && Run(s, Then(a, b)) == Run(Run(s, a), b)
    decreases a
  {
    hide Inv, Frame, Apply;
    match a {
      case Return =>
      case Do(op, next) =>
        FrameFacts(s, Apply(s, op));
        RunThen(Apply(s, op), next, b);
    }
  }

  lemma RunOne(s: State, op: Op)
    requires Inv(s) && PoliteOp(op, s.busy)
    ensures Run(s, Do(op, Return)) == Apply(s, op)
  {
    hide Inv, Frame, Apply;
    FrameFacts(s, Apply(s, op));
    assert Run(Apply(s, op), Return) == Apply(s, op);
  }

  // ---------- the calls ----------

  /** The state in which UnregisterFD calls OnUnregistration. */
  ghost function AtUnregistration(s: State, fd: int): (r: State)
    requires Inv(s) && Registered(s, fd) && fd !in s.busy
    ensures Inv(r) && r.busy == s.busy + {fd} && r.log == s.log + [Dequeued(fd)]
    ensures !Queued(r, fd) && fd !in r.kernel && r.slots == s.slots
    ensures forall g :: g != fd ==> Same(s, r, g)
  {
    WithdrawCalls(s, fd);
    forall g | g != fd ensures Same(s, Depart(Begin(Dequeue(s, fd), fd), fd), g) { DequeueAvoids(s, fd, g); }
    Depart(Begin(Dequeue(s, fd), fd), fd)
  }

  /** The state in which RegisterFD tells the callback that is registered that another takes its place. */
  ghost function AtSupplanting(s: State, fd: int): (r: State)
    requires Inv(s) && Registered(s, fd) && fd !in s.busy
    ensures Inv(r) && r.busy == s.busy + {fd} && r.log == s.log + [Dequeued(fd)]
    ensures !Queued(r, fd) && r.kernel == s.kernel && r.slots == s.slots
    ensures forall g :: g != fd ==> Same(s, r, g)
  {
    SupplantCalls(s, fd);
    forall g | g != fd ensures Same(s, Begin(Dequeue(s, fd), fd), g) { DequeueAvoids(s, fd, g); }
    Begin(Dequeue(s, fd), fd)
  }

  /**
   UnregisterFD: the descriptor is out of the kernel and off the lists, its node gone unless its OnEvent runs; whatever
   OnUnregistration did to other descriptors stands.
   */
  lemma UnregisterFDLaw(s: State, fd: int, onUnregistration: Script)
    requires Inv(s) && PoliteOp(UnregisterFD(fd, onUnregistration), s.busy)
    ensures !Registered(s, fd) ==> Apply(s, UnregisterFD(fd, onUnregistration)) == s
    ensures Registered(s, fd) ==>
              var r := Apply(s, UnregisterFD(fd, onUnregistration));
              var told := Run(AtUnregistration(s, fd), onUnregistration);
              && fd !in r.kernel && !Queued(r, fd) && !Registered(r, fd) && (fd in r.slots <==> s.running == Some(fd))
              && |r.log| > |s.log| && s.log <= r.log && r.log[|s.log|] == Dequeued(fd) && r.log == told.log
              && forall g :: g != fd ==> Same(told, r, g)
  {
    hide Inv, Frame, Run, Withdraw, Dequeue, Returned, Discard, Depart, AtUnregistration;
    if Registered(s, fd) {
      WithdrawSettles(s, fd, onUnregistration);
      WithdrawLeavesTold(s, fd, onUnregistration);
      LogGrows(AtUnregistration(s, fd), onUnregistration);
    }
  }

  lemma LogGrows(s: State, script: Script)
    requires Inv(s) && Polite(script, s.busy)
    ensures s.log <= Run(s, script).log
  {
  }

  lemma WithdrawSettles(s: State, fd: int, onUnregistration: Script)
    requires Inv(s) && Registered(s, fd) && fd !in s.busy && Polite(onUnregistration, s.busy + {fd})
    ensures var r := Withdraw(s, fd, onUnregistration);
            fd !in r.kernel && !Queued(r, fd) && !Registered(r, fd) && (fd in r.slots <==> s.running == Some(fd))
  {
    hide Run, Withdraw, Dequeue, Frame;
    UnregistrationKeepsRunningNodes(s, fd, onUnregistration);
    KernelHolds(Withdraw(s, fd, onUnregistration), fd);
  }

  lemma WithdrawLeavesTold(s: State, fd: int, onUnregistration: Script)
    requires Inv(s) && Registered(s, fd) && fd !in s.busy && Polite(onUnregistration, s.busy + {fd})
    ensures var r, told := Withdraw(s, fd, onUnregistration), Run(AtUnregistration(s, fd), onUnregistration);
            r.log == told.log && forall g :: g != fd ==> Same(told, r, g)
  {
    hide Run, Withdraw, Dequeue, Frame, Inv;
    WithdrawSteps(s, fd, onUnregistration);
  }

  /**
   RegisterFD: the descriptor has the new callback and mask in its node and in the kernel, no faked events, the
   asserted events of the node that was there, and is not ready. OnRegistration then runs as if the program had made
   its calls; whatever OnUnregistration of the callback before did to other descriptors stands.
   */
  lemma RegisterFDLaw(s: State, fd: int, cb: Callback, mask: Mask, onUnregistration: Script, onRegistration: Script)
    requires Inv(s) && PoliteOp(RegisterFD(fd, cb, mask, onUnregistration, onRegistration), s.busy)
    ensures var q := Apply(s, RegisterFD(fd, cb, mask, onUnregistration, Return));
            && Inv(q) && q.busy == s.busy
            && Apply(s, RegisterFD(fd, cb, mask, onUnregistration, onRegistration)) == Run(q, onRegistration)
            && (Registered(s, fd) ==>
                  forall g :: g != fd ==> Same(Run(AtSupplanting(s, fd), onUnregistration), q, g))
            && (!Registered(s, fd) ==> forall g :: g != fd ==> Same(s, q, g))
    ensures Avoids(onRegistration, fd) ==>
              var r := Apply(s, RegisterFD(fd, cb, mask, onUnregistration, onRegistration));
              && fd in r.slots && fd in r.kernel && r.kernel[fd] == KernelMask(mask) && !Queued(r, fd)
              && r.slots[fd] == Slot(Some(cb), mask, if fd in s.slots then s.slots[fd].asserted else 0, 0,
                                     s.running == Some(fd))
  {
    hide Inv, Frame, Run, Place, AtSupplanting, Avoids, Same;
    var q := Place(s, fd, cb, mask, onUnregistration);
    assert Run(q, Return) == q by { RunNothing(q); }
    PlaceSettles(s, fd, cb, mask, onUnregistration);
    PlaceLeavesTold(s, fd, cb, mask, onUnregistration);
    if Avoids(onRegistration, fd) {
      RunAvoids(q, onRegistration, fd);
      SameFields(q, Run(q, onRegistration), fd);
    }
  }

  lemma RunNothing(s: State)
    requires Inv(s)
    ensures Run(s, Return) == s
  {
  }

  lemma SameFields(s: State, r: State, g: int)
    requires Same(s, r, g)
    ensures g in r.slots <==> g in s.slots
    ensures g in s.slots ==> r.slots[g] == s.slots[g]
    ensures g in r.kernel <==> g in s.kernel
    ensures g in s.kernel ==> r.kernel[g] == s.kernel[g]
    ensures Queued(r, g) <==> Queued(s, g)
  {
  }

  lemma PlaceSettles(s: State, fd: int, cb: Callback, mask: Mask, onUnregistration: Script)
    requires Inv(s) && fd !in s.busy && Polite(onUnregistration, s.busy + {fd})
    ensures var q := Place(s, fd, cb, mask, onUnregistration);
            && fd in q.slots && fd in q.kernel && q.kernel[fd] == KernelMask(mask) && !Queued(q, fd)
            && q.slots[fd] == Slot(Some(cb), mask, if fd in s.slots then s.slots[fd].asserted else 0, 0,
                                   s.running == Some(fd))
  {
    hide KernelMirrors, NoDup, KeepsReady, Run, Supplant, Dequeue;
    RegistrationKeepsAssertedEvents(s, fd, cb, mask, onUnregistration);
    var q := Place(s, fd, cb, mask, onUnregistration);
    KernelHolds(q, fd);
    KernelHolds(s, fd);
    if Registered(s, fd) {
      SupplantSteps(s, fd, cb, mask, onUnregistration);
    }
  }

  lemma PlaceLeavesTold(s: State, fd: int, cb: Callback, mask: Mask, onUnregistration: Script)
    requires Inv(s) && fd !in s.busy && Polite(onUnregistration, s.busy + {fd})
    ensures var q := Place(s, fd, cb, mask, onUnregistration);
            && (Registered(s, fd) ==>
                  forall g :: g != fd ==> Same(Run(AtSupplanting(s, fd), onUnregistration), q, g))
            && (!Registered(s, fd) ==> forall g :: g != fd ==> Same(s, q, g))
  {
    hide Run, Supplant, Dequeue, Frame, Inv;
    if Registered(s, fd) {
      SupplantSteps(s, fd, cb, mask, onUnregistration);
    }
  }

  /** ModifyFD: a bit of the new mask is one of `add`, or was there before and is not one of `remove`. */
  lemma ModifyFDLaw(s: State, fd: int, remove: Mask, add: Mask, onModification: Script)
    requires Inv(s) && PoliteOp(ModifyFD(fd, remove, add, onModification), s.busy)
    ensures !Registered(s, fd) ==> Apply(s, ModifyFD(fd, remove, add, onModification)) == s
    ensures Registered(s, fd) ==>
              var q := Apply(s, ModifyFD(fd, remove, add, Return));
              && Inv(q) && q.busy == s.busy
              && Apply(s, ModifyFD(fd, remove, add, onModification)) == Run(q, onModification)
    ensures Registered(s, fd) && Avoids(onModification, fd) ==>
              var r := Apply(s, ModifyFD(fd, remove, add, onModification));
              && fd in r.slots && fd in r.kernel && r.kernel[fd] == KernelMask(r.slots[fd].mask)
              && r.slots[fd] == s.slots[fd].(mask := r.slots[fd].mask) && (Queued(r, fd) <==> Queued(s, fd))
              && NamedBitsSet(remove, add, r.slots[fd].mask)
              && OtherBitsKept(s.slots[fd].mask, remove, add, r.slots[fd].mask)
  {
    if Registered(s, fd) {
      hide Inv, Frame, Run, Avoids, Same, Remask, Polite, NamedBitsSet, OtherBitsKept, KernelMask, Apply, NewMask;
      var mask := NewMask(s.slots[fd].mask, remove, add);
      ModifyIsRemask(s, fd, remove, add, onModification);
      ModifyIsRemask(s, fd, remove, add, Return);
      RunNothing(Remask(s, fd, mask));
      RemaskSettles(s, fd, mask);
      NamedBits(s.slots[fd].mask, remove, add);
      OtherBits(s.slots[fd].mask, remove, add);
      if Avoids(onModification, fd) {
        RunAvoids(Remask(s, fd, mask), onModification, fd);
        SameFields(Remask(s, fd, mask), Run(Remask(s, fd, mask), onModification), fd);
      }
    }
  }

  function NewMask(mask: Mask, remove: Mask, add: Mask): Mask {
    (mask & !remove) | add
  }

  lemma ModifyIsRemask(s: State, fd: int, remove: Mask, add: Mask, onModification: Script)
    requires Inv(s) && PoliteOp(ModifyFD(fd, remove, add, onModification), s.busy) && Registered(s, fd)
    ensures fd !in s.busy && Polite(onModification, s.busy) && PoliteOp(ModifyFD(fd, remove, add, Return), s.busy)
    ensures Apply(s, ModifyFD(fd, remove, add, onModification))
         == Run(Remask(s, fd, NewMask(s.slots[fd].mask, remove, add)), onModification)
  {
    hide Inv, Frame, Run, Remask;
  }

  /** Of the bits named, exactly those of `add` are set. */
  predicate NamedBitsSet(remove: Mask, add: Mask, after: Mask) {
    after & (remove | add) == add
  }

  /** The bits not named are as before. */
  predicate OtherBitsKept(before: Mask, remove: Mask, add: Mask, after: Mask) {
    after & !(remove | add) == before & !(remove | add)
  }

  lemma NamedBits(mask: Mask, remove: Mask, add: Mask)
    ensures NamedBitsSet(remove, add, NewMask(mask, remove, add))
  {
  }

  lemma OtherBits(mask: Mask, remove: Mask, add: Mask)
    ensures OtherBitsKept(mask, remove, add, NewMask(mask, remove, add))
  {
  }

  lemma RemaskSettles(s: State, fd: int, mask: Mask)
    requires Inv(s) && Registered(s, fd) && fd !in s.busy
    ensures var q := Remask(s, fd, mask);
            && fd in q.slots && fd in q.kernel && q.kernel[fd] == KernelMask(mask)
            && q.slots[fd] == s.slots[fd].(mask := mask) && (Queued(q, fd) <==> Queued(s, fd))
  {
  }

  /** SetFDReady: the descriptor is ready, first if it was not yet, with these faked events; what was asserted stays. */
  lemma SetFDReadyLaw(s: State, fd: int, mask: Mask)
    requires Inv(s) && PoliteOp(SetFDReady(fd, mask), s.busy)
    ensures !Registered(s, fd) ==> Apply(s, SetFDReady(fd, mask)) == s
    ensures Registered(s, fd) ==>
              var r := Apply(s, SetFDReady(fd, mask));
              && r.tmp == s.tmp && r.ready == (if Queued(s, fd) then s.ready else [fd] + s.ready)
              && fd in r.slots && r.slots[fd] == s.slots[fd].(fake := mask)
              && fd in s.slots && r.kernel == s.kernel && r.log == s.log
  {
    hide Frame, NoDup, KernelMirrors;
  }

  /** HandleEvent: it is ready, first if it was not yet, with these asserted events; what was faked stays. */
  lemma HandleEventLaw(s: State, fd: int, mask: Mask)
    requires Inv(s) && PoliteOp(HandleEvent(fd, mask), s.busy)
    ensures !Registered(s, fd) ==> Apply(s, HandleEvent(fd, mask)) == s
    ensures Registered(s, fd) ==>
              var r := Apply(s, HandleEvent(fd, mask));
              && r.tmp == s.tmp && r.ready == (if Queued(s, fd) then s.ready else [fd] + s.ready)
              && fd in r.slots && r.slots[fd] == s.slots[fd].(asserted := mask)
              && fd in s.slots && r.kernel == s.kernel && r.log == s.log
  {
    hide Frame, NoDup, KernelMirrors;
  }

  /** SetFDNotReady: the descriptor is off the lists, and nothing else changes. */
  lemma SetFDNotReadyLaw(s: State, fd: int)
    requires Inv(s) && PoliteOp(SetFDNotReady(fd), s.busy)
    ensures var r := Apply(s, SetFDNotReady(fd));
            !Queued(r, fd) && r.slots == s.slots && r.kernel == s.kernel && forall g :: g != fd ==> Same(s, r, g)
  {
    KernelHolds(s, fd);
    hide Inv, Frame;
    if fd in s.slots {
      forall g | g != fd ensures Same(s, Dequeue(s, fd), g) { DequeueAvoids(s, fd, g); }
    }
  }

  // ---------- OnEvent ----------

  /**
   OnEvent of the descriptor at the head of the walked list: what its callback did stands. Its node goes if it was
   unregistered; otherwise it is ready again exactly if it was made so or left a mask, which are then its faked events.
   */
  lemma OnEventLaw(s: State, reply: Reply)
    requires Idle(s) && s.tmp != [] && Polite(reply.script, {})
    ensures var fd, u, r := s.tmp[0], Run(Start(s), reply.script), Deliver(s, reply);
            && (forall g :: g != fd ==> Same(u, r, g)) && r.log == u.log
            && (!Registered(u, fd) ==> fd !in r.slots && !Queued(r, fd) && fd !in r.kernel)
            && (Registered(u, fd) ==>
                  && fd in u.slots && fd in r.slots && r.kernel == u.kernel
                  && r.slots[fd] == u.slots[fd].(inUse := false,
                                                 fake := if reply.outReadyMask != 0 then reply.outReadyMask
                                                         else u.slots[fd].fake)
                  && (Queued(r, fd) <==> Queued(u, fd) || reply.outReadyMask != 0))
  {
    hide Run, Start, Frame, PassPart, KeepsReady;
    FinishLaw(Run(Start(s), reply.script), reply.outReadyMask);
  }

  /** What OnEvent finds: its node is in use and has no events left; it is told those it had. */
  lemma StartLaw(s: State)
    requires Idle(s) && s.tmp != []
    ensures var fd, r := s.tmp[0], Start(s);
            && fd in s.slots && s.slots[fd].cb.Some? && fd in r.slots && fd !in r.ready && fd !in r.tmp
            && r.slots[fd] == s.slots[fd].(asserted := 0, fake := 0, inUse := true)
            && r.log == s.log + [Delivered(fd, s.slots[fd].cb.value, s.slots[fd].asserted | s.slots[fd].fake)]
            && r.kernel == s.kernel && forall g :: g != fd ==> Same(s, r, g)
  {
    StartTells(s);
    StartOthers(s);
    KernelHolds(Start(s), s.tmp[0]);
  }

  lemma StartOthers(s: State)
    requires Idle(s) && s.tmp != []
    ensures var fd, r := s.tmp[0], Start(s);
            && fd in s.slots && fd in r.slots && fd !in r.ready && fd !in r.tmp
            && r.slots[fd] == s.slots[fd].(asserted := 0, fake := 0, inUse := true)
            && r.kernel == s.kernel && forall g :: g != fd ==> Same(s, r, g)
  {
    var fd := s.tmp[0];
    QueuedIsRegistered(s, fd);
    assert s.tmp == [fd] + s.tmp[1..];
    NoDupCons(fd, s.tmp[1..]);
    assert fd !in s.ready;
    hide Inv, NoDup;
  }

  lemma FinishLaw(s: State, outReadyMask: Mask)
    requires Inv(s) && s.running.Some? && s.busy == {}
    ensures var fd, r := s.running.value, Finish(s, outReadyMask);
            && (forall g :: g != fd ==> Same(s, r, g)) && r.log == s.log
            && (!Registered(s, fd) ==> fd !in r.slots && !Queued(r, fd) && fd !in r.kernel)
            && (Registered(s, fd) ==>
                  && fd in s.slots && fd in r.slots && r.kernel == s.kernel
                  && r.slots[fd] == s.slots[fd].(inUse := false,
                                                 fake := if outReadyMask != 0 then outReadyMask else s.slots[fd].fake)
                  && (Queued(r, fd) <==> Queued(s, fd) || outReadyMask != 0))
  {
    hide NoDup, KeepsReady;
    KernelHolds(s, s.running.value);
  }
}
