/**
 The file-descriptor half of `EpollServer` as it is in memory: a hash set of nodes whose intrusive links
 put them on one of two lists, updated in place. Every method is proved to do to the abstract state
 exactly what `EpollFdSpec` and `EpollFdPasses` say, and to keep the links well formed.
 */
module EpollFdServer {
  import opened Sequences
  import opened EpollFdSpec
  import opened EpollFdPasses

  /** The targets of an le_prev pointer: one of the list heads, or the le_next field of the node before. */
  datatype PrevLink = NotListed | ReadyHead | TmpHead | NextOf(node: Node)

  class Node {
    const fd: int
    var cb: Option<Callback>
    var eventMask: Mask
    var eventsAsserted: Mask
    var eventsToFake: Mask
    var inUse: bool
    var leNext: Node?
    var lePrev: PrevLink

    constructor (cb: Callback, eventMask: Mask, fd: int)
      ensures this.fd == fd && leNext == null && lePrev == NotListed
      ensures ToSlot() == Slot(Some(cb), eventMask, 0, 0, false)
    {
      this.fd := fd;
      this.cb := Some(cb);
      this.eventMask := eventMask;
      eventsAsserted, eventsToFake, inUse := 0, 0, false;
      leNext, lePrev := null, NotListed;
    }

    ghost function ToSlot(): Slot
      reads this`cb, this`eventMask, this`eventsAsserted, this`eventsToFake, this`inUse
    {
      Slot(cb, eventMask, eventsAsserted, eventsToFake, inUse)
    }
  }

  /** `first` heads a well-formed list through `q`: each le_prev designates the one pointer to its node. */
  ghost predicate Linked(head: PrevLink, first: Node?, q: seq<Node>)
    reads q`leNext, q`lePrev
  {
    && first == (if q == [] then null else q[0])
    && (forall i {:trigger q[i].lePrev} :: 0 <= i < |q| ==>
          q[i].lePrev == (if i == 0 then head else NextOf(q[i - 1])))
    && (forall i {:trigger q[i].leNext} :: 0 <= i < |q| ==>
          q[i].leNext == (if i + 1 < |q| then q[i + 1] else null))
  }

  /** Node `k` of `q` is being removed: the node after it already points back to the one before it. */
  ghost predicate HalfUnlinked(head: PrevLink, first: Node?, q: seq<Node>, k: nat)
    requires k < |q|
    reads q`leNext, q`lePrev
  {
    && first == q[0]
    && (forall i {:trigger q[i].lePrev} :: 0 <= i < |q| && i != k + 1 ==>
          q[i].lePrev == (if i == 0 then head else NextOf(q[i - 1])))
    && (k + 1 < |q| ==> q[k + 1].lePrev == (if k == 0 then head else NextOf(q[k - 1])))
    && (forall i {:trigger q[i].leNext} :: 0 <= i < |q| ==>
          q[i].leNext == (if i + 1 < |q| then q[i + 1] else null))
  }

  /** Every pointer along `q` passes over node `k`. */
  ghost predicate Bypassed(head: PrevLink, first: Node?, q: seq<Node>, k: nat)
    requires k < |q|
    reads q`leNext, q`lePrev
  {
    && first == (if k > 0 then q[0] else if |q| > 1 then q[1] else null)
    && (forall i {:trigger q[i].lePrev} :: 0 <= i < |q| && i != k ==>
          q[i].lePrev == (var j := if i == k + 1 then i - 2 else i - 1; if j < 0 then head else NextOf(q[j])))
    && (forall i {:trigger q[i].leNext} :: 0 <= i < |q| && i != k ==>
          q[i].leNext == (var j := if i + 1 == k then i + 2 else i + 1; if j < |q| then q[j] else null))
  }

  lemma BypassedIsLinked(head: PrevLink, first: Node?, q: seq<Node>, k: nat)
    requires k < |q| && Bypassed(head, first, q, k)
    ensures Linked(head, first, DropAt(q, k))
  {
  }

  /** The nodes of `q` stand for the descriptors `fds`, without repetition. */
  ghost predicate StandsFor(q: seq<Node>, fds: seq<int>) {
    && |q| == |fds|
    && (forall i :: 0 <= i < |q| ==> q[i].fd == fds[i])
    && NoDup(fds)
  }

  lemma StandsForMembers(q: seq<Node>, fds: seq<int>, n: Node)
    requires StandsFor(q, fds)
    ensures n in q ==> n.fd in fds
    ensures NoDup(q)
  {
    NoDupDistinct(fds);
    if n in q {
      var i :| 0 <= i < |q| && q[i] == n;
      assert fds[i] == n.fd;
    }
  }

  datatype Lists = Lists(ready: seq<Node>, tmp: seq<Node>)

  ghost predicate Within(q: seq<Node>, nodes: set<Node>) {
    forall i :: 0 <= i < |q| ==> q[i] in nodes
  }

  /** The hash set holds `nodes` under their own descriptors. */
  ghost predicate Table(cbMap: map<int, Node>, nodes: set<Node>) {
    && (forall fd :: fd in cbMap ==> cbMap[fd] in nodes && cbMap[fd].fd == fd)
    && (forall n :: n in nodes ==> n.fd in cbMap && cbMap[n.fd] == n)
  }

  /** The lists hold nodes of the hash set, those of the descriptors that `s` has queued. */
  ghost predicate Keyed(cbMap: map<int, Node>, nodes: set<Node>, ls: Lists, s: State) {
    && Table(cbMap, nodes)
    && Within(ls.ready, nodes) && Within(ls.tmp, nodes)
    && StandsFor(ls.ready, s.ready) && StandsFor(ls.tmp, s.tmp)
    && (forall fd :: fd in s.ready ==> fd !in s.tmp)
  }

  lemma KeyedDistinct(cbMap: map<int, Node>, nodes: set<Node>, ls: Lists, s: State)
    requires Keyed(cbMap, nodes, ls, s)
    ensures NoDup(ls.ready) && NoDup(ls.tmp) && forall m :: m in ls.ready ==> m !in ls.tmp
  {
    NoDupDistinct(s.ready);
    NoDupDistinct(s.tmp);
    forall m | m in ls.ready ensures m !in ls.tmp {
      StandsForMembers(ls.ready, s.ready, m);
      StandsForMembers(ls.tmp, s.tmp, m);
    }
  }

  lemma KeyedMember(cbMap: map<int, Node>, nodes: set<Node>, ls: Lists, s: State, n: Node)
    requires Keyed(cbMap, nodes, ls, s) && n in nodes
    ensures n in ls.ready <==> n.fd in s.ready
    ensures n in ls.tmp <==> n.fd in s.tmp
  {
    StandsForMembers(ls.ready, s.ready, n);
    StandsForMembers(ls.tmp, s.tmp, n);
    if n.fd in s.ready {
      var i :| 0 <= i < |s.ready| && s.ready[i] == n.fd;
      assert ls.ready[i] == n;
    }
    if n.fd in s.tmp {
      var i :| 0 <= i < |s.tmp| && s.tmp[i] == n.fd;
      assert ls.tmp[i] == n;
    }
  }

  lemma KeyedEnqueue(cbMap: map<int, Node>, nodes: set<Node>, ls: Lists, s: State, n: Node)
    requires Keyed(cbMap, nodes, ls, s) && n in nodes && !Queued(s, n.fd)
    ensures Keyed(cbMap, nodes, Lists([n] + ls.ready, ls.tmp), Enqueue(s, n.fd))
    ensures n !in ls.ready && n !in ls.tmp
    ensures forall m :: m in nodes && m != n ==> (Queued(Enqueue(s, n.fd), m.fd) <==> Queued(s, m.fd))
  {
    NoDupCons(n.fd, s.ready);
    StandsForMembers(ls.ready, s.ready, n);
    StandsForMembers(ls.tmp, s.tmp, n);
  }

  lemma StandsForWithout(q: seq<Node>, fds: seq<int>, n: Node)
    requires StandsFor(q, fds) && (n.fd in fds ==> n in q)
    ensures StandsFor(Without(q, n), Without(fds, n.fd))
  {
    WithoutKeeps(fds, n.fd);
    StandsForMembers(q, fds, n);
    if n in q {
      var k :| 0 <= k < |q| && q[k] == n;
      WithoutIsDropAt(q, k);
      WithoutIsDropAt(fds, k);
    }
  }

  /** Taking a listed node off its list leaves the bookkeeping in order. */
  lemma KeyedUnqueue(cbMap: map<int, Node>, nodes: set<Node>, ls: Lists, s: State, n: Node)
    requires Keyed(cbMap, nodes, ls, s) && n in nodes && Queued(s, n.fd)
    ensures Keyed(cbMap, nodes, Lists(Without(ls.ready, n), Without(ls.tmp, n)), Unqueue(s, n.fd))
    ensures n in ls.ready || n in ls.tmp
    ensures forall m :: m in nodes && m != n ==> (Queued(Unqueue(s, n.fd), m.fd) <==> Queued(s, m.fd))
  {
    KeyedDistinct(cbMap, nodes, ls, s);
    KeyedMember(cbMap, nodes, ls, s, n);
    StandsForWithout(ls.ready, s.ready, n);
    StandsForWithout(ls.tmp, s.tmp, n);
    WithoutKeeps(ls.ready, n);
    WithoutKeeps(ls.tmp, n);
    WithoutKeeps(s.ready, n.fd);
    WithoutKeeps(s.tmp, n.fd);
  }

  lemma KeyedInsert(cbMap: map<int, Node>, nodes: set<Node>, ls: Lists, s: State, n: Node)
    requires Keyed(cbMap, nodes, ls, s) && n !in nodes && n.fd !in cbMap
    ensures Keyed(cbMap[n.fd := n], nodes + {n}, ls, s)
  {
  }

  lemma KeyedErase(cbMap: map<int, Node>, nodes: set<Node>, ls: Lists, s: State, n: Node)
    requires Keyed(cbMap, nodes, ls, s) && n in nodes && !Queued(s, n.fd)
    ensures Keyed(cbMap - {n.fd}, nodes - {n}, ls, s)
  {
    KeyedMember(cbMap, nodes, ls, s, n);
  }

  lemma KeyedSwap(cbMap: map<int, Node>, nodes: set<Node>, ls: Lists, s: State)
    requires Keyed(cbMap, nodes, ls, s) && s.tmp == []
    ensures Keyed(cbMap, nodes, Lists([], ls.ready), s.(ready := [], tmp := s.ready))
    ensures ls.tmp == []
  {
  }

  class EpollServer {
    var cbMap: map<int, Node>
    var readyFirst: Node?
    var tmpFirst: Node?
    var readyListSize: int

    ghost var nodes: set<Node>
    ghost var lists: Lists
    ghost var state: State

    /** The links realise the two lists `ls`, which are those of the abstract state `s`. */
    ghost predicate Links(ls: Lists, s: State)
      reads `cbMap, `nodes, `readyFirst, `tmpFirst, `readyListSize, nodes`leNext, nodes`lePrev
    {
      && Keyed(cbMap, nodes, ls, s)
      && Linked(ReadyHead, readyFirst, ls.ready)
      && Linked(TmpHead, tmpFirst, ls.tmp)
      && (forall n :: n in nodes ==> (n.lePrev == NotListed <==> !Queued(s, n.fd)))
      && readyListSize == |ls.ready| + |ls.tmp|
    }

    /** The nodes hold what the abstract slots say. */
    ghost predicate Mirrors(slots: map<int, Slot>)
      reads `cbMap, `nodes, nodes`cb, nodes`eventMask, nodes`eventsAsserted, nodes`eventsToFake, nodes`inUse
    {
      && Table(cbMap, nodes)
      && slots.Keys == cbMap.Keys
      && (forall n :: n in nodes ==> n.fd in slots && slots[n.fd] == n.ToSlot())
    }

    ghost predicate Valid()
      reads this, nodes
    {
      Links(lists, state) && Mirrors(state.slots) && Inv(state)
    }

    constructor ()
      ensures Valid() && Idle(state) && nodes == {}
      ensures state == State(map[], [], [], map[], None, {}, {}, [])
    {
      cbMap := map[];
      readyFirst, tmpFirst, readyListSize := null, null, 0;
      nodes, lists := {}, Lists([], []);
      state := State(map[], [], [], map[], None, {}, {}, []);
    }

    // ---------- links ----------

    /** LIST_INSERT_HEAD on the ready list. */
    method InsertHead(n: Node)
      requires Links(lists, state) && n in nodes && !Queued(state, n.fd)
      modifies `readyFirst, `readyListSize, nodes`leNext, nodes`lePrev
      ensures Links(Lists([n] + lists.ready, lists.tmp), Enqueue(state, n.fd))
    {
      LinkFirst(n);
      readyListSize := readyListSize + 1;
      KeyedEnqueue(cbMap, nodes, lists, state, n);
    }

    /** Puts a node at the front of the ready list, unless it is on a list already. */
    method AddToReadyList(n: Node)
      requires Links(lists, state) && n in nodes
      modifies `readyFirst, `readyListSize, `lists, `state, nodes`leNext, nodes`lePrev
      ensures Links(lists, state) && state == Enqueue(old(state), n.fd)
    {
      hide Linked, Keyed;
      if n.lePrev == NotListed {
        InsertHead(n);
        lists, state := Lists([n] + lists.ready, lists.tmp), Enqueue(state, n.fd);
      }
    }

    method LinkFirst(n: Node)
      requires Keyed(cbMap, nodes, lists, state) && n in nodes && !Queued(state, n.fd)
      requires Linked(ReadyHead, readyFirst, lists.ready) && Linked(TmpHead, tmpFirst, lists.tmp)
      modifies `readyFirst, nodes`leNext, nodes`lePrev
      ensures Linked(ReadyHead, readyFirst, [n] + lists.ready) && Linked(TmpHead, tmpFirst, lists.tmp)
      ensures forall m :: m in nodes ==> (m.lePrev == NotListed <==> m != n && old(m.lePrev) == NotListed)
    {
      KeyedMember(cbMap, nodes, lists, state, n);
      KeyedDistinct(cbMap, nodes, lists, state);
      ghost var q := [n] + lists.ready;
      NoDupDistinct(lists.ready);
      assert forall i {:trigger q[i]} :: 1 <= i < |q| ==> q[i] == lists.ready[i - 1];
      n.leNext := readyFirst;
      if readyFirst != null {
        readyFirst.lePrev := NextOf(n);
      }
      readyFirst := n;
      n.lePrev := ReadyHead;
    }

    /** LIST_REMOVE at position `k` of the list `q`: writes through the node's le_prev, whatever that designates. */
    method ListRemove(n: Node, ghost head: PrevLink, ghost q: seq<Node>, ghost k: nat)
      requires head == ReadyHead || head == TmpHead
      requires k < |q| && q[k] == n && NoDup(q)
      requires Linked(head, if head == ReadyHead then readyFirst else tmpFirst, q) && Within(q, nodes)
      modifies this`readyFirst, this`tmpFirst, nodes`leNext, nodes`lePrev
      ensures Linked(head, if head == ReadyHead then readyFirst else tmpFirst, DropAt(q, k))
      ensures if head == ReadyHead then tmpFirst == old(tmpFirst) else readyFirst == old(readyFirst)
      ensures n.lePrev == NotListed && forall m :: m in q && m != n ==> m.lePrev != NotListed
      ensures forall m :: m in nodes && m !in q ==> m.leNext == old(m.leNext) && m.lePrev == old(m.lePrev)
    {
      hide NoDup, Linked, HalfUnlinked, Bypassed, DropAt;
      UnlinkNext(n, head, q, k);
      UnlinkPrev(n, head, q, k);
      BypassedIsLinked(head, if head == ReadyHead then readyFirst else tmpFirst, q, k);
    }

    /** The node after `n`, if there is one, comes to point back to where `n` does. */
    method UnlinkNext(n: Node, ghost head: PrevLink, ghost q: seq<Node>, ghost k: nat)
      requires k < |q| && q[k] == n && NoDup(q) && Within(q, nodes)
      requires Linked(head, if head == ReadyHead then readyFirst else tmpFirst, q)
      modifies nodes`lePrev
      ensures HalfUnlinked(head, if head == ReadyHead then readyFirst else tmpFirst, q, k)
      ensures forall m :: m in nodes && m !in q ==> m.lePrev == old(m.lePrev)
    {
      hide NoDup;
      NoDupDistinct(q);
      if n.leNext != null {
        n.leNext.lePrev := n.lePrev;
      }
    }

    /** The pointer to `n` comes to point to the node after it, and `n` is off the list. */
    method UnlinkPrev(n: Node, ghost head: PrevLink, ghost q: seq<Node>, ghost k: nat)
      requires head == ReadyHead || head == TmpHead
      requires k < |q| && q[k] == n && NoDup(q) && Within(q, nodes)
      requires HalfUnlinked(head, if head == ReadyHead then readyFirst else tmpFirst, q, k)
      modifies this`readyFirst, this`tmpFirst, nodes`leNext, n`lePrev
      ensures Bypassed(head, if head == ReadyHead then readyFirst else tmpFirst, q, k)
      ensures if head == ReadyHead then tmpFirst == old(tmpFirst) else readyFirst == old(readyFirst)
      ensures n.lePrev == NotListed && forall m :: m in q && m != n ==> m.lePrev != NotListed
      ensures forall m :: m in nodes && m !in q ==> m.leNext == old(m.leNext)
    {
      hide NoDup;
      NoDupDistinct(q);
      assert n.lePrev == if k > 0 then NextOf(q[k - 1]) else head;
      match n.lePrev {
        case ReadyHead => readyFirst := n.leNext;
        case TmpHead => tmpFirst := n.leNext;
        case NextOf(p) => p.leNext := n.leNext;
        case NotListed => assert false;
      }
      n.lePrev := NotListed;
    }

    /** Takes a listed node off the one list it is on. */
    method Unlink(n: Node)
      requires Keyed(cbMap, nodes, lists, state) && n in nodes && Queued(state, n.fd)
      requires Linked(ReadyHead, readyFirst, lists.ready) && Linked(TmpHead, tmpFirst, lists.tmp)
      modifies `readyFirst, `tmpFirst, nodes`leNext, nodes`lePrev
      ensures Linked(ReadyHead, readyFirst, Without(lists.ready, n)) && Linked(TmpHead, tmpFirst, Without(lists.tmp, n))
      ensures forall m :: m in nodes ==> (m.lePrev == NotListed <==> m == n || old(m.lePrev) == NotListed)
    {
      KeyedMember(cbMap, nodes, lists, state, n);
      KeyedDistinct(cbMap, nodes, lists, state);
      ghost var onReady := n in lists.ready;
      ghost var q := if onReady then lists.ready else lists.tmp;
      ghost var k :| 0 <= k < |q| && q[k] == n;
      assert Without(q, n) == DropAt(q, k) by { WithoutIsDropAt(q, k); }
      ListRemove(n, if onReady then ReadyHead else TmpHead, q, k);
      if onReady {
        assert Linked(TmpHead, tmpFirst, lists.tmp);
      } else {
        assert Linked(ReadyHead, readyFirst, lists.ready);
      }
    }

    method RemoveListed(n: Node)
      requires Links(lists, state) && n in nodes && Queued(state, n.fd)
      modifies `readyFirst, `tmpFirst, `readyListSize, nodes`leNext, nodes`lePrev
      ensures Links(Lists(Without(lists.ready, n), Without(lists.tmp, n)), Unqueue(state, n.fd))
    {
      hide Without, Linked;
      Unlink(n);
      readyListSize := readyListSize - 1;
      KeyedUnqueue(cbMap, nodes, lists, state, n);
    }

    /** Takes a node off whichever list it is on, if any. */
    method RemoveFromReadyList(n: Node)
      requires Links(lists, state) && n in nodes
      modifies `readyFirst, `tmpFirst, `readyListSize, `lists, `state, nodes`leNext, nodes`lePrev
      ensures Links(lists, state) && state == Unqueue(old(state), n.fd)
    {
      hide Without, Linked, Keyed;
      if n.lePrev != NotListed {
        RemoveListed(n);
        lists, state := Lists(Without(lists.ready, n), Without(lists.tmp, n)), Unqueue(state, n.fd);
      }
    }

    lemma NodeOf(fd: int)
      requires Mirrors(state.slots)
      ensures fd in cbMap <==> fd in state.slots
      ensures fd in cbMap ==> cbMap[fd] in nodes && cbMap[fd].fd == fd && cbMap[fd].ToSlot() == state.slots[fd]
    {
    }

    lemma LinksDependOnQueues(ls: Lists, s: State, s': State)
      requires Links(ls, s) && s'.ready == s.ready && s'.tmp == s.tmp
      ensures Links(ls, s')
    {
    }

    // ---------- the hash set ----------

    method InsertNode(cb: Callback, eventMask: Mask, fd: int) returns (n: Node)
      requires Links(lists, state) && Mirrors(state.slots) && fd !in cbMap && !Queued(state, fd)
      modifies `cbMap, `nodes
      ensures Links(lists, state) && Mirrors(state.slots[fd := Slot(Some(cb), eventMask, 0, 0, false)])
      ensures fresh(n) && nodes == old(nodes) + {n}
    {
      hide Keyed, Linked, Queued;
      n := new Node(cb, eventMask, fd);
      KeyedInsert(cbMap, nodes, lists, state, n);
      cbMap := cbMap[fd := n];
      nodes := nodes + {n};
    }

    method EraseNode(n: Node)
      requires Links(lists, state) && Mirrors(state.slots) && n in nodes && !Queued(state, n.fd)
      modifies `cbMap, `nodes
      ensures Links(lists, state) && Mirrors(state.slots - {n.fd})
      ensures nodes == old(nodes) - {n}
    {
      KeyedErase(cbMap, nodes, lists, state, n);
      cbMap := cbMap - {n.fd};
      nodes := nodes - {n};
    }

    /** Writes the fields of a registration into its node. */
    method StoreNode(n: Node, cb: Option<Callback>, eventMask: Mask, eventsToFake: Mask)
      requires Mirrors(state.slots) && n in nodes
      modifies n`cb, n`eventMask, n`eventsToFake
      ensures Mirrors(state.slots[n.fd := state.slots[n.fd].(cb := cb, mask := eventMask, fake := eventsToFake)])
    {
      n.cb := cb;
      n.eventMask := eventMask;
      n.eventsToFake := eventsToFake;
    }

    // ---------- epoll_ctl, which the kernel lets fail ----------

    ghost method AddFD(fd: int, eventMask: Mask)
      requires fd !in state.kernel
      modifies `state
      ensures state == old(state).(kernel := EpollAdd(old(state).kernel, fd, eventMask))
    {
      state := state.(kernel := EpollAdd(state.kernel, fd, eventMask));
    }

    ghost method ModFD(fd: int, eventMask: Mask)
      requires fd in state.kernel
      modifies `state
      ensures state == old(state).(kernel := EpollMod(old(state).kernel, fd, eventMask))
    {
      state := state.(kernel := EpollMod(state.kernel, fd, eventMask));
    }

    ghost method DelFD(fd: int)
      requires fd in state.kernel
      modifies `state
      ensures state == old(state).(kernel := EpollDel(old(state).kernel, fd))
    {
      state := state.(kernel := EpollDel(state.kernel, fd));
    }

    // ---------- public calls ----------

    /** The nodes that callers further down the stack still point to are still in the hash set. */
    twostate predicate KeepsPinned()
      reads this
    {
      && fresh(nodes - old(nodes))
      && forall n :: n in old(nodes) && (n.fd in old(state.busy) || old(state.running) == Some(n.fd)) ==> n in nodes
    }

    method FakeEvents(n: Node, eventsToFake: Mask)
      requires Mirrors(state.slots) && n in nodes
      modifies n`eventsToFake
      ensures Mirrors(state.slots[n.fd := state.slots[n.fd].(fake := eventsToFake)])
    {
      n.eventsToFake := eventsToFake;
    }

    /** Puts a node on the ready list with made-up events to report. */
    method FakeReady(n: Node, eventsToFake: Mask)
      requires Valid() && n in nodes && Registered(state, n.fd) && n.fd !in state.busy
      modifies this, nodes
      ensures Valid() && nodes == old(nodes)
      ensures n.fd in old(state).slots &&
              state == Enqueue(Mark(old(state), n.fd, old(state).slots[n.fd].asserted, eventsToFake), n.fd)
    {
      hide Links, Mirrors, Frame, Inv, Enqueue;
      NodeOf(n.fd);
      FakeEvents(n, eventsToFake);
      ghost var s := Mark(state, n.fd, state.slots[n.fd].asserted, eventsToFake);
      LinksDependOnQueues(lists, state, s);
      state := s;
      AddToReadyList(n);
    }

    method SetFDReady(fd: int, eventsToFake: Mask)
      requires Valid() && fd !in state.busy
      modifies this, nodes
      ensures Valid() && state == Ready(old(state), fd, eventsToFake)
      ensures nodes == old(nodes)
    {
      hide Links, Mirrors, Inv, Frame, Enqueue, Mark;
      NodeOf(fd);
      if fd in cbMap && cbMap[fd].cb.Some? {
        FakeReady(cbMap[fd], eventsToFake);
      }
    }

    method SetFDNotReady(fd: int)
      requires Valid() && fd !in state.busy
      modifies this, nodes
      ensures Valid() && state == NotReady(old(state), fd)
      ensures nodes == old(nodes)
    {
      hide Links, Inv, Frame, Without;
      if fd in cbMap {
        RemoveFromReadyList(cbMap[fd]);
        ghost var s := Dequeue(old(state), fd);
        LinksDependOnQueues(lists, state, s);
        state := s;
      }
    }

    method HandleEvent(fd: int, eventMask: Mask)
      requires Valid() && fd !in state.busy
      modifies this, nodes
      ensures Valid() && state == Assert(old(state), fd, eventMask)
      ensures nodes == old(nodes)
    {
      hide Links, Mirrors, Inv, Frame, Enqueue;
      NodeOf(fd);
      if fd !in cbMap || cbMap[fd].cb.None? {
        return;
      }
      var n := cbMap[fd];
      AssertEvents(n, eventMask);
      ghost var s := Mark(state, fd, eventMask, state.slots[fd].fake);
      LinksDependOnQueues(lists, state, s);
      state := s;
      AddToReadyList(n);
    }

    method AssertEvents(n: Node, eventMask: Mask)
      requires Mirrors(state.slots) && n in nodes
      modifies n`eventsAsserted
      ensures Mirrors(state.slots[n.fd := state.slots[n.fd].(asserted := eventMask)])
    {
      n.eventsAsserted := eventMask;
    }

    /** OnUnregistration for `fd` is about to be called: its node is off the ready lists. */
    method BeginUnregistration(n: Node)
      requires Valid() && n in nodes && n.cb.Some? && n.fd !in state.busy
      modifies this, nodes
      ensures Valid() && state == Begin(Dequeue(old(state), n.fd), n.fd)
      ensures nodes == old(nodes)
    {
      hide Links, Inv, Frame, Without;
      RemoveFromReadyList(n);
      ghost var s := Begin(Dequeue(old(state), n.fd), n.fd);
      LinksDependOnQueues(lists, state, s);
      state := s;
    }

    /** OnUnregistration for a node being registered anew, called in state `s`, has returned. */
    method FinishSupplant(n: Node, cb: Callback, eventMask: Mask, ghost s: State)
      requires Valid() && n in nodes && Returned(s, state, n.fd) && state.leaving == s.leaving && n.fd !in s.leaving
      modifies this, n
      ensures Valid() && state == Replace(s, old(state), n.fd, cb, eventMask)
      ensures nodes == old(nodes)
    {
      hide Links, Mirrors, Inv, Frame;
      KernelHolds(state, n.fd);
      ghost var r := Replace(s, state, n.fd, cb, eventMask);
      LinksDependOnQueues(lists, state, r);
      StoreNode(n, Some(cb), eventMask, 0);
      ModFD(n.fd, eventMask);
      state := r;
    }

    /** RegisterFD over a live registration, up to where the new callback is told. */
    method SupplantFD(fd: int, cb: Callback, eventMask: Mask, onUnregistration: Script)
      requires Valid() && Registered(state, fd) && fd !in state.busy && Polite(onUnregistration, state.busy + {fd})
      modifies this, nodes
      ensures Valid() && KeepsPinned()
      ensures state == Supplant(old(state), fd, cb, eventMask, onUnregistration)
      decreases onUnregistration, 1
    {
      hide Links, Mirrors, Inv, Frame, Polite, Dequeue, Begin, Replace, Run, Supplant, Returned;
      SupplantSteps(state, fd, cb, eventMask, onUnregistration);
      NodeOf(fd);
      var n := cbMap[fd];
      BeginUnregistration(n);
      Execute(onUnregistration);
      FinishSupplant(n, cb, eventMask, old(state));
    }

    /** RegisterFD where no callback is registered: a new node, or the one whose OnEvent is running. */
    method InstallFD(fd: int, cb: Callback, eventMask: Mask)
      requires Valid() && !Registered(state, fd) && fd !in state.busy
      modifies this, nodes
      ensures Valid() && KeepsPinned()
      ensures state == Install(old(state), fd, cb, eventMask)
    {
      hide Links, Mirrors, Inv, Frame;
      KernelHolds(state, fd);
      NodeOf(fd);
      ghost var s := Install(state, fd, cb, eventMask);
      if fd in cbMap {
        StoreNode(cbMap[fd], Some(cb), eventMask, 0);
      } else {
        var n := InsertNode(cb, eventMask, fd);
      }
      LinksDependOnQueues(lists, state, s);
      AddFD(fd, eventMask);
      state := s;
    }

    method BeginDeparture(fd: int)
      requires Valid() && fd in state.busy && fd !in state.leaving
      modifies this
      ensures Valid() && state == Depart(old(state), fd) && nodes == old(nodes)
    {
      hide Links, Frame, Mirrors;
      KernelHolds(state, fd);
      ghost var s := Depart(state, fd);
      LinksDependOnQueues(lists, state, s);
      DelFD(fd);
      state := s;
    }

    /** OnUnregistration for an unregistered node, called in state `s`, has returned. */
    method FinishWithdraw(n: Node, ghost s: State)
      requires Valid() && n in nodes && Returned(s, state, n.fd) && s.leaving <= s.busy
      requires state.leaving == s.leaving + {n.fd} && n.fd !in s.leaving
      modifies this, n
      ensures Valid() && state == Discard(s, old(state), n.fd)
      ensures nodes == if old(state).running == Some(n.fd) then old(nodes) else old(nodes) - {n}
    {
      hide Links, Inv, Frame;
      KernelHolds(state, n.fd);
      ghost var r := Discard(s, state, n.fd);
      LinksDependOnQueues(lists, state, r);
      if !n.inUse {
        EraseNode(n);
      } else {
        StoreNode(n, None, 0, 0);
      }
      LinksDependOnQueues(lists, state, r);
      state := r;
    }

    /** UnregisterFD of a live registration. */
    method WithdrawFD(fd: int, onUnregistration: Script)
      requires Valid() && Registered(state, fd) && fd !in state.busy && Polite(onUnregistration, state.busy + {fd})
      modifies this, nodes
      ensures Valid() && KeepsPinned()
      ensures state == Withdraw(old(state), fd, onUnregistration)
      decreases onUnregistration, 1
    {
      hide Links, Mirrors, Inv, Frame, Polite, Dequeue, Begin, Depart, Discard, Run, Withdraw, Returned;
      WithdrawSteps(state, fd, onUnregistration);
      NodeOf(fd);
      var n := cbMap[fd];
      BeginUnregistration(n);
      BeginDeparture(fd);
      Execute(onUnregistration);
      FinishWithdraw(n, old(state));
    }

    method PlaceFD(fd: int, cb: Callback, eventMask: Mask, onUnregistration: Script)
      requires Valid() && fd !in state.busy && Polite(onUnregistration, state.busy + {fd})
      modifies this, nodes
      ensures Valid() && KeepsPinned()
      ensures state == Place(old(state), fd, cb, eventMask, onUnregistration)
      decreases onUnregistration, 2
    {
      hide Links, Mirrors, Inv, Polite, Supplant, Install, Frame;
      NodeOf(fd);
      if fd in cbMap && cbMap[fd].cb.Some? {
        SupplantFD(fd, cb, eventMask, onUnregistration);
      } else {
        InstallFD(fd, cb, eventMask);
      }
    }

    method RegisterFD(fd: int, cb: Callback, eventMask: Mask, onUnregistration: Script, onRegistration: Script)
      requires Valid() && PoliteOp(Op.RegisterFD(fd, cb, eventMask, onUnregistration, onRegistration), state.busy)
      modifies this, nodes
      ensures Valid() && KeepsPinned()
      ensures state == Apply(old(state), Op.RegisterFD(fd, cb, eventMask, onUnregistration, onRegistration))
      decreases Op.RegisterFD(fd, cb, eventMask, onUnregistration, onRegistration), 0
    {
      hide Links, Mirrors, Inv, Polite, Frame, Place, Run;
      PlaceFD(fd, cb, eventMask, onUnregistration);
      Execute(onRegistration);
    }

    method UnregisterFD(fd: int, onUnregistration: Script)
      requires Valid() && PoliteOp(Op.UnregisterFD(fd, onUnregistration), state.busy)
      modifies this, nodes
      ensures Valid() && KeepsPinned()
      ensures state == Apply(old(state), Op.UnregisterFD(fd, onUnregistration))
      decreases Op.UnregisterFD(fd, onUnregistration), 0
    {
      hide Links, Mirrors, Inv, Frame, Polite, Withdraw;
      NodeOf(fd);
      if fd !in cbMap || cbMap[fd].cb.None? {
        return;
      }
      WithdrawFD(fd, onUnregistration);
    }

    method ModifyFD(fd: int, removeEvent: Mask, addEvent: Mask, onModification: Script)
      requires Valid() && PoliteOp(Op.ModifyFD(fd, removeEvent, addEvent, onModification), state.busy)
      modifies this, nodes
      ensures Valid() && KeepsPinned()
      ensures state == Apply(old(state), Op.ModifyFD(fd, removeEvent, addEvent, onModification))
      decreases Op.ModifyFD(fd, removeEvent, addEvent, onModification), 0
    {
      hide Links, Mirrors, Inv, Polite, Run, Frame, Remask;
      NodeOf(fd);
      if fd !in cbMap || cbMap[fd].cb.None? {
        return;
      }
      RemaskFD(cbMap[fd], (cbMap[fd].eventMask & !removeEvent) | addEvent);
      Execute(onModification);
    }

    method RemaskFD(n: Node, eventMask: Mask)
      requires Valid() && n in nodes && n.cb.Some? && n.fd !in state.busy
      modifies this, n
      ensures Valid() && state == Remask(old(state), n.fd, eventMask) && nodes == old(nodes)
    {
      hide Links, Inv, Frame;
      KernelHolds(state, n.fd);
      ghost var s := Remask(state, n.fd, eventMask);
      LinksDependOnQueues(lists, state, s);
      n.eventMask := eventMask;
      ModFD(n.fd, eventMask);
      state := s;
    }

    method Call(op: Op)
      requires Valid() && PoliteOp(op, state.busy)
      modifies this, nodes
      ensures Valid() && state == Apply(old(state), op) && KeepsPinned()
      decreases op, 1
    {
      hide Links, Mirrors, Inv, Frame, Polite;
      match op {
        case RegisterFD(fd, cb, mask, onUnregistration, onRegistration) =>
          RegisterFD(fd, cb, mask, onUnregistration, onRegistration);
        case UnregisterFD(fd, onUnregistration) => UnregisterFD(fd, onUnregistration);
        case ModifyFD(fd, remove, add, onModification) => ModifyFD(fd, remove, add, onModification);
        case SetFDReady(fd, mask) => SetFDReady(fd, mask);
        case SetFDNotReady(fd) => SetFDNotReady(fd);
        case HandleEvent(fd, mask) => HandleEvent(fd, mask);
      }
    }

    /** What one call of a user callback does to the server. */
    method Execute(script: Script)
      requires Valid() && Polite(script, state.busy)
      modifies this, nodes
      ensures Valid() && state == Run(old(state), script) && KeepsPinned()
      decreases script, 0
    {
      hide Links, Mirrors, Inv, PoliteOp, Apply;
      match script {
        case Return =>
        case Do(op, next) =>
          Call(op);
          Execute(next);
      }
    }

    // ---------- one pass ----------

    /** The first node of `q` learns that it now hangs off the other head. */
    method Rehead(ghost q: seq<Node>)
      requires Linked(ReadyHead, tmpFirst, q) && NoDup(q) && Within(q, nodes)
      modifies nodes`lePrev
      ensures Linked(TmpHead, tmpFirst, q)
      ensures forall m :: m in nodes ==> (m.lePrev == NotListed <==> old(m.lePrev) == NotListed)
    {
      NoDupDistinct(q);
      if tmpFirst != null {
        tmpFirst.lePrev := TmpHead;
      }
    }

    method SwapHeads()
      requires Links(lists, state) && state.tmp == []
      modifies `readyFirst, `tmpFirst, nodes`lePrev
      ensures Inv(state) ==> Links(Lists([], lists.ready), Swap(state))
    {
      KeyedSwap(cbMap, nodes, lists, state);
      assert NoDup(lists.ready) by { KeyedDistinct(cbMap, nodes, lists, state); }
      readyFirst, tmpFirst := tmpFirst, readyFirst;
      Rehead(lists.ready);
    }

    /** The ready list becomes the list to walk. */
    method SwapLists()
      requires Valid() && state.tmp == []
      modifies this, nodes
      ensures Valid() && state == Swap(old(state)) && nodes == old(nodes)
    {
      hide Links, Mirrors, Inv;
      SwapHeads();
      lists, state := Lists([], lists.ready), Swap(state);
    }

    method TakeEvents(n: Node) returns (inEvents: Mask)
      requires Mirrors(state.slots) && n in nodes
      modifies n`eventsAsserted, n`eventsToFake, n`inUse
      ensures Mirrors(state.slots[n.fd := state.slots[n.fd].(asserted := 0, fake := 0, inUse := true)])
      ensures inEvents == state.slots[n.fd].asserted | state.slots[n.fd].fake
    {
      inEvents := n.eventsAsserted | n.eventsToFake;
      n.eventsAsserted := 0;
      n.eventsToFake := 0;
      n.inUse := true;
    }

    /** The node at the head of the list being walked is taken off it; its OnEvent is to report `inEvents`. */
    method BeginEvent(n: Node) returns (inEvents: Mask)
      requires Valid() && Idle(state) && state.tmp != [] && n in nodes && n.fd == state.tmp[0]
      modifies this, nodes
      ensures Valid() && state == Start(old(state)) && nodes == old(nodes)
      ensures n.fd in old(state).slots && old(state).slots[n.fd].cb.Some?
      ensures state.log == old(state).log + [Delivered(n.fd, old(state).slots[n.fd].cb.value, inEvents)]
    {
      hide Links, Mirrors, Frame, Without, Unqueue, Inv;
      StartUnqueues(state);
      ghost var s := Start(state);
      RemoveFromReadyList(n);
      inEvents := TakeEvents(n);
      LinksDependOnQueues(lists, state, s);
      state := s;
    }

    method ReleaseNode(n: Node)
      requires Mirrors(state.slots) && n in nodes
      modifies n`inUse
      ensures Mirrors(state.slots[n.fd := state.slots[n.fd].(inUse := false)])
    {
      n.inUse := false;
    }

    /** OnEvent of node `n` has returned, leaving `outReadyMask`. */
    method FinishEvent(n: Node, outReadyMask: Mask)
      requires Valid() && n in nodes && state.running == Some(n.fd) && state.busy == {}
      modifies this, nodes
      ensures Valid() && state == Finish(old(state), outReadyMask)
      ensures nodes <= old(nodes)
    {
      hide Links, Mirrors, Frame, Inv, Enqueue;
      KernelHolds(state, n.fd);
      NodeOf(n.fd);
      ReleaseNode(n);
      if n.cb.None? {
        BuryNode(n);
      } else {
        ghost var s := Release(state);
        LinksDependOnQueues(lists, state, s);
        state := s;
        if outReadyMask != 0 {
          FakeReady(n, outReadyMask);
        }
      }
    }

    method BuryNode(n: Node)
      requires Links(lists, state) && Inv(state) && state.running == Some(n.fd) && state.busy == {}
      requires n in nodes && !Registered(state, n.fd)
      requires n.fd in state.slots && Mirrors(state.slots[n.fd := state.slots[n.fd].(inUse := false)])
      modifies this
      ensures Valid() && state == Bury(old(state)) && nodes == old(nodes) - {n}
    {
      hide Links, Mirrors, Inv, Frame;
      KernelHolds(state, n.fd);
      ghost var s := Bury(state);
      ghost var t := state.(slots := state.slots[n.fd := state.slots[n.fd].(inUse := false)]);
      LinksDependOnQueues(lists, state, t);
      state := t;
      EraseNode(n);
      assert s.slots == t.slots - {n.fd};
      LinksDependOnQueues(lists, state, s);
      state := s;
    }

    lemma TmpHeadIsFirst()
      requires Links(lists, state)
      ensures tmpFirst == null <==> state.tmp == []
      ensures tmpFirst != null ==> tmpFirst in nodes && tmpFirst.fd == state.tmp[0]
    {
    }

    /** Calls OnEvent for what is on the ready list; call `i` of it behaves as `replies(i)`. */
    method CallReadyListCallbacks(replies: nat -> Reply)
      requires Valid() && Idle(state) && state.tmp == []
      requires forall i :: Polite(replies(i).script, {})
      modifies this, nodes
      ensures Valid() && state == EpollFdPasses.CallReadyListCallbacks(old(state), replies)
      ensures fresh(nodes - old(nodes))
    {
      hide Links, Mirrors, Frame, Inv, PassPart, Polite, Start, Finish, Run;
      SwapLists();
      ghost var s := state;
      var i := 0;
      TmpHeadIsFirst();
      while tmpFirst != null
        invariant Valid() && Idle(state) && fresh(nodes - old(nodes))
        invariant tmpFirst == null <==> state.tmp == []
        invariant Pass(state, replies, i) == Pass(s, replies, 0)
        decreases |state.tmp|
      {
        TmpHeadIsFirst();
        var n := tmpFirst;
        ghost var t := Deliver(state, replies(i));
        var inEvents := BeginEvent(n);
        Execute(replies(i).script);
        FinishEvent(n, replies(i).outReadyMask);
        assert state == t;
        TmpHeadIsFirst();
        i := i + 1;
      }
    }

    /** What happens once epoll_wait has returned `events`. */
    method HandleEventsAndReadyList(events: seq<EpollEvent>, replies: nat -> Reply)
      requires Valid() && Idle(state) && state.tmp == []
      requires forall i :: Polite(replies(i).script, {})
      modifies this, nodes
      ensures Valid()
      ensures state == EpollFdPasses.CallReadyListCallbacks(HandleAll(old(state), events), replies)
    {
      hide Links, Mirrors, Frame, Inv, PassPart, Polite, Assert;
      var i := 0;
      while i < |events|
        invariant i <= |events| && Valid() && nodes == old(nodes) && Idle(state) && state.tmp == []
        invariant HandleAll(state, events[i..]) == HandleAll(old(state), events)
      {
        AssertQueues(state, events[i].fd, events[i].mask);
        assert events[i..][0] == events[i] && events[i..][1..] == events[i + 1..];
        HandleEvent(events[i].fd, events[i].mask);
        i := i + 1;
      }
      ReadyHeadIsFirst();
      if readyFirst != null {
        CallReadyListCallbacks(replies);
      }
    }

    lemma ReadyHeadIsFirst()
      requires Links(lists, state)
      ensures readyFirst == null <==> state.ready == []
    {
    }

    /** Walks both lists by their forward links and compares the count with the size kept. */
    method VerifyReadyList() returns (matches: bool)
      requires Valid()
      ensures matches
    {
      hide Inv, Mirrors, Keyed;
      var count := 0;
      var cur := readyFirst;
      while cur != null
        invariant 0 <= count <= |lists.ready|
        invariant cur == if count < |lists.ready| then lists.ready[count] else null
        decreases |lists.ready| - count
      {
        count := count + 1;
        cur := cur.leNext;
      }
      cur := tmpFirst;
      ghost var n := |lists.ready|;
      while cur != null
        invariant n <= count <= n + |lists.tmp|
        invariant cur == if count - n < |lists.tmp| then lists.tmp[count - n] else null
        decreases n + |lists.tmp| - count
      {
        count := count + 1;
        cur := cur.leNext;
      }
      matches := readyListSize == count;
    }
  }
}
