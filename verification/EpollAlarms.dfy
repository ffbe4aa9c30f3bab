/**
 The alarm half of `EpollServer`: a multimap from deadlines to alarms that is walked while the alarms
 being called register, cancel and re-register, and the set that has to agree with it.

 What one call of OnAlarm does is a `Response`: the calls it makes on alarms, in order, and the deadline
 it returns. The proofs hold for every sequence of responses.
 */
module EpollAlarms {
  import opened Sequences

  /** An element of the multimap. `token` numbers registrations and stands for the iterator to the element. */
  datatype Entry = Entry(time: int, token: nat, cb: EpollAlarm)

  datatype AlarmOp =
    | Set(alarm: EpollAlarm, time: int)
    | Cancel(alarm: EpollAlarm)

  datatype Response = Response(ops: seq<AlarmOp>, again: int)

  /** The multimap's order: by deadline, and by registration among equal deadlines. */
  predicate Before(a: Entry, b: Entry) {
    a.time < b.time || (a.time == b.time && a.token < b.token)
  }

  ghost predicate Sorted(m: seq<Entry>) {
    forall i, j :: 0 <= i < j < |m| ==> Before(m[i], m[j])
  }

  lemma SortedCons(e: Entry, m: seq<Entry>)
    ensures Sorted([e] + m) <==> Sorted(m) && forall x :: x in m ==> Before(e, x)
  {
    var t := [e] + m;
    if Sorted(t) {
      forall i, j | 0 <= i < j < |m| ensures Before(m[i], m[j]) {
        assert Before(t[i + 1], t[j + 1]);
      }
      forall x | x in m ensures Before(e, x) {
        var i :| 0 <= i < |m| && m[i] == x;
        assert Before(t[0], t[i + 1]);
      }
    }
  }

  lemma SortedSnoc(m: seq<Entry>, e: Entry)
    requires Sorted(m) && forall x :: x in m ==> Before(x, e)
    ensures Sorted(m + [e])
  {
  }

  /** std::multimap::insert: behind every element that is not later. */
  function Insert(m: seq<Entry>, e: Entry): (r: seq<Entry>)
    ensures forall x :: x in r ==> x in m || x == e
    ensures e in r && forall x :: x in m ==> x in r
    ensures Sorted(m) && (forall x :: x in m ==> x.token < e.token) ==> Sorted(r)
  {
    if m == [] || e.time < m[0].time then
      assert m != [] ==> m == [m[0]] + m[1..];
      if m != [] then SortedCons(m[0], m[1..]); SortedCons(e, m); [e] + m else [e] + m
    else
      assert m == [m[0]] + m[1..];
      SortedCons(m[0], m[1..]);
      SortedCons(m[0], Insert(m[1..], e));
      [m[0]] + Insert(m[1..], e)
  }

  function Erase(m: seq<Entry>, e: Entry): (r: seq<Entry>)
    ensures Sorted(m) ==> Sorted(r)
    ensures forall x :: x in r ==> x in m && x != e
    ensures forall x :: x in m && x != e ==> x in r
  {
    if m == [] then []
    else
      assert m == [m[0]] + m[1..];
      SortedCons(m[0], m[1..]);
      SortedCons(m[0], Erase(m[1..], e));
      if m[0] == e then Erase(m[1..], e) else [m[0]] + Erase(m[1..], e)
  }

  function Begin(m: seq<Entry>): Option<Entry> {
    if m == [] then None else Some(m[0])
  }

  /** The element after `e`, or none at the end. */
  function Next(m: seq<Entry>, e: Entry): (r: Option<Entry>)
    ensures r.Some? ==> r.value in m && Before(e, r.value)
    ensures Sorted(m) ==> forall x :: x in m && Before(e, x) ==> r.Some? && (x == r.value || Before(r.value, x))
  {
    if m == [] then None
    else
      assert m == [m[0]] + m[1..];
      SortedCons(m[0], m[1..]);
      if Before(e, m[0]) then Some(m[0]) else Next(m[1..], e)
  }

  ghost predicate UniqueTokens(s: set<Entry>) {
    forall e, x :: e in s && x in s && e.token == x.token ==> e == x
  }

  lemma Comparable(s: set<Entry>, i: Entry)
    requires UniqueTokens(s) && i in s
    ensures forall e :: e in s ==> e == i || Before(e, i) || Before(i, e)
  {
  }

  /** Entries at or after the iterator position `it` that are due at `now`. */
  ghost function DueAhead(m: seq<Entry>, it: Option<Entry>, now: int): set<Entry> {
    set e | e in m && it.Some? && !Before(e, it.value) && e.time <= now
  }

  ghost function Unskipped(s: set<Entry>, skip: set<EpollAlarm>): set<Entry> {
    set e | e in s && e.cb !in skip
  }

  ghost function Due(s: set<Entry>, now: int): set<Entry> {
    set e | e in s && e.time <= now
  }

  /** The walk's measure drops by at least one when the element `i` fires, whatever its callback registers. */
  lemma FiringPaysForItself(u: set<Entry>, u': set<Entry>, i: Entry, d: set<Entry>, d': set<Entry>)
    requires i in u && d <= d' && u' <= (u - {i}) + (d' - d)
    ensures |u'| + |d| < |u| + |d'|
  {
    CardinalityOfSubset(u', (u - {i}) + (d' - d));
    assert d' == d + (d' - d);
  }

  lemma CardinalityOfSubset<T>(a: set<T>, b: set<T>)
    requires a <= b
    ensures |a| <= |b|
  {
    assert b == a + (b - a);
  }

  /** How many of the calls ask for a registration that is due at once. */
  function DueSets(ops: seq<AlarmOp>, now: int): nat {
    if ops == [] then 0 else (if ops[0].Set? && ops[0].time <= now then 1 else 0) + DueSets(ops[1..], now)
  }

  /** The same over the responses from the `k`-th up to `horizon`. */
  function DueSetsFrom(responses: nat -> Response, now: int, k: nat, horizon: nat): nat
    decreases horizon - k
  {
    if k >= horizon then 0 else DueSets(responses(k).ops, now) + DueSetsFrom(responses, now, k + 1, horizon)
  }

  /** The state at the start of a walk, and how many due registrations its callbacks may make by calls. */
  datatype Walk = Walk(waiting: seq<Entry>, born: set<Entry>, cancelled: set<Entry>, fired: seq<Entry>,
                       nextToken: nat, deadlines: map<EpollAlarm, int>, budget: nat)

  /** What was registered during a walk: `again` by return value and due, everything else by calls. */
  ghost predicate Newcomers(w: Walk, born: set<Entry>, cancelled: set<Entry>, fired: seq<Entry>, nextToken: nat,
                            skip: set<EpollAlarm>, now: int, again: set<Entry>, left: nat) {
    && w.born <= born && w.cancelled <= cancelled && w.nextToken <= nextToken
    && (forall e :: e in born && e !in w.born ==> e.token >= w.nextToken)
    && (forall e :: e in w.waiting ==> e in w.born && e !in w.fired)
    && (forall e :: e in w.fired ==> e in w.born)
    && (forall e :: e in w.born ==> e in w.waiting || e in w.cancelled || e in w.fired)
    && (forall e :: e in again ==> e in born && e !in w.born && e !in fired && e.time <= now && e.cb in skip)
    && left + |Due(born, now)| == w.budget + |Due(w.born, now)| + |again|
  }

  /** Without a budget for calls, whatever is new and due comes from a return value. */
  lemma NewAndDue(w: Walk, born: set<Entry>, cancelled: set<Entry>, fired: seq<Entry>, nextToken: nat,
                  skip: set<EpollAlarm>, now: int, again: set<Entry>, left: nat)
    requires Newcomers(w, born, cancelled, fired, nextToken, skip, now, again, left) && w.budget == 0
    ensures forall e :: e in born && e !in w.born && e.time <= now ==> e in again
  {
    var d, d' := Due(w.born, now), Due(born, now);
    assert |d + again| == |d| + |again| by { assert d !! again; }
    if d + again != d' {
      assert d + again < d';
      var x :| x in d' && x !in d + again;
      CardinalityOfSubset(d + again + {x}, d');
    }
  }

  lemma NewcomersStay(w: Walk, born: set<Entry>, cancelled: set<Entry>, fired: seq<Entry>, nextToken: nat,
                      skip: set<EpollAlarm>, now: int, again: set<Entry>, left: nat, born': set<Entry>,
                      cancelled': set<Entry>, fired': seq<Entry>, nextToken': nat, skip': set<EpollAlarm>, left': nat)
    requires Newcomers(w, born, cancelled, fired, nextToken, skip, now, again, left)
    requires born <= born' && cancelled <= cancelled' && nextToken <= nextToken' && skip <= skip'
    requires forall e :: e in born' && e !in born ==> e.token >= nextToken
    requires forall e :: e in again ==> e !in fired'
    requires left' + |Due(born', now)| == left + |Due(born, now)|
    ensures Newcomers(w, born', cancelled', fired', nextToken', skip', now, again, left')
  {
  }

  lemma AddNewcomer(w: Walk, born: set<Entry>, cancelled: set<Entry>, fired: seq<Entry>, nextToken: nat,
                    skip: set<EpollAlarm>, now: int, again: set<Entry>, left: nat, e: Entry)
    requires Newcomers(w, born, cancelled, fired, nextToken, skip, now, again, left)
    requires e.token == nextToken && e !in born && forall x :: x in fired ==> x in born
    requires e.time <= now ==> e.cb in skip
    ensures Newcomers(w, born + {e}, cancelled, fired, nextToken + 1, skip, now,
                      if e.time <= now then again + {e} else again, left)
  {
    if e.time <= now {
      assert Due(born + {e}, now) == Due(born, now) + {e};
    } else {
      assert Due(born + {e}, now) == Due(born, now);
    }
  }

  // ---------- what calls do to one alarm ----------

  function Look(deadlines: map<EpollAlarm, int>, a: EpollAlarm): Option<int> {
    if a in deadlines then Some(deadlines[a]) else None
  }

  /** The deadline that `a` is registered for after the calls, if it was registered for `d` before them. */
  function After(ops: seq<AlarmOp>, a: EpollAlarm, d: Option<int>): Option<int> {
    if ops == [] then d
    else
      var last, before := ops[|ops| - 1], After(ops[..|ops| - 1], a, d);
      if last.alarm != a then before
      else if last.Cancel? then None
      else if before.None? then Some(last.time) else before
  }

  /** The last call that names an alarm decides whether it is registered; calls that do not name it do nothing to it. */
  lemma {:induction false} LastCallCounts(ops: seq<AlarmOp>, a: EpollAlarm, d: Option<int>, j: int)
    requires -1 <= j < |ops| && (j >= 0 ==> ops[j].alarm == a)
    requires forall i :: j < i < |ops| ==> ops[i].alarm != a
    ensures j == -1 ==> After(ops, a, d) == d
    ensures j >= 0 && ops[j].Cancel? ==> After(ops, a, d) == None
    ensures j >= 0 && ops[j].Set? ==> After(ops, a, d).Some?
    ensures j >= 0 && ops[j].Set? && After(ops[..j], a, d).None? ==> After(ops, a, d) == Some(ops[j].time)
  {
    if ops != [] {
      var most := ops[..|ops| - 1];
      if j < |ops| - 1 {
        LastCallCounts(most, a, d, j);
        if j >= 0 { assert most[..j] == ops[..j]; }
      }
    }
  }

  /** What OnAlarm of the element `f` finds. */
  function AtCall(f: Entry, a: EpollAlarm, d: Option<int>): Option<int> {
    if a == f.cb then None else d
  }

  function AfterTurn(f: Entry, r: Response, a: EpollAlarm, d: Option<int>): Option<int> {
    var left := After(r.ops, a, AtCall(f, a, d));
    if a == f.cb && left.None? && r.again > 0 then Some(r.again) else left
  }

  function AfterTurns(turns: seq<Entry>, n: nat, responses: nat -> Response, a: EpollAlarm, d: Option<int>): Option<int>
    requires n <= |turns|
  {
    if n == 0 then d else AfterTurn(turns[n - 1], responses(n - 1), a, AfterTurns(turns, n - 1, responses, a, d))
  }

  lemma {:induction false} AfterTurnsPrefix(turns: seq<Entry>, n: nat, responses: nat -> Response, a: EpollAlarm,
                                            d: Option<int>, i: Entry)
    requires n <= |turns|
    ensures AfterTurns(turns + [i], n, responses, a, d) == AfterTurns(turns, n, responses, a, d)
  {
    if n > 0 {
      AfterTurnsPrefix(turns, n - 1, responses, a, d, i);
    }
  }

  /** Every registration that the calls ask for while its alarm is unregistered is made. */
  ghost predicate SetsMade(ops: seq<AlarmOp>, before: map<EpollAlarm, int>, newborn: set<Entry>) {
    forall j :: 0 <= j < |ops| && ops[j].Set? && After(ops[..j], ops[j].alarm, Look(before, ops[j].alarm)).None? ==>
      exists e :: e in newborn && e.cb == ops[j].alarm && e.time == ops[j].time
  }

  /** The server's records without their order: deadlines, and which elements are waiting. */
  datatype Records = Records(deadlines: map<EpollAlarm, int>, live: set<Entry>, born: set<Entry>,
                             cancelled: set<Entry>, nextToken: nat)

  /** What one call does, exactly. */
  ghost predicate Does(op: AlarmOp, s: Records, s': Records) {
    match op
    case Set(a, time) =>
      if a in s.deadlines then s' == s
      else
        var e := Entry(time, s.nextToken, a);
        e !in s.born && s' == Records(s.deadlines[a := time], s.live + {e}, s.born + {e}, s.cancelled, s.nextToken + 1)
    case Cancel(a) =>
      var gone := set e | e in s.live && e.cb == a;
      s' == s.(deadlines := s.deadlines - {a}, live := s.live - gone, cancelled := s.cancelled + gone)
  }

  /** What calls do, whatever they are. */
  ghost predicate Did(ops: seq<AlarmOp>, alarms: set<EpollAlarm>, s: Records, s': Records) {
    && s.born <= s'.born && s.cancelled <= s'.cancelled && s.nextToken <= s'.nextToken
    && (forall e :: e in s'.born && e !in s.born ==> e.token >= s.nextToken && Set(e.cb, e.time) in ops)
    && (forall e :: e in s'.cancelled && e !in s.cancelled ==> Cancel(e.cb) in ops)
    && (forall e :: e in s.live ==> e in s'.live || e in s'.cancelled)
    && (forall e :: e in s.live && Cancel(e.cb) in ops ==> e in s'.cancelled)
    && (forall a :: a in alarms ==> Look(s'.deadlines, a) == After(ops, a, Look(s.deadlines, a)))
    && SetsMade(ops, s.deadlines, s'.born - s.born)
  }

  lemma DidNothing(alarms: set<EpollAlarm>, s: Records)
    ensures Did([], alarms, s, s)
  {
  }

  lemma DidMore(ops: seq<AlarmOp>, op: AlarmOp, alarms: set<EpollAlarm>, s: Records, s': Records, s'': Records)
    requires Did(ops, alarms, s, s') && Does(op, s', s'') && op.alarm in alarms
    ensures Did(ops + [op], alarms, s, s'')
  {
    DidMoreSets(ops, op, alarms, s, s', s'');
    DidMoreDeadlines(ops, op, alarms, s, s', s'');
    DidMoreElements(ops, op, alarms, s, s', s'');
    hide SetsMade, After, Does;
  }

  lemma DidMoreDeadlines(ops: seq<AlarmOp>, op: AlarmOp, alarms: set<EpollAlarm>, s: Records, s': Records, s'': Records)
    requires Did(ops, alarms, s, s') && Does(op, s', s'')
    ensures forall a :: a in alarms ==> Look(s''.deadlines, a) == After(ops + [op], a, Look(s.deadlines, a))
  {
    hide SetsMade;
    var more := ops + [op];
    assert more[..|ops|] == ops && more[|ops|] == op;
  }

  lemma DidMoreElements(ops: seq<AlarmOp>, op: AlarmOp, alarms: set<EpollAlarm>, s: Records, s': Records, s'': Records)
    requires Did(ops, alarms, s, s') && Does(op, s', s'')
    ensures s.born <= s''.born && s.cancelled <= s''.cancelled && s.nextToken <= s''.nextToken
    ensures forall e :: e in s''.born && e !in s.born ==> e.token >= s.nextToken && Set(e.cb, e.time) in ops + [op]
    ensures forall e :: e in s''.cancelled && e !in s.cancelled ==> Cancel(e.cb) in ops + [op]
    ensures forall e :: e in s.live ==> e in s''.live || e in s''.cancelled
    ensures forall e :: e in s.live && Cancel(e.cb) in ops + [op] ==> e in s''.cancelled
  {
    hide SetsMade, After, Look;
    forall e | e in s.live && Cancel(e.cb) in ops + [op] ensures e in s''.cancelled {
      if Cancel(e.cb) !in ops { assert op == Cancel(e.cb); }
    }
  }

  lemma DidFacts(ops: seq<AlarmOp>, alarms: set<EpollAlarm>, s: Records, s': Records)
    requires Did(ops, alarms, s, s')
    ensures s.born <= s'.born && s.cancelled <= s'.cancelled && s.nextToken <= s'.nextToken
    ensures forall e :: e in s'.born && e !in s.born ==> e.token >= s.nextToken && Set(e.cb, e.time) in ops
    ensures forall e :: e in s'.cancelled && e !in s.cancelled ==> Cancel(e.cb) in ops
    ensures forall e :: e in s.live && Cancel(e.cb) in ops ==> e in s'.cancelled
    ensures forall a :: a in alarms ==> Look(s'.deadlines, a) == After(ops, a, Look(s.deadlines, a))
    ensures SetsMade(ops, s.deadlines, s'.born - s.born)
  {
  }

  lemma DidToOne(ops: seq<AlarmOp>, alarms: set<EpollAlarm>, s: Records, s': Records, a: EpollAlarm)
    requires Did(ops, alarms, s, s') && a in alarms
    ensures Look(s'.deadlines, a) == After(ops, a, Look(s.deadlines, a))
  {
  }

  lemma DidMoreSets(ops: seq<AlarmOp>, op: AlarmOp, alarms: set<EpollAlarm>, s: Records, s': Records, s'': Records)
    requires Did(ops, alarms, s, s') && Does(op, s', s'') && op.alarm in alarms
    ensures SetsMade(ops + [op], s.deadlines, s''.born - s.born)
  {
    hide After;
    var more := ops + [op];
    forall j | 0 <= j < |more| && more[j].Set? &&
      After(more[..j], more[j].alarm, Look(s.deadlines, more[j].alarm)).None?
      ensures exists e :: e in s''.born - s.born && e.cb == more[j].alarm && e.time == more[j].time
    {
      assert more[..j] == ops[..j];
      if j < |ops| {
        assert more[j] == ops[j];
        var e :| e in s'.born - s.born && e.cb == more[j].alarm && e.time == more[j].time;
        assert e in s''.born - s.born;
      } else {
        assert more[..j] == ops;
        assert Entry(op.time, s'.nextToken, op.alarm) in s''.born - s.born;
      }
    }
  }

  /** The deadlines an OnAlarm of `f` finds at turn `k`. */
  ghost function Found(turns: seq<Entry>, k: nat, responses: nat -> Response, deadlines: map<EpollAlarm, int>,
                       a: EpollAlarm): Option<int>
    requires k < |turns|
  {
    AtCall(turns[k], a, AfterTurns(turns, k, responses, a, Look(deadlines, a)))
  }

  /** Over the turns, every registration asked for while its alarm is unregistered is made. */
  ghost predicate AllSetsMade(turns: seq<Entry>, responses: nat -> Response, deadlines: map<EpollAlarm, int>,
                              newborn: set<Entry>) {
    forall k, j :: 0 <= k < |turns| && 0 <= j < |responses(k).ops| && responses(k).ops[j].Set? ==>
      var a := responses(k).ops[j].alarm;
      After(responses(k).ops[..j], a, Found(turns, k, responses, deadlines, a)).None? ==>
        exists e :: e in newborn && e.cb == a && e.time == responses(k).ops[j].time
  }

  /** Over the turns, whatever waited and had not fired when its alarm was cancelled is cancelled. */
  ghost predicate AllCancelsMade(turns: seq<Entry>, responses: nat -> Response, waiting: seq<Entry>,
                                 cancelled: set<Entry>) {
    forall k, e :: 0 <= k < |turns| && e in waiting && e !in turns[..k + 1] && Cancel(e.cb) in responses(k).ops ==>
      e in cancelled
  }

  /** Every alarm ends with the deadline that the turns left it with. */
  ghost predicate AllDeadlinesSet(turns: seq<Entry>, responses: nat -> Response, alarms: set<EpollAlarm>,
                                  before: map<EpollAlarm, int>, after: map<EpollAlarm, int>) {
    forall a :: a in alarms ==> Look(after, a) == AfterTurns(turns, |turns|, responses, a, Look(before, a))
  }

  ghost predicate Obeyed(turns: seq<Entry>, responses: nat -> Response, alarms: set<EpollAlarm>, w: Walk,
                         deadlines: map<EpollAlarm, int>, newborn: set<Entry>, cancelled: set<Entry>) {
    && AllDeadlinesSet(turns, responses, alarms, w.deadlines, deadlines)
    && AllSetsMade(turns, responses, w.deadlines, newborn)
    && AllCancelsMade(turns, responses, w.waiting, cancelled)
  }

  lemma ObeyTurn(turns: seq<Entry>, responses: nat -> Response, alarms: set<EpollAlarm>, w: Walk,
                 deadlines: map<EpollAlarm, int>, newborn: set<Entry>, cancelled: set<Entry>, i: Entry,
                 deadlines': map<EpollAlarm, int>, newborn': set<Entry>, cancelled': set<Entry>)
    requires Obeyed(turns, responses, alarms, w, deadlines, newborn, cancelled)
    requires newborn <= newborn' && cancelled <= cancelled'
    requires forall op :: op in responses(|turns|).ops ==> op.alarm in alarms
    requires forall a :: a in alarms ==> Look(deadlines', a) == AfterTurn(i, responses(|turns|), a, Look(deadlines, a))
    requires SetsMade(responses(|turns|).ops, deadlines - {i.cb}, newborn')
    requires forall e :: e in w.waiting && e !in turns && e != i && Cancel(e.cb) in responses(|turns|).ops ==>
               e in cancelled'
    ensures Obeyed(turns + [i], responses, alarms, w, deadlines', newborn', cancelled')
  {
    hide After, AfterTurn;
    DeadlinesAtTurn(turns, responses, alarms, w.deadlines, deadlines, i, deadlines');
    SetsAtTurn(turns, responses, alarms, w.deadlines, deadlines, newborn, i, newborn');
    forall k, e | 0 <= k < |turns| + 1 && e in w.waiting && e !in (turns + [i])[..k + 1] &&
      Cancel(e.cb) in responses(k).ops ensures e in cancelled'
    {
      if k < |turns| {
        assert (turns + [i])[..k + 1] == turns[..k + 1];
      } else {
        assert (turns + [i])[..k + 1] == turns + [i];
      }
    }
  }

  /** The same from what the methods say of one firing: `made` is what its return value registered. */
  lemma ObeyFiring(turns: seq<Entry>, responses: nat -> Response, alarms: set<EpollAlarm>, w: Walk,
                   d: map<EpollAlarm, int>, born: set<Entry>, cancelled: set<Entry>, i: Entry,
                   d': map<EpollAlarm, int>, born': set<Entry>, cancelled': set<Entry>, made: Option<Entry>,
                   d'': map<EpollAlarm, int>)
    requires Obeyed(turns, responses, alarms, w, d, born - w.born, cancelled)
    requires w.born <= born <= born' && cancelled <= cancelled'
    requires forall op :: op in responses(|turns|).ops ==> op.alarm in alarms
    requires forall a :: a in alarms ==> Look(d', a) == After(responses(|turns|).ops, a, Look(d - {i.cb}, a))
    requires SetsMade(responses(|turns|).ops, d - {i.cb}, born' - born)
    requires forall e :: e in w.waiting && e !in turns && e != i && Cancel(e.cb) in responses(|turns|).ops ==>
               e in cancelled'
    requires made.Some? <==> responses(|turns|).again > 0 && After(responses(|turns|).ops, i.cb, None).None?
    requires d'' == if made.Some? then d'[i.cb := responses(|turns|).again] else d'
    ensures Obeyed(turns + [i], responses, alarms, w, d'', With(born', made, true) - w.born, cancelled')
  {
    hide Obeyed;
    var r := responses(|turns|);
    forall a | a in alarms ensures Look(d'', a) == AfterTurn(i, r, a, Look(d, a)) {
      assert Look(d - {i.cb}, a) == AtCall(i, a, Look(d, a));
    }
    assert SetsMade(r.ops, d - {i.cb}, With(born', made, true) - w.born) by {
      hide After;
      SetsMadeMore(r.ops, d - {i.cb}, born' - born, With(born', made, true) - w.born);
    }
    ObeyTurn(turns, responses, alarms, w, d, born - w.born, cancelled, i,
             d'', With(born', made, true) - w.born, cancelled');
  }

  lemma SetsMadeMore(ops: seq<AlarmOp>, before: map<EpollAlarm, int>, some: set<Entry>, more: set<Entry>)
    requires SetsMade(ops, before, some) && some <= more
    ensures SetsMade(ops, before, more)
  {
    hide After;
    forall j | 0 <= j < |ops| && ops[j].Set? && After(ops[..j], ops[j].alarm, Look(before, ops[j].alarm)).None?
      ensures exists e :: e in more && e.cb == ops[j].alarm && e.time == ops[j].time
    {
      var e :| e in some && e.cb == ops[j].alarm && e.time == ops[j].time;
      assert e in more;
    }
  }

  lemma DeadlinesAtTurn(turns: seq<Entry>, responses: nat -> Response, alarms: set<EpollAlarm>,
                        start: map<EpollAlarm, int>, deadlines: map<EpollAlarm, int>, i: Entry,
                        deadlines': map<EpollAlarm, int>)
    requires AllDeadlinesSet(turns, responses, alarms, start, deadlines)
    requires forall a :: a in alarms ==> Look(deadlines', a) == AfterTurn(i, responses(|turns|), a, Look(deadlines, a))
    ensures AllDeadlinesSet(turns + [i], responses, alarms, start, deadlines')
  {
    hide AfterTurn;
    forall a | a in alarms
      ensures Look(deadlines', a) == AfterTurns(turns + [i], |turns| + 1, responses, a, Look(start, a))
    {
      AfterTurnsPrefix(turns, |turns|, responses, a, Look(start, a), i);
    }
  }

  lemma SetsAtTurn(turns: seq<Entry>, responses: nat -> Response, alarms: set<EpollAlarm>,
                   start: map<EpollAlarm, int>, deadlines: map<EpollAlarm, int>, newborn: set<Entry>, i: Entry,
                   newborn': set<Entry>)
    requires AllDeadlinesSet(turns, responses, alarms, start, deadlines)
    requires AllSetsMade(turns, responses, start, newborn) && newborn <= newborn'
    requires forall op :: op in responses(|turns|).ops ==> op.alarm in alarms
    requires SetsMade(responses(|turns|).ops, deadlines - {i.cb}, newborn')
    ensures AllSetsMade(turns + [i], responses, start, newborn')
  {
    hide After, AfterTurn;
    var longer := turns + [i];
    forall k, j | 0 <= k < |longer| && 0 <= j < |responses(k).ops| && responses(k).ops[j].Set? &&
      After(responses(k).ops[..j], responses(k).ops[j].alarm,
            Found(longer, k, responses, start, responses(k).ops[j].alarm)).None?
      ensures exists e :: e in newborn' && e.cb == responses(k).ops[j].alarm && e.time == responses(k).ops[j].time
    {
      var a := responses(k).ops[j].alarm;
      AfterTurnsPrefix(turns, k, responses, a, Look(start, a), i);
      if k < |turns| {
        assert Found(longer, k, responses, start, a) == Found(turns, k, responses, start, a);
        var e :| e in newborn && e.cb == a && e.time == responses(k).ops[j].time;
        assert e in newborn';
      } else {
        assert a in alarms;
        assert Found(longer, k, responses, start, a) == Look(deadlines - {i.cb}, a);
      }
    }
  }

  // ---------- what became of the calls and return values of a walk ----------

  /** `e` is the registration that the return value of `r`, the OnAlarm of element `f`, asks for. */
  predicate AsksFor(f: Entry, r: Response, e: Entry) {
    r.again > 0 && e.cb == f.cb && e.time == r.again
  }

  /** Whatever is new was asked for by a callback of this walk, and whatever is newly cancelled was cancelled by one. */
  ghost predicate Explained(turns: seq<Entry>, responses: nat -> Response, newborn: set<Entry>, gone: set<Entry>) {
    && (forall e :: e in newborn ==>
          exists k :: 0 <= k < |turns| && (AsksFor(turns[k], responses(k), e) || Set(e.cb, e.time) in responses(k).ops))
    && (forall e :: e in gone ==> exists k :: 0 <= k < |turns| && Cancel(e.cb) in responses(k).ops)
  }

  /** The first `n` return values led to registrations; `again` has those due at `now`, and no others. */
  ghost predicate Honoured(turns: seq<Entry>, n: nat, responses: nat -> Response, newborn: set<Entry>,
                           again: set<Entry>, now: int)
    requires n <= |turns|
  {
    && (forall k :: 0 <= k < n && responses(k).again > 0 && After(responses(k).ops, turns[k].cb, None).None? ==>
          exists e :: e in newborn && AsksFor(turns[k], responses(k), e) && (e.time <= now ==> e in again))
    && (forall e :: e in again ==> exists k :: 0 <= k < n && AsksFor(turns[k], responses(k), e))
  }

  /** A positive return value is honoured, unless the same call left the alarm registered, which aborts. */
  ghost predicate PutBack(turns: seq<Entry>, responses: nat -> Response, newborn: set<Entry>, alarmMap: seq<Entry>,
                          cancelled: set<Entry>) {
    forall k :: 0 <= k < |turns| && responses(k).again > 0 && After(responses(k).ops, turns[k].cb, None).None? ==>
      exists e :: e in newborn && AsksFor(turns[k], responses(k), e) && (e in alarmMap || e in cancelled)
  }

  /** Whatever is due is new, and was put there by a return value. */
  ghost predicate DueWasReturned(turns: seq<Entry>, responses: nat -> Response, newborn: set<Entry>,
                                 alarmMap: seq<Entry>, cancelled: set<Entry>, now: int) {
    forall e :: e in alarmMap && e.time <= now ==>
      e in newborn && e !in cancelled && exists k :: 0 <= k < |turns| && AsksFor(turns[k], responses(k), e)
  }

  lemma ExplainTurn(turns: seq<Entry>, n: nat, responses: nat -> Response, newborn: set<Entry>, gone: set<Entry>,
                    again: set<Entry>, now: int, i: Entry, newborn': set<Entry>, gone': set<Entry>)
    requires n == |turns| && Explained(turns, responses, newborn, gone)
    requires Honoured(turns, n, responses, newborn, again, now) && newborn <= newborn'
    requires forall e :: e in newborn' - newborn ==> Set(e.cb, e.time) in responses(n).ops
    requires forall e :: e in gone' - gone ==> Cancel(e.cb) in responses(n).ops
    ensures Explained(turns + [i], responses, newborn', gone')
    ensures Honoured(turns + [i], n, responses, newborn', again, now)
  {
    var longer := turns + [i];
    assert forall k :: 0 <= k < n ==> longer[k] == turns[k];
    forall e | e in newborn'
      ensures exists k :: 0 <= k < |longer| &&
                (AsksFor(longer[k], responses(k), e) || Set(e.cb, e.time) in responses(k).ops)
    {
      if e in newborn {
        var k :| 0 <= k < n && (AsksFor(turns[k], responses(k), e) || Set(e.cb, e.time) in responses(k).ops);
        assert longer[k] == turns[k];
      } else {
        assert longer[n] == i && Set(e.cb, e.time) in responses(n).ops;
      }
    }
    forall e | e in gone' ensures exists k :: 0 <= k < |longer| && Cancel(e.cb) in responses(k).ops {
      if e in gone {
        var k :| 0 <= k < n && Cancel(e.cb) in responses(k).ops;
        assert longer[k] == turns[k];
      } else {
        assert longer[n] == i && Cancel(e.cb) in responses(n).ops;
      }
    }
    forall e | e in again ensures exists k :: 0 <= k < n && AsksFor(longer[k], responses(k), e) {
      var k :| 0 <= k < n && AsksFor(turns[k], responses(k), e);
      assert longer[k] == turns[k];
    }
  }

  /** The elements `s` and the one made, if any was and `wanted` holds. */
  ghost function With(s: set<Entry>, made: Option<Entry>, wanted: bool): set<Entry> {
    if made.Some? && wanted then s + {made.value} else s
  }

  ghost function WithDue(s: set<Entry>, made: Option<Entry>, now: int): set<Entry> {
    With(s, made, made.Some? && made.value.time <= now)
  }

  /** The return value of the last turn is dealt with: by the registration `made`, or by none if it asked for none. */
  lemma HonourTurn(turns: seq<Entry>, n: nat, responses: nat -> Response, newborn: set<Entry>, gone: set<Entry>,
                   again: set<Entry>, now: int, made: Option<Entry>)
    requires |turns| == n + 1 && Explained(turns, responses, newborn, gone)
    requires Honoured(turns, n, responses, newborn, again, now)
    requires made.Some? ==> AsksFor(turns[n], responses(n), made.value)
    requires made.None? ==> responses(n).again <= 0 || After(responses(n).ops, turns[n].cb, None).Some?
    ensures Explained(turns, responses, With(newborn, made, true), gone)
    ensures Honoured(turns, n + 1, responses, With(newborn, made, true), WithDue(again, made, now), now)
  {
    if made.Some? {
      assert made.value in With(newborn, made, true) && AsksFor(turns[n], responses(n), made.value);
    }
    forall k | 0 <= k < n && responses(k).again > 0 && After(responses(k).ops, turns[k].cb, None).None?
      ensures exists e :: e in With(newborn, made, true) && AsksFor(turns[k], responses(k), e) &&
                (e.time <= now ==> e in WithDue(again, made, now))
    {
      var e :| e in newborn && AsksFor(turns[k], responses(k), e) && (e.time <= now ==> e in again);
      assert e in With(newborn, made, true);
    }
  }

  /** Turn by turn, what the callbacks of the walk asked for is what became of the map. */
  ghost predicate Accounted(w: Walk, n: nat, responses: nat -> Response, born: set<Entry>, cancelled: set<Entry>,
                            fired: seq<Entry>, again: set<Entry>, now: int) {
    && w.fired <= fired && |fired| == |w.fired| + n
    && Explained(fired[|w.fired|..], responses, born - w.born, cancelled - w.cancelled)
    && Honoured(fired[|w.fired|..], n, responses, born - w.born, again, now)
  }

  lemma AccountForTurn(w: Walk, n: nat, responses: nat -> Response, born: set<Entry>, cancelled: set<Entry>,
                       fired: seq<Entry>, again: set<Entry>, now: int, i: Entry, born': set<Entry>,
                       cancelled': set<Entry>, made: Option<Entry>)
    requires Accounted(w, n, responses, born, cancelled, fired, again, now)
    requires w.born <= born <= born' && w.cancelled <= cancelled <= cancelled'
    requires forall e :: e in born' && e !in born ==> Set(e.cb, e.time) in responses(n).ops
    requires forall e :: e in cancelled' && e !in cancelled ==> Cancel(e.cb) in responses(n).ops
    requires made.Some? ==> made.value !in born' && AsksFor(i, responses(n), made.value)
    requires made.None? ==> responses(n).again <= 0 || After(responses(n).ops, i.cb, None).Some?
    ensures Accounted(w, n + 1, responses, With(born', made, true), cancelled', fired + [i],
                      WithDue(again, made, now), now)
  {
    var turns := fired[|w.fired|..];
    assert (fired + [i])[|w.fired|..] == turns + [i];
    ExplainTurn(turns, n, responses, born - w.born, cancelled - w.cancelled, again, now, i,
                born' - w.born, cancelled' - w.cancelled);
    HonourTurn(turns + [i], n, responses, born' - w.born, cancelled' - w.cancelled, again, now, made);
    assert With(born', made, true) - w.born == With(born' - w.born, made, true);
  }

  class EpollAlarm {
    var token: Option<Entry>
    var registered: bool

    constructor ()
      ensures !registered && token == None
    {
      token, registered := None, false;
    }
  }

  class EpollServer {
    var alarmMap: seq<Entry>
    var allAlarms: set<EpollAlarm>
    var reregisteredAndSkipped: set<EpollAlarm>
    var recordedNow: int
    var nextToken: nat

    /** Every alarm object there is. */
    ghost const alarms: set<EpollAlarm>
    /** The element whose OnAlarm is on the stack: still in the multimap, but no longer anyone's to erase. */
    ghost var firing: Option<Entry>
    /** All registrations ever made, those unregistered, and those whose OnAlarm was called, in that order. */
    ghost var born: set<Entry>
    ghost var cancelled: set<Entry>
    ghost var fired: seq<Entry>

    /** Registrations waiting for their deadline. */
    ghost predicate Live(e: Entry)
      reads `alarmMap, `firing
    {
      e in alarmMap && firing != Some(e)
    }

    /** Each registration is in exactly one place: waiting, cancelled or fired. */
    ghost predicate Conserved()
      reads `alarmMap, `firing, `born, `cancelled, `fired, `nextToken
    {
      && (forall e :: e in born ==> e.token < nextToken)
      && UniqueTokens(born)
      && (forall e :: e in alarmMap ==> e in born)
      && (forall e :: e in fired ==> e in born)
      && cancelled <= born
      && (forall e :: e in born ==> Live(e) || e in cancelled || e in fired)
      && (forall e :: e in cancelled ==> e !in alarmMap && e !in fired)
      && (forall e :: e in fired ==> !Live(e))
      && (firing.Some? ==> firing.value in alarmMap && firing.value in fired)
    }

    /** The set, the multimap and the alarms' own tokens agree. */
    ghost predicate Indexed()
      reads `alarmMap, `firing, `allAlarms, alarms`token, alarms`registered
    {
      && allAlarms <= alarms
      && (forall e :: e in alarmMap ==> e.cb in alarms)
      && (forall a :: a in alarms ==> (a.registered <==> a in allAlarms))
      && (forall a :: a in allAlarms ==> a.token.Some? && Live(a.token.value) && a.token.value.cb == a)
      && (forall e :: e in alarmMap && firing != Some(e) ==> e.cb in allAlarms && e.cb.token == Some(e))
    }

    ghost predicate Valid()
      reads `alarmMap, `firing, `born, `cancelled, `fired, `nextToken, `allAlarms
      reads alarms`token, alarms`registered
    {
      Sorted(alarmMap) && Conserved() && Indexed()
    }

    constructor (ghost alarms: set<EpollAlarm>)
      requires forall a :: a in alarms ==> !a.registered
      ensures Valid() && this.alarms == alarms && alarmMap == [] && born == {} && firing == None
      ensures reregisteredAndSkipped == {}
    {
      this.alarms := alarms;
      alarmMap, allAlarms, reregisteredAndSkipped, recordedNow, nextToken := [], {}, {}, 0, 0;
      firing, born, cancelled, fired := None, {}, {}, [];
    }

    predicate ContainsAlarm(ac: EpollAlarm)
      reads this
    {
      ac in allAlarms
    }

    /** Puts a new element into the multimap. */
    method InsertEntry(time: int, ac: EpollAlarm) returns (e: Entry)
      requires Sorted(alarmMap) && Conserved()
      modifies `alarmMap, `nextToken, `born
      ensures Sorted(alarmMap) && Conserved()
      ensures e == Entry(time, old(nextToken), ac) && alarmMap == Insert(old(alarmMap), e)
      ensures nextToken == old(nextToken) + 1 && born == old(born) + {e} && e !in old(born)
      ensures e !in old(alarmMap) && firing != Some(e)
    {
      hide Sorted;
      e := Entry(time, nextToken, ac);
      alarmMap := Insert(alarmMap, e);
      nextToken := nextToken + 1;
      born := born + {e};
    }

    /** `ok` is false where the program aborts because the alarm is registered already. */
    method RegisterAlarm(time: int, ac: EpollAlarm) returns (ok: bool)
      requires Valid() && ac in alarms
      modifies `alarmMap, `allAlarms, `nextToken, `born, ac
      ensures Valid() && ok == (ac !in old(allAlarms))
      ensures !ok ==> unchanged(this) && unchanged(ac)
      ensures ok ==> var e := Entry(time, old(nextToken), ac);
                alarmMap == Insert(old(alarmMap), e) && born == old(born) + {e} && e !in old(born) &&
                nextToken == old(nextToken) + 1 && allAlarms == old(allAlarms) + {ac} && ac.token == Some(e)
    {
      hide Sorted, Conserved;
      if ContainsAlarm(ac) {
        return false;
      }
      var e := InsertEntry(time, ac);
      allAlarms := allAlarms + {ac};
      // OnRegistration
      ac.token := Some(e);
      ac.registered := true;
      return true;
    }

    /** The iterator must be live. */
    method UnregisterAlarm(e: Entry)
      requires Valid() && Live(e)
      modifies `alarmMap, `allAlarms, `cancelled, e.cb
      ensures Valid() && alarmMap == Erase(old(alarmMap), e) && cancelled == old(cancelled) + {e}
      ensures allAlarms == old(allAlarms) - {e.cb}
    {
      var cb := e.cb;
      alarmMap := Erase(alarmMap, e);
      allAlarms := allAlarms - {cb};
      cancelled := cancelled + {e};
      // OnUnregistration
      cb.registered := false;
    }

    /** EpollAlarm::UnregisterIfRegistered: the token it passes on is always live. */
    method UnregisterIfRegistered(a: EpollAlarm)
      requires Valid() && a in alarms
      modifies `alarmMap, `allAlarms, `cancelled, a
      ensures Valid() && !a.registered
      ensures if a in old(allAlarms)
              then old(a.token).Some? && old(Live(a.token.value))
                   && alarmMap == Erase(old(alarmMap), old(a.token).value)
                   && cancelled == old(cancelled) + {old(a.token).value} && allAlarms == old(allAlarms) - {a}
              else unchanged(this) && unchanged(a)
    {
      if !a.registered {
        return;
      }
      UnregisterAlarm(a.token.value);
    }

    /** The deadlines that alarms are registered for. */
    ghost function Deadlines(): map<EpollAlarm, int>
      reads `allAlarms, alarms`token
    {
      map a | a in allAlarms && a in alarms && a.token.Some? :: a.token.value.time
    }

    ghost function Now(): Records
      reads this, alarms`token
    {
      Records(Deadlines(), (set e | e in alarmMap && firing != Some(e)), born, cancelled, nextToken)
    }

    /** What OnAlarm of `i` finds. */
    ghost function NowWithout(i: Entry): Records
      reads this, alarms`token
    {
      Now().(deadlines := Deadlines() - {i.cb}, live := Now().live - {i})
    }

    // ---------- one call of OnAlarm ----------

    method PerformSet(a: EpollAlarm, time: int) returns (ok: bool)
      requires Valid() && a in alarms
      modifies `alarmMap, `allAlarms, `nextToken, `born, a
      ensures Valid() && Does(Set(a, time), old(Now()), Now())
      ensures born == if ok then old(born) + {Entry(time, old(nextToken), a)} else old(born)
      ensures Entry(time, old(nextToken), a) !in old(born) && ok == (a !in old(allAlarms))
      ensures ok ==> a.token == Some(Entry(time, old(nextToken), a)) && alarmMap == Insert(old(alarmMap), a.token.value)
      ensures !ok ==> unchanged(this) && unchanged(a)
    {
      hide Sorted, Conserved, Insert;
      Remembers(a);
      TokensAreOld();
      ok := RegisterAlarm(time, a);
      if ok {
        ghost var e := Entry(time, old(nextToken), a);
        assert Deadlines() == old(Deadlines())[a := time];
        assert Now().live == old(Now().live) + {e};
      }
    }

    lemma TokensAreOld()
      requires Valid()
      ensures forall e :: e in born ==> e.token < nextToken
    {
    }

    method PerformCancel(a: EpollAlarm)
      requires Valid() && a in alarms
      modifies `alarmMap, `allAlarms, `cancelled, a
      ensures Valid() && Does(Cancel(a), old(Now()), Now()) && !a.registered
      ensures if a in old(allAlarms)
              then old(a.token).Some? && old(Live(a.token.value))
                   && alarmMap == Erase(old(alarmMap), old(a.token).value)
              else unchanged(this) && unchanged(a)
    {
      hide Sorted, Conserved, Erase;
      CancelledIsLive(a);
      Remembers(a);
      UnregisterIfRegistered(a);
      assert Deadlines() == old(Deadlines()) - {a};
    }

    /** A call from inside OnAlarm. Registrations that are due at once draw on `budget`; `left` remains of it. */
    method Perform(op: AlarmOp, ghost budget: nat) returns (ghost left: nat)
      requires Valid() && op.alarm in alarms && (op.Set? && op.time <= recordedNow ==> budget > 0)
      modifies `alarmMap, `allAlarms, `nextToken, `born, `cancelled, op.alarm
      ensures Valid() && Does(op, old(Now()), Now())
      ensures left + |Due(born, recordedNow)| == budget + |Due(old(born), recordedNow)|
      ensures left >= budget - (if op.Set? && op.time <= recordedNow then 1 else 0)
    {
      hide Valid, Conserved, Indexed, Does, Now;
      left := budget;
      match op {
        case Set(a, time) =>
          var ok := PerformSet(a, time);
          if ok && time <= recordedNow {
            left := left - 1;
            assert Due(born, recordedNow) == Due(old(born), recordedNow) + {Entry(time, old(nextToken), a)};
          } else {
            assert Due(born, recordedNow) == Due(old(born), recordedNow);
          }
        case Cancel(a) =>
          PerformCancel(a);
      }
    }

    lemma CancelledIsLive(a: EpollAlarm)
      requires Valid()
      ensures (set e | e in Now().live && e.cb == a) ==
              if a in allAlarms && a.token.Some? then {a.token.value} else {}
    {
    }

    method PerformAll(ops: seq<AlarmOp>, ghost budget: nat) returns (ghost left: nat)
      requires Valid() && (forall op :: op in ops ==> op.alarm in alarms) && DueSets(ops, recordedNow) <= budget
      modifies `alarmMap, `allAlarms, `nextToken, `born, `cancelled, alarms
      ensures Valid() && Did(ops, alarms, old(Now()), Now())
      ensures left + |Due(born, recordedNow)| == budget + |Due(old(born), recordedNow)|
      ensures left >= budget - DueSets(ops, recordedNow)
    {
      hide Valid, Now, Does, Did;
      left := budget;
      var k := 0;
      DidNothing(alarms, Now());
      while k < |ops|
        invariant 0 <= k <= |ops| && Valid() && Did(ops[..k], alarms, old(Now()), Now())
        invariant left + |Due(born, recordedNow)| == budget + |Due(old(born), recordedNow)|
        invariant left >= budget - DueSets(ops, recordedNow) + DueSets(ops[k..], recordedNow)
      {
        assert ops[..k + 1] == ops[..k] + [ops[k]] && ops[k..][1..] == ops[k + 1..] && ops[k] in ops;
        ghost var s := Now();
        left := Perform(ops[k], left);
        DidMore(ops[..k], ops[k], alarms, old(Now()), s, Now());
        k := k + 1;
      }
      assert ops[..k] == ops;
    }

    /** OnAlarm of a waiting element: the alarm forgets its token before anything else can happen. */
    method Fire(i: Entry, ops: seq<AlarmOp>, ghost budget: nat) returns (ghost left: nat)
      requires Valid() && firing == None && Live(i) && forall op :: op in ops ==> op.alarm in alarms
      requires DueSets(ops, recordedNow) <= budget
      modifies `alarmMap, `allAlarms, `nextToken, `born, `cancelled, `firing, `fired, alarms
      ensures Valid() && Did(ops, alarms, old(NowWithout(i)), Now())
      ensures firing == Some(i) && fired == old(fired) + [i] && i.cb in alarms
      ensures i.cb in allAlarms <==> After(ops, i.cb, None).Some?
      ensures left + |Due(born, recordedNow)| == budget + |Due(old(born), recordedNow)|
      ensures left >= budget - DueSets(ops, recordedNow)
    {
      Forget(i);
      hide Valid, Did, Now;
      left := PerformAll(ops, budget);
      Remembers(i.cb);
      assert Look(Deadlines(), i.cb) == After(ops, i.cb, None) by {
        DidToOne(ops, alarms, old(NowWithout(i)), Now(), i.cb);
      }
    }

    /** EpollAlarm::OnAlarm and the server's part before it. */
    method Forget(i: Entry)
      requires Valid() && firing == None && Live(i)
      modifies `allAlarms, `firing, `fired, i.cb
      ensures Valid() && Now() == old(NowWithout(i)) && i.cb in alarms
      ensures firing == Some(i) && fired == old(fired) + [i]
    {
      hide Sorted, UniqueTokens;
      allAlarms := allAlarms - {i.cb};
      firing, fired := Some(i), fired + [i];
      i.cb.registered := false;
      assert Deadlines() == old(Deadlines()) - {i.cb};
      assert Now().live == old(Now().live) - {i};
    }

    lemma Remembers(a: EpollAlarm)
      requires Valid() && a in alarms
      ensures a in allAlarms <==> Look(Deadlines(), a).Some?
      ensures Now().deadlines == Deadlines()
    {
    }

    /** The dead element goes once OnAlarm has returned. */
    method Retire(i: Entry)
      requires Valid() && firing == Some(i)
      modifies `alarmMap, `firing
      ensures Valid() && firing == None && alarmMap == Erase(old(alarmMap), i)
    {
      alarmMap := Erase(alarmMap, i);
      firing := None;
    }

    // ---------- the walk ----------

    /** Everything fired in the walk so far was due and lies behind the iterator `it`, in the multimap's order. */
    ghost predicate Position(w: Walk, it: Option<Entry>)
      reads `alarmMap, `firing, `fired, `recordedNow
    {
      && (it.Some? ==> Live(it.value))
      && w.fired <= fired
      && Sorted(fired[|w.fired|..])
      && (forall e :: e in fired[|w.fired|..] ==>
            e.time <= recordedNow && e !in w.fired && (it.Some? ==> Before(e, it.value)))
    }

    /** Each due registration of the start of the walk has been dealt with or lies ahead, not to be skipped. */
    ghost predicate Settled(w: Walk, it: Option<Entry>)
      reads this
    {
      forall e :: e in w.waiting && e.time <= recordedNow ==>
        e in fired || e in cancelled ||
        (Live(e) && it.Some? && !Before(e, it.value) && e.cb !in reregisteredAndSkipped)
    }

    ghost predicate Walking(w: Walk, it: Option<Entry>, again: set<Entry>, left: nat)
      reads this, alarms
    {
      && Valid() && firing == None && Position(w, it) && Settled(w, it)
      && Newcomers(w, born, cancelled, fired, nextToken, reregisteredAndSkipped, recordedNow, again, left)
    }

    ghost function Measure(it: Option<Entry>, left: nat): nat
      reads this
    {
      left + |Unskipped(DueAhead(alarmMap, it, recordedNow), reregisteredAndSkipped)|
    }

    /** The iterator passes an element that a return value put into the multimap in this walk. */
    method SkipNext(i: Entry, ghost w: Walk, ghost again: set<Entry>, ghost left: nat) returns (it: Option<Entry>)
      requires Walking(w, Some(i), again, left) && i.time <= recordedNow && i.cb in reregisteredAndSkipped
      ensures Walking(w, it, again, left)
      ensures Measure(it, left) <= Measure(Some(i), left)
      ensures |DueAhead(alarmMap, it, recordedNow)| < |DueAhead(alarmMap, Some(i), recordedNow)|
    {
      it := Next(alarmMap, i);
      ghost var d, d' := DueAhead(alarmMap, Some(i), recordedNow), DueAhead(alarmMap, it, recordedNow);
      assert i in d && d' <= d - {i};
      CardinalityOfSubset(d', d - {i});
      CardinalityOfSubset(Unskipped(d', reregisteredAndSkipped), Unskipped(d, reregisteredAndSkipped));
    }

    /** The same as `Walking` while the element `i` is dead but still in the multimap. */
    ghost predicate Called(w: Walk, i: Entry, again: set<Entry>, left: nat)
      reads this, alarms
    {
      && Valid() && firing == Some(i)
      && Newcomers(w, born, cancelled, fired, nextToken, reregisteredAndSkipped, recordedNow, again, left)
      && w.fired <= fired && Sorted(fired[|w.fired|..])
      && (forall e :: e in fired[|w.fired|..] ==> e.time <= recordedNow && e !in w.fired && (e == i || Before(e, i)))
      && (forall e :: e in w.waiting && Live(e) ==> e.cb != i.cb)
      && (forall e :: e in w.waiting && e.time <= recordedNow ==>
            e in fired || e in cancelled || (Live(e) && Before(i, e) && e.cb !in reregisteredAndSkipped))
    }

    ghost function AheadOf(i: Entry): set<Entry>
      reads this
    {
      set e | e in alarmMap && Before(i, e) && e.time <= recordedNow && e.cb !in reregisteredAndSkipped
    }

    lemma OneEach(i: Entry)
      requires Indexed() && Live(i)
      ensures i.cb in alarms && forall e :: e in alarmMap && Live(e) && e != i ==> e.cb != i.cb
    {
    }

    lemma AgainIsSkipped(w: Walk, skip: set<EpollAlarm>, again: set<Entry>, left: nat)
      requires Conserved()
      requires Newcomers(w, born, cancelled, fired, nextToken, skip, recordedNow, again, left)
      ensures forall e :: e in born ==> e.token < nextToken
      ensures forall e :: e in fired ==> e in born
      ensures forall e :: e in again ==> e !in fired && e.cb in skip
      ensures forall e :: e in w.waiting ==> e in born
    {
    }

    method FireNext(i: Entry, ops: seq<AlarmOp>, ghost w: Walk, ghost again: set<Entry>, ghost budget: nat)
      returns (ghost left: nat)
      requires Walking(w, Some(i), again, budget) && i.time <= recordedNow && i.cb !in reregisteredAndSkipped
      requires (forall op :: op in ops ==> op.alarm in alarms) && DueSets(ops, recordedNow) <= budget
      modifies `alarmMap, `allAlarms, `nextToken, `born, `cancelled, `firing, `fired, alarms
      ensures Called(w, i, again, left) && fired == old(fired) + [i] && i.cb in alarms
      ensures Did(ops, alarms, old(NowWithout(i)), Now())
      ensures i.cb in allAlarms <==> After(ops, i.cb, None).Some?
      ensures left + |AheadOf(i)| < old(Measure(Some(i), budget)) && left >= budget - DueSets(ops, recordedNow)
    {
      hide Sorted, Indexed, UniqueTokens, Newcomers;
      ghost var b, c, f, n := born, cancelled, fired, nextToken;
      AgainIsSkipped(w, reregisteredAndSkipped, again, budget);
      Comparable(born, i);
      OneEach(i);
      SortedSnoc(fired[|w.fired|..], i);
      assert (fired + [i])[|w.fired|..] == fired[|w.fired|..] + [i];
      ghost var d := Due(born, recordedNow);
      ghost var u := Unskipped(DueAhead(alarmMap, Some(i), recordedNow), reregisteredAndSkipped);
      left := Fire(i, ops, budget);
      ghost var d', u' := Due(born, recordedNow), AheadOf(i);
      assert i in u && d <= d' && u' <= (u - {i}) + (d' - d);
      FiringPaysForItself(u, u', i, d, d');
      NewcomersStay(w, b, c, f, n, reregisteredAndSkipped, recordedNow, again, budget,
                    born, cancelled, fired, nextToken, reregisteredAndSkipped, left);
    }

    /** The iterator moves on and the dead element goes. */
    method Advance(i: Entry, ghost w: Walk, ghost again: set<Entry>, ghost left: nat) returns (it: Option<Entry>)
      requires Called(w, i, again, left)
      modifies `alarmMap, `firing
      ensures Walking(w, it, again, left) && Measure(it, left) <= old(left + |AheadOf(i)|)
      ensures forall e :: e in w.waiting && Live(e) ==> e.cb != i.cb
    {
      hide Sorted, Indexed, UniqueTokens, Newcomers;
      it := Next(alarmMap, i);
      ghost var u := AheadOf(i);
      Retire(i);
      CardinalityOfSubset(Unskipped(DueAhead(alarmMap, it, recordedNow), reregisteredAndSkipped), u);
    }

    method MarkSkipped(cb: EpollAlarm, ghost w: Walk, ghost it: Option<Entry>, ghost again: set<Entry>, ghost left: nat)
      requires Walking(w, it, again, left) && forall e :: e in w.waiting && Live(e) ==> e.cb != cb
      modifies `reregisteredAndSkipped
      ensures Walking(w, it, again, left) && Measure(it, left) <= old(Measure(it, left))
      ensures cb in reregisteredAndSkipped
    {
      hide Sorted, Conserved, Indexed, Position, Newcomers;
      ghost var skip := reregisteredAndSkipped;
      reregisteredAndSkipped := reregisteredAndSkipped + {cb};
      ghost var d := DueAhead(alarmMap, it, recordedNow);
      CardinalityOfSubset(Unskipped(d, reregisteredAndSkipped), Unskipped(d, skip));
      AgainIsSkipped(w, skip, again, left);
      NewcomersStay(w, born, cancelled, fired, nextToken, skip, recordedNow, again, left,
                    born, cancelled, fired, nextToken, reregisteredAndSkipped, left);
    }

    /** Registers an alarm again for the positive time its OnAlarm returned; `made` is the new registration, if any. */
    method Reregister(cb: EpollAlarm, newTimeout: int, ghost w: Walk, ghost it: Option<Entry>, ghost again: set<Entry>,
                      ghost left: nat) returns (ok: bool, ghost made: Option<Entry>)
      requires Walking(w, it, again, left) && cb in alarms
      requires newTimeout <= recordedNow ==> cb in reregisteredAndSkipped
      modifies `alarmMap, `allAlarms, `nextToken, `born, cb
      ensures Walking(w, it, WithDue(again, made, recordedNow), left) && Measure(it, left) <= old(Measure(it, left))
      ensures ok == (cb !in old(allAlarms)) && made == if ok then Some(Entry(newTimeout, old(nextToken), cb)) else None
      ensures born == With(old(born), made, true) && (ok ==> made.value !in old(born))
      ensures alarmMap == if ok then Insert(old(alarmMap), made.value) else old(alarmMap)
      ensures Deadlines() == if ok then old(Deadlines())[cb := newTimeout] else old(Deadlines())
    {
      hide Sorted, Conserved, Indexed, Newcomers;
      ghost var u := Unskipped(DueAhead(alarmMap, it, recordedNow), reregisteredAndSkipped);
      ghost var e := Entry(newTimeout, nextToken, cb);
      AgainIsSkipped(w, reregisteredAndSkipped, again, left);
      AddNewcomer(w, born, cancelled, fired, nextToken, reregisteredAndSkipped, recordedNow, again, left, e);
      ok := RegisterAlarm(newTimeout, cb);
      made := if ok then Some(e) else None;
      CardinalityOfSubset(Unskipped(DueAhead(alarmMap, it, recordedNow), reregisteredAndSkipped), u);
    }

    /** What the loop does once OnAlarm of `i` has returned `newTimeout`. */
    method AfterOnAlarm(i: Entry, newTimeout: int, ghost w: Walk, ghost again: set<Entry>, ghost left: nat)
      returns (it: Option<Entry>, ghost made: Option<Entry>)
      requires Called(w, i, again, left) && i.cb in alarms
      modifies `alarmMap, `allAlarms, `reregisteredAndSkipped, `nextToken, `born, `firing, i.cb
      ensures Walking(w, it, WithDue(again, made, recordedNow), left)
      ensures Measure(it, left) <= old(left + |AheadOf(i)|)
      ensures born == With(old(born), made, true)
      ensures made.Some? ==> newTimeout > 0 && made.value.cb == i.cb && made.value.time == newTimeout
      ensures made.Some? ==> made.value !in old(born)
      ensures made.Some? <==> newTimeout > 0 && i.cb !in old(allAlarms)
      ensures Deadlines() == if made.Some? then old(Deadlines())[i.cb := newTimeout] else old(Deadlines())
    {
      hide Valid, Sorted, Position, Settled, Newcomers, Called, Walking;
      it := Advance(i, w, again, left);
      made := None;
      if newTimeout > 0 {
        if newTimeout <= recordedNow {
          MarkSkipped(i.cb, w, it, again, left);
        }
        var ok;
        ok, made := Reregister(i.cb, newTimeout, w, it, again, left);
      }
    }

    /** The body of the loop where the alarm at the iterator fires. */
    method Turn(i: Entry, responses: nat -> Response, k: nat, ghost w: Walk, ghost again: set<Entry>, ghost budget: nat)
      returns (it: Option<Entry>, ghost left: nat, ghost again': set<Entry>)
      requires Walking(w, Some(i), again, budget) && i.time <= recordedNow && i.cb !in reregisteredAndSkipped
      requires Accounted(w, k, responses, born, cancelled, fired, again, recordedNow) && Obeying(w, responses)
      requires forall op :: op in responses(k).ops ==> op.alarm in alarms
      requires DueSets(responses(k).ops, recordedNow) <= budget
      modifies `alarmMap, `allAlarms, `reregisteredAndSkipped, `nextToken, `born, `cancelled, `firing, `fired, alarms
      ensures Walking(w, it, again', left)
      ensures Accounted(w, k + 1, responses, born, cancelled, fired, again', recordedNow) && Obeying(w, responses)
      ensures Measure(it, left) < old(Measure(Some(i), budget))
      ensures left >= budget - DueSets(responses(k).ops, recordedNow)
    {
      hide Valid, Sorted, Position, Settled, Newcomers, Accounted, Obeyed, After, SetsMade, Walking, Called, Deadlines,
        Did;
      WalkStarted(w, Some(i), again, budget);
      StillWaiting(w, Some(i), again, budget);
      TurnsSoFar(w, k, responses, again);
      ghost var turns, d := fired[|w.fired|..], Deadlines();
      left := FireNext(i, responses(k).ops, w, again, budget);
      ghost var b, d' := born, Deadlines();
      assert (fired)[|w.fired|..] == turns + [i];
      DidFacts(responses(k).ops, alarms, old(NowWithout(i)), Now());
      ghost var made;
      it, made := AfterOnAlarm(i, responses(k).again, w, again, left);
      again' := WithDue(again, made, recordedNow);
      AccountForTurn(w, k, responses, old(born), old(cancelled), old(fired), again, recordedNow, i, b, cancelled, made);
      ObeyFiring(turns, responses, alarms, w, d, old(born), old(cancelled), i, d', b, cancelled, made, Deadlines());
    }

    lemma TurnsSoFar(w: Walk, k: nat, responses: nat -> Response, again: set<Entry>)
      requires Accounted(w, k, responses, born, cancelled, fired, again, recordedNow)
      ensures w.fired <= fired && |fired[|w.fired|..]| == k
    {
    }

    /** What waited at the start of the walk and has not fired since is waiting still, or cancelled. */
    lemma StillWaiting(w: Walk, it: Option<Entry>, again: set<Entry>, left: nat)
      requires Walking(w, it, again, left)
      ensures w.fired <= fired
      ensures forall e :: e in w.waiting && e !in fired[|w.fired|..] ==> Live(e) || e in cancelled
    {
      assert forall e :: e in fired ==> e in w.fired || e in fired[|w.fired|..];
    }

    /** The calls and return values of the walk so far had their effect. */
    ghost predicate Obeying(w: Walk, responses: nat -> Response)
      reads this, alarms`token
    {
      && w.fired <= fired
      && Obeyed(fired[|w.fired|..], responses, alarms, w, Deadlines(), born - w.born, cancelled)
    }

    lemma WalkStarted(w: Walk, it: Option<Entry>, again: set<Entry>, left: nat)
      requires Walking(w, it, again, left)
      ensures w.born <= born && w.cancelled <= cancelled && w.fired <= fired
    {
    }

    lemma EmptyWalk(w: Walk, it: Option<Entry>, responses: nat -> Response)
      requires Valid() && firing == None && reregisteredAndSkipped == {} && it == Begin(alarmMap)
      requires w == Walk(alarmMap, born, cancelled, fired, nextToken, Deadlines(), w.budget)
      ensures Walking(w, it, {}, w.budget)
      ensures Accounted(w, 0, responses, born, cancelled, fired, {}, recordedNow) && Obeying(w, responses)
    {
      assert fired[|fired|..] == [];
    }

    /** What has been dealt with once nothing due is left at or after the iterator. */
    lemma WalkDone(w: Walk, it: Option<Entry>, again: set<Entry>, left: nat)
      requires Walking(w, it, again, left) && (it.Some? ==> it.value.time > recordedNow)
      ensures w.born <= born && w.cancelled <= cancelled && w.fired <= fired && Sorted(fired[|w.fired|..])
      ensures forall e :: e in fired[|w.fired|..] ==> e.time <= recordedNow && e !in w.fired
      ensures forall e :: e in w.waiting && e.time <= recordedNow ==> e in fired || e in cancelled
      ensures forall e :: e in w.waiting && e.time > recordedNow ==> e in alarmMap || e in cancelled
      ensures forall e :: e in alarmMap && e.time <= recordedNow ==> e.token >= w.nextToken
      ensures forall e :: e in born - w.born && (e.time <= recordedNow ==> e in again) ==>
                e in alarmMap || e in cancelled
      ensures w.budget == 0 ==> forall e :: e in alarmMap && e.time <= recordedNow ==> e in again
      ensures w.budget == 0 ==> forall e :: e in fired[|w.fired|..] ==> e in w.waiting
      ensures forall e :: e in alarmMap ==> e !in cancelled
      ensures forall e :: e in again ==> e in born - w.born
    {
      assert forall e :: e in fired ==> e in w.fired || e in fired[|w.fired|..];
      if w.budget == 0 {
        NewAndDue(w, born, cancelled, fired, nextToken, reregisteredAndSkipped, recordedNow, again, left);
      }
    }

    lemma ReturnsDone(w: Walk, it: Option<Entry>, again: set<Entry>, left: nat, turns: nat, responses: nat -> Response)
      requires Walking(w, it, again, left) && (it.Some? ==> it.value.time > recordedNow)
      requires Accounted(w, turns, responses, born, cancelled, fired, again, recordedNow)
      ensures Explained(fired[|w.fired|..], responses, born - w.born, cancelled - w.cancelled)
      ensures PutBack(fired[|w.fired|..], responses, born - w.born, alarmMap, cancelled)
      ensures w.budget == 0 ==>
                DueWasReturned(fired[|w.fired|..], responses, born - w.born, alarmMap, cancelled, recordedNow)
    {
      hide Walking, Sorted, After;
      WalkDone(w, it, again, left);
      var turns := fired[|w.fired|..];
      forall k | 0 <= k < |turns| && responses(k).again > 0 && After(responses(k).ops, turns[k].cb, None).None?
        ensures exists e :: e in born - w.born && AsksFor(turns[k], responses(k), e) &&
                  (e in alarmMap || e in cancelled)
      {
        var e :| e in born - w.born && AsksFor(turns[k], responses(k), e) && (e.time <= recordedNow ==> e in again);
      }
    }

    lemma CallsDone(w: Walk, it: Option<Entry>, again: set<Entry>, left: nat, responses: nat -> Response)
      requires Walking(w, it, again, left) && Obeying(w, responses)
      ensures w.fired <= fired
      ensures AllDeadlinesSet(fired[|w.fired|..], responses, alarms, w.deadlines, Deadlines())
      ensures AllSetsMade(fired[|w.fired|..], responses, w.deadlines, born - w.born)
      ensures AllCancelsMade(fired[|w.fired|..], responses, w.waiting, cancelled)
      ensures forall e :: e in cancelled ==> e !in fired
    {
      hide AllDeadlinesSet, AllSetsMade, Deadlines, Sorted, Indexed, Newcomers, Position, Settled, UniqueTokens;
    }

    /**
     One round of alarms at `recordedNow`. Call `k` of OnAlarm behaves as `responses(k)`. From call `horizon` on, no
     OnAlarm asks by a call for a registration that is due at once; earlier ones may ask for any number.
     */
    method CallAndReregisterAlarmEvents(responses: nat -> Response, ghost horizon: nat)
      requires Valid() && firing == None && reregisteredAndSkipped == {}
      requires forall k, op :: op in responses(k).ops ==> op.alarm in alarms
      requires forall k :: k >= horizon ==> DueSets(responses(k).ops, recordedNow) == 0
      modifies `alarmMap, `allAlarms, `reregisteredAndSkipped, `nextToken, `born, `cancelled, `firing, `fired, alarms
      ensures Valid() && firing == None && reregisteredAndSkipped == {}
      ensures old(born) <= born && old(cancelled) <= cancelled && old(fired) <= fired
      // Only due alarms fire, in order of deadline and then of registration, none twice.
      ensures Sorted(fired[|old(fired)|..])
      ensures forall e :: e in fired[|old(fired)|..] ==> e.time <= recordedNow && e !in old(fired)
      // Every alarm due at the start fires unless it was unregistered first; the others wait on.
      ensures forall e :: e in old(alarmMap) && e.time <= recordedNow ==> e in fired || e in cancelled
      ensures forall e :: e in old(alarmMap) && e.time > recordedNow ==> e in alarmMap || e in cancelled
      // What is new was asked for by a callback, and what is newly unregistered was unregistered by one.
      ensures Explained(fired[|old(fired)|..], responses, born - old(born), cancelled - old(cancelled))
      // Every call of a callback takes effect: on deadlines, on what it cancels before its turn, on what it registers.
      ensures AllDeadlinesSet(fired[|old(fired)|..], responses, alarms, old(Deadlines()), Deadlines())
      ensures AllCancelsMade(fired[|old(fired)|..], responses, old(alarmMap), cancelled)
      ensures forall e :: e in cancelled ==> e !in fired
      ensures AllSetsMade(fired[|old(fired)|..], responses, old(Deadlines()), born - old(born))
      // A positive return value is honoured, unless the same call left the alarm registered, which aborts.
      ensures PutBack(fired[|old(fired)|..], responses, born - old(born), alarmMap, cancelled)
      // What is due at the end was registered in this round.
      ensures forall e :: e in alarmMap && e.time <= recordedNow ==> e.token >= old(nextToken)
      // If callbacks register later alarms only, nothing else fires, and what is due at the end was returned.
      ensures horizon == 0 ==> forall e :: e in fired[|old(fired)|..] ==> e in old(alarmMap)
      ensures horizon == 0 ==> DueWasReturned(fired[|old(fired)|..], responses, born - old(born), alarmMap, cancelled,
                                              recordedNow)
    {
      hide Valid, Sorted, Position, Settled, Newcomers, Accounted, Obeying, PutBack, DueWasReturned, AllSetsMade,
        AllDeadlinesSet, AllCancelsMade, Explained, After, DueSets;
      ghost var budget := DueSetsFrom(responses, recordedNow, 0, horizon);
      ghost var w := Walk(alarmMap, born, cancelled, fired, nextToken, Deadlines(), budget);
      ghost var left: nat := budget;
      ghost var again: set<Entry> := {};
      var k := 0;
      var it := Begin(alarmMap);
      EmptyWalk(w, it, responses);
      while it.Some? && it.value.time <= recordedNow
        invariant Walking(w, it, again, left)
        invariant Accounted(w, k, responses, born, cancelled, fired, again, recordedNow) && Obeying(w, responses)
        invariant left >= DueSetsFrom(responses, recordedNow, k, horizon)
        decreases Measure(it, left), |DueAhead(alarmMap, it, recordedNow)|
      {
        var i := it.value;
        if i.cb in reregisteredAndSkipped {
          it := SkipNext(i, w, again, left);
          continue;
        }
        it, left, again := Turn(i, responses, k, w, again, left);
        k := k + 1;
      }
      WalkDone(w, it, again, left);
      ReturnsDone(w, it, again, left, k, responses);
      CallsDone(w, it, again, left, responses);
      reregisteredAndSkipped := {};
    }
  }

  /**
   The alarm that connections use: an `EpollAlarm` that never returns a time but registers itself again by a call.
   `deadline` is that of the base class, which keeps it none while the alarm is not set.
   */
  class QuicEpollAlarm {
    const epollServer: EpollServer
    const impl: EpollAlarm
    var deadline: Option<int>

    /** The alarm is set exactly if the server holds a live registration of it, for the same time. */
    ghost predicate Valid()
      reads this, impl, epollServer, epollServer.alarms
    {
      && epollServer.Valid() && impl in epollServer.alarms
      && (deadline.Some? <==> impl.registered)
      && (deadline.Some? ==> impl.token.Some? && impl.token.value.time == deadline.value)
    }

    constructor (epollServer: EpollServer, impl: EpollAlarm)
      requires epollServer.Valid() && impl in epollServer.alarms && !impl.registered
      ensures Valid() && deadline == None && this.epollServer == epollServer && this.impl == impl
    {
      this.epollServer, this.impl, deadline := epollServer, impl, None;
    }

    method SetImpl(time: int)
      requires Valid() && deadline == None
      modifies this, impl, epollServer`alarmMap, epollServer`allAlarms, epollServer`nextToken, epollServer`born
      ensures Valid() && deadline == Some(time)
      ensures impl.token.Some? && impl.token.value == Entry(time, old(epollServer.nextToken), impl)
      ensures impl.token.value !in old(epollServer.born) && epollServer.Live(impl.token.value)
      ensures epollServer.alarmMap == Insert(old(epollServer.alarmMap), impl.token.value)
      ensures Does(Set(impl, time), old(epollServer.Now()), epollServer.Now())
    {
      hide Sorted, UniqueTokens, Does;
      var ok := epollServer.PerformSet(impl, time);
      deadline := Some(time);
    }

    method CancelImpl()
      requires Valid()
      modifies this, impl, epollServer`alarmMap, epollServer`allAlarms, epollServer`cancelled
      ensures Valid() && deadline == None
      ensures if old(deadline).Some?
              then old(epollServer.Live(impl.token.value)) &&
                   epollServer.alarmMap == Erase(old(epollServer.alarmMap), old(impl.token).value)
              else epollServer.alarmMap == old(epollServer.alarmMap)
      ensures Does(Cancel(impl), old(epollServer.Now()), epollServer.Now())
    {
      hide Sorted, UniqueTokens, Does;
      epollServer.PerformCancel(impl);
      deadline := None;
    }

    lemma DeadlineIsTheServers()
      requires Valid()
      ensures deadline == Look(epollServer.Deadlines(), impl) && epollServer.Now().deadlines == epollServer.Deadlines()
      ensures deadline.Some? ==> impl.token.Some? && epollServer.Live(impl.token.value)
    {
    }

    /** A call of the delegate, for this alarm or another. The base class refuses to set an alarm that is set. */
    method Perform(op: AlarmOp)
      requires Valid() && op.alarm in epollServer.alarms
      modifies this, epollServer`alarmMap, epollServer`allAlarms, epollServer`nextToken, epollServer`born
      modifies epollServer`cancelled, op.alarm
      ensures Valid() && Does(op, old(epollServer.Now()), epollServer.Now())
      ensures deadline.Some? ==>
                impl.token.Some? &&
                ((old(deadline).Some? && impl.token == old(impl.token)) || impl.token.value !in old(epollServer.born))
    {
      if op.Set? && op.alarm == impl && deadline.Some? {
        SetIsRefused(op.time);
      } else if op.alarm == impl {
        match op {
          case Set(_, time) => SetImpl(time);
          case Cancel(_) => CancelImpl();
        }
      } else {
        PerformElsewhere(op);
      }
    }

    lemma SetIsRefused(time: int)
      requires Valid() && deadline.Some?
      ensures Does(Set(impl, time), epollServer.Now(), epollServer.Now())
    {
    }

    method PerformElsewhere(op: AlarmOp)
      requires Valid() && op.alarm in epollServer.alarms && op.alarm != impl
      modifies epollServer`alarmMap, epollServer`allAlarms, epollServer`nextToken, epollServer`born
      modifies epollServer`cancelled, op.alarm
      ensures Valid() && Does(op, old(epollServer.Now()), epollServer.Now())
    {
      hide Sorted, UniqueTokens, Does;
      match op {
        case Set(a, time) => var ok := epollServer.PerformSet(a, time);
        case Cancel(a) => epollServer.PerformCancel(a);
      }
    }

    /**
     OnAlarm of the element `i`, which the server is calling. The delegate makes the calls `ops`, on this alarm and
     others, and asks to be called again at `next`, which counts if it left the alarm unset. To the server this is an
     OnAlarm that makes the calls `AllOps(ops, next)` and returns no time. A registration of this alarm made here is
     never the dead element.
     */
    method OnAlarm(i: Entry, ops: seq<AlarmOp>, next: Option<int>) returns (again: int)
      requires epollServer.Valid() && epollServer.firing == Some(i) && i.cb == impl && impl in epollServer.alarms
      requires !impl.registered && deadline.Some? && forall op :: op in ops ==> op.alarm in epollServer.alarms
      modifies this, epollServer`alarmMap, epollServer`allAlarms, epollServer`nextToken, epollServer`born
      modifies epollServer`cancelled, epollServer.alarms
      ensures Valid() && again == 0 && epollServer.firing == Some(i) && i in epollServer.alarmMap
      ensures Did(AllOps(ops, next), epollServer.alarms, old(epollServer.Now()), epollServer.Now())
      ensures deadline == After(AllOps(ops, next), impl, None)
      ensures deadline.Some? ==>
                impl.token.Some? && epollServer.Live(impl.token.value) && impl.token.value !in old(epollServer.born)
    {
      hide *;
      deadline := None;
      NotSet();
      ghost var s := epollServer.Now();
      PerformAll(ops);
      Left(ops, s);
      SetNext(ops, next, s, old(epollServer.born));
      Left(AllOps(ops, next), s);
      InTheMap();
      again := 0;
    }

    /** What the delegate's answer leads to. */
    method SetNext(ghost ops: seq<AlarmOp>, next: Option<int>, ghost s: Records, ghost b: set<Entry>)
      requires Valid() && Did(ops, epollServer.alarms, s, epollServer.Now()) && deadline == After(ops, impl, None)
      requires b <= epollServer.born && (deadline.Some? ==> impl.token.Some? && impl.token.value !in b)
      modifies this, impl, epollServer`alarmMap, epollServer`allAlarms, epollServer`nextToken, epollServer`born
      ensures Valid() && Did(AllOps(ops, next), epollServer.alarms, s, epollServer.Now())
      ensures deadline.Some? ==> impl.token.Some? && impl.token.value !in b
    {
      hide EpollServer.Valid, Did, After, EpollServer.Now, EpollServer.Deadlines;
      ghost var t := epollServer.Now();
      assert ops + [] == ops;
      if deadline == None && next.Some? {
        SetImpl(next.value);
        DidMore(ops, Set(impl, next.value), epollServer.alarms, s, t, epollServer.Now());
      }
    }

    lemma NotSet()
      requires epollServer.Valid() && impl in epollServer.alarms && !impl.registered && deadline == None
      ensures Valid() && Look(epollServer.Now().deadlines, impl) == None
    {
    }

    method PerformAll(ops: seq<AlarmOp>)
      requires Valid() && deadline == None && forall op :: op in ops ==> op.alarm in epollServer.alarms
      modifies this, epollServer`alarmMap, epollServer`allAlarms, epollServer`nextToken, epollServer`born
      modifies epollServer`cancelled, epollServer.alarms
      ensures Valid() && Did(ops, epollServer.alarms, old(epollServer.Now()), epollServer.Now())
      ensures old(epollServer.born) <= epollServer.born
      ensures deadline.Some? ==> impl.token.Some? && impl.token.value !in old(epollServer.born)
    {
      hide Valid, EpollServer.Valid, Does, Did, EpollServer.Now;
      var k := 0;
      DidNothing(epollServer.alarms, epollServer.Now());
      while k < |ops|
        invariant 0 <= k <= |ops| && Valid() && old(epollServer.born) <= epollServer.born
        invariant Did(ops[..k], epollServer.alarms, old(epollServer.Now()), epollServer.Now())
        invariant deadline.Some? ==> impl.token.Some? && impl.token.value !in old(epollServer.born)
      {
        assert ops[..k + 1] == ops[..k] + [ops[k]] && ops[k] in ops;
        Next(ops[..k], ops[k], old(epollServer.Now()), old(epollServer.born));
        k := k + 1;
      }
      assert ops[..k] == ops;
    }

    /** The calls that the server sees: those of the delegate, and the one that its answer leads to. */
    ghost function AllOps(ops: seq<AlarmOp>, next: Option<int>): seq<AlarmOp> {
      ops + if After(ops, impl, None).None? && next.Some? then [Set(impl, next.value)] else []
    }

    lemma InTheMap()
      requires Valid()
      ensures epollServer.firing.Some? ==> epollServer.firing.value in epollServer.alarmMap
      ensures deadline.Some? ==> impl.token.Some? && epollServer.Live(impl.token.value)
      ensures impl in epollServer.alarms
    {
    }

    lemma Left(ops: seq<AlarmOp>, s: Records)
      requires Valid() && Did(ops, epollServer.alarms, s, epollServer.Now()) && Look(s.deadlines, impl) == None
      ensures deadline == After(ops, impl, None)
    {
      hide After;
      DidToOne(ops, epollServer.alarms, s, epollServer.Now(), impl);
      DeadlineIsTheServers();
    }

    method Next(ghost ops: seq<AlarmOp>, op: AlarmOp, ghost s: Records, ghost b: set<Entry>)
      requires Valid() && op.alarm in epollServer.alarms && Did(ops, epollServer.alarms, s, epollServer.Now())
      requires b <= epollServer.born && (deadline.Some? ==> impl.token.Some? && impl.token.value !in b)
      modifies this, epollServer`alarmMap, epollServer`allAlarms, epollServer`nextToken, epollServer`born
      modifies epollServer`cancelled, op.alarm
      ensures Valid() && Did(ops + [op], epollServer.alarms, s, epollServer.Now()) && b <= epollServer.born
      ensures deadline.Some? ==> impl.token.Some? && impl.token.value !in b
    {
      hide Valid, EpollServer.Valid, Did, After;
      ghost var t := epollServer.Now();
      Perform(op);
      DidMore(ops, op, epollServer.alarms, s, t, epollServer.Now());
    }

    /** The alarm fires: between what the server does before OnAlarm and after it, the alarm is set as it asked. */
    method Expire(ops: seq<AlarmOp>, next: Option<int>)
      requires Valid() && deadline.Some? && epollServer.firing == None
      requires forall op :: op in ops ==> op.alarm in epollServer.alarms
      modifies this, epollServer`alarmMap, epollServer`allAlarms, epollServer`nextToken, epollServer`born
      modifies epollServer`cancelled, epollServer`firing, epollServer`fired, epollServer.alarms
      ensures Valid() && epollServer.firing == None
      ensures old(impl.token).Some? && epollServer.fired == old(epollServer.fired) + [old(impl.token).value]
      ensures old(impl.token).value !in epollServer.alarmMap
      ensures deadline == After(AllOps(ops, next), impl, None)
    {
      hide After, Did, Sorted;
      var i := impl.token.value;
      epollServer.Forget(i);
      var again := OnAlarm(i, ops, next);
      epollServer.Retire(i);
    }
  }

  // ---------- without a limit ----------

  /** One turn of the walk over a map whose first alarm registers itself at `now`, by a call from its OnAlarm. */
  function SelfSetting(m: seq<Entry>, token: nat, now: int): seq<Entry> {
    if m == [] then [] else Erase(Insert(m, Entry(now, token, m[0].cb)), m[0])
  }

  function MapAfter(m: seq<Entry>, token: nat, now: int, n: nat): seq<Entry> {
    if n == 0 then m else SelfSetting(MapAfter(m, token, now, n - 1), token + n - 1, now)
  }

  /** The alarm's element after `n` turns. */
  function Renewed(e: Entry, token: nat, now: int, n: nat): Entry {
    if n == 0 then e else Entry(now, token + n - 1, e.cb)
  }

  /**
   The loop need not end if callbacks register without limit: after any number of turns the alarm is due again, its
   new element is where the iterator goes next, and no return value made it one to skip.
   */
  lemma {:induction false} NeedNotEnd(e: Entry, token: nat, now: int, n: nat)
    requires e.time <= now && e.token < token
    ensures MapAfter([e], token, now, n) == [Renewed(e, token, now, n)]
    ensures var i, x := Renewed(e, token, now, n), Renewed(e, token, now, n + 1);
            x.time <= now && Insert([i], x) == [i, x] && Next([i, x], i) == Some(x)
  {
    hide Insert, Erase, Next, SelfSetting;
    SelfSettingOnce(Renewed(e, token, now, n), token + n, now);
    if n > 0 {
      NeedNotEnd(e, token, now, n - 1);
      SelfSettingOnce(Renewed(e, token, now, n - 1), token + n - 1, now);
    }
  }

  lemma SelfSettingOnce(i: Entry, token: nat, now: int)
    requires i.time <= now && i.token < token
    ensures var x := Entry(now, token, i.cb);
            && Insert([i], x) == [i, x] && Next([i, x], i) == Some(x) && SelfSetting([i], token, now) == [x]
  {
    var x := Entry(now, token, i.cb);
    assert [i][1..] == [] && Insert([], x) == [x];
    assert [i, x][1..] == [x] && [x][1..] == [] && Erase([], i) == [] && Erase([x], i) == [x];
  }
}
