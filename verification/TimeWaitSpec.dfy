/**
 The list of connection ids in time-wait as a value: how ids enter it, are evicted for capacity, expire, and
 count the packets they draw; and the deadline of the alarm that cleans it up.
 */
module TimeWaitSpec {
  import opened Sequences
  import opened Backoff

  type ConnectionId = nat
  type Version = nat
  type Bytes = nat

  /** The flags that size the list. A negative `maxConnections` means no limit. */
  datatype Config = Config(period: int, maxConnections: int)

  datatype Record = Record(id: ConnectionId, numPackets: nat, version: Version, timeAdded: int,
                           closePacket: Option<Bytes>)

  // ---------- the linked hash map, oldest record first ----------

  predicate Has(m: seq<Record>, id: ConnectionId) {
    m != [] && (m[0].id == id || Has(m[1..], id))
  }

  function Get(m: seq<Record>, id: ConnectionId): (r: Record)
    requires Has(m, id)
    ensures r in m && r.id == id
  {
    if m[0].id == id then m[0] else Get(m[1..], id)
  }

  function Remove(m: seq<Record>, id: ConnectionId): (r: seq<Record>)
    ensures |r| == if Has(m, id) then |m| - 1 else |m|
  {
    if m == [] then [] else if m[0].id == id then m[1..] else [m[0]] + Remove(m[1..], id)
  }

  /** Evicts from the front until there is room for one more. */
  function Trim(m: seq<Record>, maxConnections: int): (r: seq<Record>)
    requires maxConnections != 0
    ensures maxConnections > 0 ==> |r| < maxConnections
  {
    if maxConnections < 0 || |m| < maxConnections then m else m[|m| - maxConnections + 1..]
  }

  function Add(cfg: Config, m: seq<Record>, id: ConnectionId, version: Version, closePacket: Option<Bytes>,
               now: int): seq<Record>
    requires cfg.maxConnections != 0
  {
    var numPackets := if Has(m, id) then Get(m, id).numPackets else 0;
    Trim(Remove(m, id), cfg.maxConnections) + [Record(id, numPackets, version, now, closePacket)]
  }

  function Count(m: seq<Record>, id: ConnectionId): (r: seq<Record>)
    ensures |r| == |m|
  {
    if m == [] then []
    else if m[0].id == id then [m[0].(numPackets := m[0].numPackets + 1)] + m[1..]
    else [m[0]] + Count(m[1..], id)
  }

  /** Drops from the front whatever was added by `expiration`. */
  function Expire(m: seq<Record>, expiration: int): (r: seq<Record>)
    ensures |r| <= |m|
  {
    if m == [] || m[0].timeAdded > expiration then m else Expire(m[1..], expiration)
  }

  ghost predicate UniqueIds(m: seq<Record>) {
    m != [] ==> !Has(m[1..], m[0].id) && UniqueIds(m[1..])
  }

  ghost predicate InOrder(m: seq<Record>) {
    forall i, j :: 0 <= i <= j < |m| ==> m[i].timeAdded <= m[j].timeAdded
  }

  // ---------- the list and its clean-up alarm ----------

  /** `clock` is the last time at which anything happened. */
  datatype TimeWait = TimeWait(list: seq<Record>, deadline: int, clock: int)

  ghost predicate Inv(cfg: Config, t: TimeWait) {
    && UniqueIds(t.list) && InOrder(t.list)
    && (cfg.maxConnections > 0 ==> |t.list| <= cfg.maxConnections)
    && (forall r :: r in t.list ==> r.timeAdded <= t.clock && t.deadline <= r.timeAdded + cfg.period)
    && t.deadline <= t.clock + cfg.period
  }

  function Initial(cfg: Config, now: int): TimeWait {
    TimeWait([], now + cfg.period, now)
  }

  function AddId(cfg: Config, t: TimeWait, id: ConnectionId, version: Version, closePacket: Option<Bytes>,
                 now: int): TimeWait
    requires cfg.maxConnections != 0
  {
    t.(list := Add(cfg, t.list, id, version, closePacket, now), clock := now)
  }

  function Receive(t: TimeWait, id: ConnectionId): TimeWait {
    t.(list := Count(t.list, id))
  }

  /** The deadline SetConnectionIdCleanUpAlarm chooses, with its branch for a record that lingered. */
  function NextDeadline(cfg: Config, m: seq<Record>, now: int): int {
    if m == [] then now + cfg.period
    else if now - m[0].timeAdded < cfg.period then now + (m[0].timeAdded + cfg.period - now)
    else now
  }

  predicate Lingers(cfg: Config, m: seq<Record>, now: int) {
    m != [] && now - m[0].timeAdded >= cfg.period
  }

  function CleanUp(cfg: Config, t: TimeWait, now: int): TimeWait {
    var list := Expire(t.list, now - cfg.period);
    TimeWait(list, NextDeadline(cfg, list, now), now)
  }

  /** The list starts empty, in order, with its first clean-up a period away. */
  lemma StartsEmpty(cfg: Config, now: int)
    ensures Inv(cfg, Initial(cfg, now)) && Initial(cfg, now).list == []
    ensures Initial(cfg, now).deadline == now + cfg.period && Initial(cfg, now).clock == now
  {
  }

  // ---------- lemmas on the map ----------

  lemma {:induction false} HasExists(m: seq<Record>, id: ConnectionId)
    ensures Has(m, id) <==> exists r :: r in m && r.id == id
  {
    if m != [] {
      HasExists(m[1..], id);
      if r :| r in m && r.id == id && r != m[0] {
        assert r in m[1..];
      }
    }
  }

  lemma {:induction false} HasConcat(a: seq<Record>, b: seq<Record>, id: ConnectionId)
    ensures Has(a + b, id) <==> Has(a, id) || Has(b, id)
  {
    if a == [] {
      assert a + b == b;
    } else {
      assert (a + b)[1..] == a[1..] + b;
      HasConcat(a[1..], b, id);
    }
  }

  lemma {:induction false} UniqueConcat(a: seq<Record>, b: seq<Record>)
    ensures UniqueIds(a + b) <==> UniqueIds(a) && UniqueIds(b) && forall r :: r in a ==> !Has(b, r.id)
  {
    if a == [] {
      assert a + b == b;
    } else {
      assert (a + b)[1..] == a[1..] + b;
      HasConcat(a[1..], b, a[0].id);
      UniqueConcat(a[1..], b);
    }
  }

  lemma {:induction false} GetIsTheRecord(m: seq<Record>, r: Record)
    requires UniqueIds(m) && r in m
    ensures Has(m, r.id) && Get(m, r.id) == r
  {
    if m[0] != r {
      HasExists(m[1..], m[0].id);
      GetIsTheRecord(m[1..], r);
    }
  }

  lemma {:induction false} RemoveFacts(m: seq<Record>, id: ConnectionId)
    requires UniqueIds(m)
    ensures UniqueIds(Remove(m, id)) && !Has(Remove(m, id), id)
    ensures forall r :: r in Remove(m, id) ==> r in m && r.id != id
    ensures forall r :: r in m && r.id != id ==> r in Remove(m, id)
  {
    if m != [] {
      var rest := m[1..];
      HasExists(rest, id);
      if m[0].id != id {
        RemoveFacts(rest, id);
        HasExists(rest, m[0].id);
        HasExists(Remove(rest, id), m[0].id);
      }
    }
  }

  lemma {:induction false} RemoveKeepsOrder(m: seq<Record>, id: ConnectionId)
    requires UniqueIds(m) && InOrder(m)
    ensures InOrder(Remove(m, id))
  {
    if m != [] && m[0].id != id {
      RemoveKeepsOrder(m[1..], id);
      RemoveFacts(m[1..], id);
      assert forall r :: r in m[1..] ==> m[0].timeAdded <= r.timeAdded;
    }
  }

  /** Expiry removes exactly the records that are old enough. */
  lemma {:induction false} ExpireRemovesTheOld(m: seq<Record>, expiration: int)
    requires UniqueIds(m) && InOrder(m)
    ensures UniqueIds(Expire(m, expiration)) && InOrder(Expire(m, expiration))
    ensures forall r :: r in Expire(m, expiration) <==> r in m && r.timeAdded > expiration
  {
    if m != [] && m[0].timeAdded <= expiration {
      ExpireRemovesTheOld(m[1..], expiration);
    }
  }

  lemma {:induction false} CountFacts(m: seq<Record>, id: ConnectionId)
    requires UniqueIds(m)
    ensures UniqueIds(Count(m, id)) && forall x :: Has(Count(m, id), x) <==> Has(m, x)
    ensures forall i :: 0 <= i < |m| ==>
              Count(m, id)[i] == (if m[i].id == id then m[i].(numPackets := m[i].numPackets + 1) else m[i])
  {
    if m != [] {
      CountFacts(m[1..], id);
      forall i | 0 <= i < |m| ensures Count(m, id)[i] ==
        (if m[i].id == id then m[i].(numPackets := m[i].numPackets + 1) else m[i])
      {
        if m[0].id == id && i > 0 {
          HasExists(m[1..], id);
          assert m[i] in m[1..];
        }
      }
    }
  }

  // ---------- capacity ----------

  /** Trimming evicts the shortest run of oldest records that makes room for one more. */
  lemma TrimEvictsTheShortestPrefix(m: seq<Record>, maxConnections: int)
    requires maxConnections != 0
    ensures var k := |m| - |Trim(m, maxConnections)|;
            && 0 <= k && Trim(m, maxConnections) == m[k..]
            && (maxConnections < 0 ==> k == 0)
            && (maxConnections > 0 ==> |m[k..]| < maxConnections)
            && forall j :: 0 <= j < k ==> |m[j..]| >= maxConnections
  {
  }

  /** One turn of TrimTimeWaitListIfNeeded's loop, and what the list is after `n` turns. */
  function EvictOldest(m: seq<Record>): seq<Record> {
    if m == [] then m else m[1..]
  }

  function AfterTurns(m: seq<Record>, n: nat): seq<Record> {
    if n == 0 then m else EvictOldest(AfterTurns(m, n - 1))
  }

  lemma {:induction false} AfterTurnsIsSuffix(m: seq<Record>, n: nat)
    ensures AfterTurns(m, n) == if n <= |m| then m[n..] else []
  {
    if n > 0 {
      AfterTurnsIsSuffix(m, n - 1);
    }
  }

  /** The loop ends for every list except when the limit is exactly zero, where it ends for none. */
  lemma TrimmingEndsUnlessTheLimitIsZero(m: seq<Record>, maxConnections: int)
    ensures (exists n: nat :: maxConnections < 0 || |AfterTurns(m, n)| < maxConnections) <==> maxConnections != 0
  {
    AfterTurnsIsSuffix(m, |m|);
    assert maxConnections > 0 ==> |AfterTurns(m, |m|)| < maxConnections;
    assert maxConnections < 0 ==> |AfterTurns(m, 0)| <= |m|;
  }

  // ---------- every step keeps the invariant ----------

  lemma TrimFacts(m: seq<Record>, maxConnections: int)
    requires maxConnections != 0 && UniqueIds(m) && InOrder(m)
    ensures UniqueIds(Trim(m, maxConnections)) && InOrder(Trim(m, maxConnections))
    ensures forall r :: r in Trim(m, maxConnections) ==> r in m
  {
    var k := |m| - |Trim(m, maxConnections)|;
    assert m == m[..k] + m[k..];
    UniqueConcat(m[..k], m[k..]);
  }

  lemma AppendFacts(kept: seq<Record>, r: Record)
    requires UniqueIds(kept) && InOrder(kept) && !Has(kept, r.id)
    requires forall x :: x in kept ==> x.timeAdded <= r.timeAdded
    ensures UniqueIds(kept + [r]) && InOrder(kept + [r])
    ensures Has(kept + [r], r.id) && Get(kept + [r], r.id) == r
  {
    HasExists(kept, r.id);
    assert !Has([], r.id) && UniqueIds([r]);
    assert forall x :: x in kept ==> !Has([r], x.id);
    UniqueConcat(kept, [r]);
    GetIsTheRecord(kept + [r], r);
  }

  /** Which records are there after an id entered: its own, newest, and those that were neither it nor evicted. */
  lemma AddFacts(cfg: Config, m: seq<Record>, id: ConnectionId, version: Version, closePacket: Option<Bytes>, now: int)
    requires cfg.maxConnections != 0 && UniqueIds(m) && InOrder(m) && forall x :: x in m ==> x.timeAdded <= now
    ensures var kept := Trim(Remove(m, id), cfg.maxConnections);
            var m' := Add(cfg, m, id, version, closePacket, now);
            && m' == kept + [m'[|kept|]] && UniqueIds(m') && InOrder(m')
            && Has(m', id) && Get(m', id) == m'[|kept|] && m'[|kept|].timeAdded == now
            && m'[|kept|] == Record(id, if Has(m, id) then Get(m, id).numPackets else 0, version, now, closePacket)
            && !Has(kept, id) && forall r :: r in kept ==> r in m && r.id != id
  {
    var kept := Trim(Remove(m, id), cfg.maxConnections);
    var r := Add(cfg, m, id, version, closePacket, now)[|kept|];
    RemoveFacts(m, id);
    RemoveKeepsOrder(m, id);
    TrimFacts(Remove(m, id), cfg.maxConnections);
    HasExists(kept, id);
    AppendFacts(kept, r);
  }

  lemma AddKeepsInv(cfg: Config, t: TimeWait, id: ConnectionId, version: Version, closePacket: Option<Bytes>, now: int)
    requires Inv(cfg, t) && cfg.maxConnections != 0 && t.clock <= now
    ensures Inv(cfg, AddId(cfg, t, id, version, closePacket, now))
    ensures Has(AddId(cfg, t, id, version, closePacket, now).list, id)
    ensures forall x :: x != id && Has(AddId(cfg, t, id, version, closePacket, now).list, x) ==> Has(t.list, x)
  {
    var m := AddId(cfg, t, id, version, closePacket, now).list;
    AddFacts(cfg, t.list, id, version, closePacket, now);
    forall x | x != id && Has(m, x) ensures Has(t.list, x) {
      HasExists(m, x);
      HasExists(t.list, x);
    }
  }

  lemma ReceiveKeepsInv(cfg: Config, t: TimeWait, id: ConnectionId)
    requires Inv(cfg, t)
    ensures Inv(cfg, Receive(t, id))
  {
    CountFacts(t.list, id);
  }

  lemma CleanUpKeepsInv(cfg: Config, t: TimeWait, now: int)
    requires Inv(cfg, t) && t.clock <= now
    ensures Inv(cfg, CleanUp(cfg, t, now))
    ensures forall id :: Has(CleanUp(cfg, t, now).list, id) ==> Has(t.list, id)
  {
    var list := Expire(t.list, now - cfg.period);
    ExpireRemovesTheOld(t.list, now - cfg.period);
    if list != [] {
      assert list[0] in list;
    }
    forall id | Has(list, id) ensures Has(t.list, id) {
      HasExists(list, id);
      HasExists(t.list, id);
    }
  }

  // ---------- the clean-up alarm ----------

  /** After a clean-up no record has lingered, so the alarm is armed for when the oldest one expires. */
  lemma NothingLingersAfterCleanUp(cfg: Config, t: TimeWait, now: int)
    requires Inv(cfg, t) && t.clock <= now
    ensures var c := CleanUp(cfg, t, now);
            && !Lingers(cfg, c.list, now)
            && c.deadline == if c.list == [] then now + cfg.period else c.list[0].timeAdded + cfg.period
  {
    var list := Expire(t.list, now - cfg.period);
    ExpireRemovesTheOld(t.list, now - cfg.period);
    if list != [] {
      assert list[0] in list;
    }
  }

  /** The alarm is rearmed strictly in the future, for every list, exactly if the period is positive. */
  lemma RearmsInTheFuture(cfg: Config, t: TimeWait, now: int)
    requires Inv(cfg, t) && t.clock <= now
    ensures now < CleanUp(cfg, t, now).deadline <==> cfg.period > 0
  {
    var list := Expire(t.list, now - cfg.period);
    ExpireRemovesTheOld(t.list, now - cfg.period);
    if list != [] {
      assert list[0] in list && list[0] in t.list;
    }
  }

  /** With a period of zero a clean-up sets the alarm to the very moment at which it runs. */
  lemma RearmsAtOnceWithoutAPeriod(now: int)
    ensures var cfg := Config(0, 200);
            Inv(cfg, Initial(cfg, now)) && CleanUp(cfg, Initial(cfg, now), now).deadline == now
  {
  }

  // ---------- whole runs ----------

  /** What can happen to the list; `elapsed` is the time since the step before. */
  datatype Step =
    | Enter(id: ConnectionId, version: Version, closePacket: Option<Bytes>, elapsed: nat)
    | Packet(id: ConnectionId, elapsed: nat)
    | AlarmRound(elapsed: nat)
    | Idle(elapsed: nat)

  function Advance(cfg: Config, t: TimeWait, step: Step): TimeWait
    requires cfg.maxConnections != 0
  {
    var now := t.clock + step.elapsed;
    match step
    case Enter(id, version, closePacket, _) => AddId(cfg, t, id, version, closePacket, now)
    case Packet(id, _) => Receive(t, id).(clock := now)
    case AlarmRound(_) => if t.deadline <= now then CleanUp(cfg, t, now) else t.(clock := now)
    case Idle(_) => t.(clock := now)
  }

  function Run(cfg: Config, t: TimeWait, steps: seq<Step>): TimeWait
    requires cfg.maxConnections != 0
    decreases |steps|
  {
    if steps == [] then t else Run(cfg, Advance(cfg, t, steps[0]), steps[1..])
  }

  lemma AdvanceKeepsInv(cfg: Config, t: TimeWait, step: Step)
    requires Inv(cfg, t) && cfg.maxConnections != 0
    ensures Inv(cfg, Advance(cfg, t, step)) && Advance(cfg, t, step).clock == t.clock + step.elapsed
  {
    var now := t.clock + step.elapsed;
    match step {
      case Enter(id, version, closePacket, _) => AddKeepsInv(cfg, t, id, version, closePacket, now);
      case Packet(id, _) => ReceiveKeepsInv(cfg, t, id);
      case AlarmRound(_) => if t.deadline <= now { CleanUpKeepsInv(cfg, t, now); }
      case Idle(_) =>
    }
  }

  /** Order, capacity and the alarm's punctuality hold in every state of every run. */
  lemma {:induction false} RunKeepsInv(cfg: Config, t: TimeWait, steps: seq<Step>)
    requires Inv(cfg, t) && cfg.maxConnections != 0
    ensures Inv(cfg, Run(cfg, t, steps)) && Run(cfg, t, steps).clock >= t.clock
    decreases |steps|
  {
    if steps != [] {
      AdvanceKeepsInv(cfg, t, steps[0]);
      RunKeepsInv(cfg, Advance(cfg, t, steps[0]), steps[1..]);
    }
  }

  lemma {:induction false} RunConcat(cfg: Config, t: TimeWait, a: seq<Step>, b: seq<Step>)
    requires cfg.maxConnections != 0
    ensures Run(cfg, t, a + b) == Run(cfg, Run(cfg, t, a), b)
    decreases |a|
  {
    if a == [] {
      assert a + b == b;
    } else {
      assert (a + b)[1..] == a[1..] + b;
      RunConcat(cfg, Advance(cfg, t, a[0]), a[1..], b);
    }
  }

  /** Whenever the alarms are given their turn, nothing that has been in the list for the period is left. */
  lemma NothingOldAfterAlarms(cfg: Config, t: TimeWait, elapsed: nat)
    requires Inv(cfg, t) && cfg.maxConnections != 0
    ensures var u := Advance(cfg, t, AlarmRound(elapsed));
            forall r :: r in u.list ==> u.clock < r.timeAdded + cfg.period
  {
    hide UniqueIds, InOrder;
    assert UniqueIds(t.list) && InOrder(t.list);
    ExpireRemovesTheOld(t.list, t.clock + elapsed - cfg.period);
  }

  // ---------- residency ----------

  ghost predicate Holds(m: seq<Record>, id: ConnectionId, timeAdded: int) {
    Has(m, id) && Get(m, id).timeAdded == timeAdded
  }

  /** The step evicts `id` to make room for another id. */
  ghost predicate Evicts(cfg: Config, t: TimeWait, step: Step, id: ConnectionId)
    requires cfg.maxConnections != 0
  {
    step.Enter? && step.id != id && Has(t.list, id) && !Has(Trim(Remove(t.list, step.id), cfg.maxConnections), id)
  }

  /** In none of the steps does `id` enter again or is it evicted. */
  ghost predicate Undisturbed(cfg: Config, t: TimeWait, steps: seq<Step>, id: ConnectionId)
    requires cfg.maxConnections != 0
    decreases |steps|
  {
    steps != [] ==>
      && !(steps[0].Enter? && steps[0].id == id)
      && !Evicts(cfg, t, steps[0], id)
      && Undisturbed(cfg, Advance(cfg, t, steps[0]), steps[1..], id)
  }

  /** One step on a record added at `added`: it stays unless it is old enough for a clean-up. */
  lemma StepKeepsRecord(cfg: Config, t: TimeWait, step: Step, id: ConnectionId, added: int)
    requires Inv(cfg, t) && cfg.maxConnections != 0 && Holds(t.list, id, added)
    requires !(step.Enter? && step.id == id) && !Evicts(cfg, t, step, id)
    ensures var t' := Advance(cfg, t, step);
            if step.AlarmRound? && t'.clock >= added + cfg.period then !Has(t'.list, id)
            else Holds(t'.list, id, added)
  {
    hide InOrder, UniqueIds, Trim;
    var now := t.clock + step.elapsed;
    var r := Get(t.list, id);
    AdvanceKeepsInv(cfg, t, step);
    match step {
      case Enter(x, version, closePacket, _) =>
        var kept := Trim(Remove(t.list, x), cfg.maxConnections);
        AddFacts(cfg, t.list, x, version, closePacket, now);
        HasExists(kept, id);
        GetIsTheRecord(t.list, Get(kept, id));
        GetIsTheRecord(Advance(cfg, t, step).list, r);
      case Packet(x, _) =>
        CountFacts(t.list, x);
        var i :| 0 <= i < |t.list| && t.list[i] == r;
        GetIsTheRecord(Count(t.list, x), Count(t.list, x)[i]);
      case AlarmRound(_) =>
        var list := Expire(t.list, now - cfg.period);
        ExpireRemovesTheOld(t.list, now - cfg.period);
        HasExists(list, id);
        if added > now - cfg.period {
          if t.deadline <= now { GetIsTheRecord(list, r); }
        } else if Has(list, id) {
          GetIsTheRecord(t.list, Get(list, id));
        }
      case Idle(_) =>
    }
  }

  lemma {:induction false} AbsentStaysAbsent(cfg: Config, t: TimeWait, steps: seq<Step>, id: ConnectionId)
    requires Inv(cfg, t) && cfg.maxConnections != 0 && !Has(t.list, id) && Undisturbed(cfg, t, steps, id)
    ensures !Has(Run(cfg, t, steps).list, id)
    decreases |steps|
  {
    if steps != [] {
      hide UniqueIds, InOrder, Trim, Expire;
      var step := steps[0];
      AdvanceKeepsInv(cfg, t, step);
      match step {
        case Enter(x, version, closePacket, _) => AddKeepsInv(cfg, t, x, version, closePacket, t.clock + step.elapsed);
        case Packet(x, _) => CountFacts(t.list, x);
        case AlarmRound(_) => CleanUpKeepsInv(cfg, t, t.clock + step.elapsed);
        case Idle(_) =>
      }
      AbsentStaysAbsent(cfg, Advance(cfg, t, step), steps[1..], id);
    }
  }

  /**
   An id that entered at `added` and neither enters again nor is evicted is in the list throughout the period
   that follows, and is gone after any round of alarms that runs once the period is over.
   */
  lemma {:induction false} Residency(cfg: Config, t: TimeWait, steps: seq<Step>, id: ConnectionId, added: int)
    requires Inv(cfg, t) && cfg.maxConnections != 0 && Holds(t.list, id, added) && Undisturbed(cfg, t, steps, id)
    ensures var t' := Run(cfg, t, steps);
            && (t'.clock < added + cfg.period ==> Holds(t'.list, id, added))
            && (Holds(t'.list, id, added) || !Has(t'.list, id))
            && (steps != [] && steps[|steps| - 1].AlarmRound? && t'.clock >= added + cfg.period ==> !Has(t'.list, id))
    decreases |steps|
  {
    if steps != [] {
      var u := Advance(cfg, t, steps[0]);
      AdvanceKeepsInv(cfg, t, steps[0]);
      StepKeepsRecord(cfg, t, steps[0], id, added);
      RunKeepsInv(cfg, u, steps[1..]);
      if Has(u.list, id) {
        Residency(cfg, u, steps[1..], id, added);
      } else {
        AbsentStaysAbsent(cfg, u, steps[1..], id);
      }
      if |steps| > 1 {
        assert steps[1..][|steps| - 2] == steps[|steps| - 1];
      }
    }
  }

  // ---------- room ----------

  lemma CountHolds(m: seq<Record>, x: ConnectionId, id: ConnectionId, added: int)
    requires UniqueIds(m) && Holds(m, id, added)
    ensures Holds(Count(m, x), id, added)
  {
    hide UniqueIds, Count;
    CountFacts(m, x);
    var i :| 0 <= i < |m| && m[i] == Get(m, id);
    GetIsTheRecord(Count(m, x), Count(m, x)[i]);
  }

  /** The list is not at its limit. */
  predicate Roomy(cfg: Config, m: seq<Record>) {
    cfg.maxConnections < 0 || |m| < cfg.maxConnections
  }

  /** Adding never shortens the list, and leaves every other record alone unless the list reaches its limit. */
  lemma AddWithRoom(cfg: Config, t: TimeWait, x: ConnectionId, version: Version, closePacket: Option<Bytes>, now: int,
                    id: ConnectionId, added: int)
    requires Inv(cfg, t) && cfg.maxConnections != 0 && t.clock <= now
    ensures var m := AddId(cfg, t, x, version, closePacket, now).list;
            && |m| >= |t.list|
            && (x != id && Holds(t.list, id, added) && Roomy(cfg, m) ==> Holds(m, id, added))
  {
    hide UniqueIds, InOrder;
    var m := AddId(cfg, t, x, version, closePacket, now).list;
    AddFacts(cfg, t.list, x, version, closePacket, now);
    if x != id && Holds(t.list, id, added) && Roomy(cfg, m) {
      RemoveFacts(t.list, x);
      GetIsTheRecord(m, Get(t.list, id));
    }
  }

  // ---------- backoff over runs ----------

  /** `id` is in the list before and after every step, whether or not it enters again in between. */
  ghost predicate HeldThroughout(cfg: Config, t: TimeWait, steps: seq<Step>, id: ConnectionId)
    requires cfg.maxConnections != 0
    decreases |steps|
  {
    Has(t.list, id) && (steps != [] ==> HeldThroughout(cfg, Advance(cfg, t, steps[0]), steps[1..], id))
  }

  /** How many packets for `id` arrive in the steps. */
  function Arrivals(steps: seq<Step>, id: ConnectionId): nat {
    if steps == [] then 0
    else (if steps[0].Packet? && steps[0].id == id then 1 else 0) + Arrivals(steps[1..], id)
  }

  /** How many of them are answered. */
  function Answers(cfg: Config, t: TimeWait, steps: seq<Step>, id: ConnectionId): nat
    requires cfg.maxConnections != 0
    decreases |steps|
  {
    if steps == [] then 0
    else
      (if steps[0].Packet? && steps[0].id == id && Has(t.list, id) && ShouldSendResponse(Get(t.list, id).numPackets + 1)
       then 1 else 0)
      + Answers(cfg, Advance(cfg, t, steps[0]), steps[1..], id)
  }

  lemma {:induction false} AnswersConcat(cfg: Config, t: TimeWait, a: seq<Step>, b: seq<Step>, id: ConnectionId)
    requires cfg.maxConnections != 0
    ensures Arrivals(a + b, id) == Arrivals(a, id) + Arrivals(b, id)
    ensures Answers(cfg, t, a + b, id) == Answers(cfg, t, a, id) + Answers(cfg, Run(cfg, t, a), b, id)
    decreases |a|
  {
    if a == [] {
      assert a + b == b;
    } else {
      assert (a + b)[1..] == a[1..] + b;
      AnswersConcat(cfg, Advance(cfg, t, a[0]), a[1..], b, id);
    }
  }

  lemma {:induction false} HeldConcat(cfg: Config, t: TimeWait, a: seq<Step>, b: seq<Step>, id: ConnectionId)
    requires cfg.maxConnections != 0 && HeldThroughout(cfg, t, a, id) && HeldThroughout(cfg, Run(cfg, t, a), b, id)
    ensures HeldThroughout(cfg, t, a + b, id)
    decreases |a|
  {
    if a == [] {
      assert a + b == b;
    } else {
      assert (a + b)[1..] == a[1..] + b;
      HeldConcat(cfg, Advance(cfg, t, a[0]), a[1..], b, id);
    }
  }

  /** Another id's entry leaves a record that it does not evict exactly as it was. */
  lemma EnterKeepsOthers(cfg: Config, t: TimeWait, x: ConnectionId, version: Version, closePacket: Option<Bytes>,
                         now: int, id: ConnectionId)
    requires Inv(cfg, t) && cfg.maxConnections != 0 && t.clock <= now && x != id
    requires Has(t.list, id) && Has(AddId(cfg, t, x, version, closePacket, now).list, id)
    ensures Get(AddId(cfg, t, x, version, closePacket, now).list, id) == Get(t.list, id)
  {
    hide InOrder, UniqueIds, Trim;
    var m := AddId(cfg, t, x, version, closePacket, now).list;
    AddFacts(cfg, t.list, x, version, closePacket, now);
    assert Get(m, id) in Trim(Remove(t.list, x), cfg.maxConnections);
    GetIsTheRecord(t.list, Get(m, id));
  }

  /** A packet changes nothing of a record but the count. */
  lemma CountKeepsTheRest(m: seq<Record>, x: ConnectionId, id: ConnectionId)
    requires UniqueIds(m) && Has(m, id)
    ensures Has(Count(m, x), id)
    ensures Get(Count(m, x), id) == Get(m, id).(numPackets := Get(Count(m, x), id).numPackets)
  {
    hide UniqueIds, Count;
    CountFacts(m, x);
    var i :| 0 <= i < |m| && m[i] == Get(m, id);
    GetIsTheRecord(Count(m, x), Count(m, x)[i]);
  }

  /** A clean-up leaves the records that it does not expire exactly as they were. */
  lemma CleanUpKeepsOthers(cfg: Config, t: TimeWait, now: int, id: ConnectionId)
    requires Inv(cfg, t) && Has(CleanUp(cfg, t, now).list, id)
    ensures Has(t.list, id) && Get(CleanUp(cfg, t, now).list, id) == Get(t.list, id)
  {
    hide InOrder, UniqueIds;
    assert InOrder(t.list) && UniqueIds(t.list);
    ExpireRemovesTheOld(t.list, now - cfg.period);
    GetIsTheRecord(t.list, Get(CleanUp(cfg, t, now).list, id));
  }

  /** Entering again carries an id's packet count over; another id's entry leaves it alone. */
  lemma EnterKeepsCounts(cfg: Config, t: TimeWait, x: ConnectionId, version: Version, closePacket: Option<Bytes>,
                         now: int, id: ConnectionId)
    requires Inv(cfg, t) && cfg.maxConnections != 0 && t.clock <= now
    requires Has(t.list, id) && Has(AddId(cfg, t, x, version, closePacket, now).list, id)
    ensures Get(AddId(cfg, t, x, version, closePacket, now).list, id).numPackets == Get(t.list, id).numPackets
  {
    hide InOrder, UniqueIds, Trim;
    var m := AddId(cfg, t, x, version, closePacket, now).list;
    AddFacts(cfg, t.list, x, version, closePacket, now);
    if x != id {
      assert Get(m, id) in Trim(Remove(t.list, x), cfg.maxConnections);
      GetIsTheRecord(t.list, Get(m, id));
    }
  }

  lemma StepCounts(cfg: Config, t: TimeWait, step: Step, id: ConnectionId)
    requires Inv(cfg, t) && cfg.maxConnections != 0 && Has(t.list, id) && Has(Advance(cfg, t, step).list, id)
    ensures Get(Advance(cfg, t, step).list, id).numPackets
         == Get(t.list, id).numPackets + (if step.Packet? && step.id == id then 1 else 0)
  {
    hide InOrder, UniqueIds, Trim, Count;
    var m := Advance(cfg, t, step).list;
    match step {
      case Enter(x, version, closePacket, _) =>
        EnterKeepsCounts(cfg, t, x, version, closePacket, t.clock + step.elapsed, id);
      case Packet(x, _) => CountCounts(t.list, x, id);
      case AlarmRound(_) =>
        ExpireRemovesTheOld(t.list, t.clock + step.elapsed - cfg.period);
        GetIsTheRecord(t.list, Get(m, id));
      case Idle(_) =>
    }
  }

  lemma CountCounts(m: seq<Record>, x: ConnectionId, id: ConnectionId)
    requires UniqueIds(m) && Has(m, id)
    ensures Has(Count(m, x), id)
    ensures Get(Count(m, x), id).numPackets == Get(m, id).numPackets + (if x == id then 1 else 0)
  {
    hide UniqueIds, Count;
    CountFacts(m, x);
    var i :| 0 <= i < |m| && m[i] == Get(m, id);
    GetIsTheRecord(Count(m, x), Count(m, x)[i]);
  }

  /** While an id is held, the packets it has drawn are all counted and those at powers of two answered. */
  lemma {:induction false} AnswersFollowTheCount(cfg: Config, t: TimeWait, steps: seq<Step>, id: ConnectionId)
    requires Inv(cfg, t) && cfg.maxConnections != 0 && HeldThroughout(cfg, t, steps, id)
    ensures var t' := Run(cfg, t, steps);
            && Has(t'.list, id)
            && Get(t'.list, id).numPackets == Get(t.list, id).numPackets + Arrivals(steps, id)
            && Answers(cfg, t, steps, id) ==
               Responses(Get(t'.list, id).numPackets) - Responses(Get(t.list, id).numPackets)
    decreases |steps|
  {
    if steps != [] {
      hide Inv, Has, Get, Advance, ShouldSendResponse;
      var u := Advance(cfg, t, steps[0]);
      AdvanceKeepsInv(cfg, t, steps[0]);
      StepCounts(cfg, t, steps[0], id);
      AnswersFollowTheCount(cfg, u, steps[1..], id);
    }
  }

  /** While no packet arrives for `id`, nothing is answered, and if it enters it enters uncounted. */
  lemma {:induction false} UncountedStaysUncounted(cfg: Config, t: TimeWait, steps: seq<Step>, id: ConnectionId)
    requires Inv(cfg, t) && cfg.maxConnections != 0 && Arrivals(steps, id) == 0
    requires Has(t.list, id) ==> Get(t.list, id).numPackets == 0
    ensures var u := Run(cfg, t, steps);
            && Answers(cfg, t, steps, id) == 0
            && (Has(u.list, id) ==> Get(u.list, id).numPackets == 0)
    decreases |steps|
  {
    if steps != [] {
      hide UniqueIds, InOrder, Trim, Expire;
      var step := steps[0];
      var u := Advance(cfg, t, step);
      AdvanceKeepsInv(cfg, t, step);
      if Has(u.list, id) {
        if Has(t.list, id) {
          StepCounts(cfg, t, step, id);
        } else {
          EntersUncounted(cfg, t, step, id);
        }
      }
      UncountedStaysUncounted(cfg, u, steps[1..], id);
    }
  }

  /** An id that was not in the list can only have entered it, with no packets counted. */
  lemma EntersUncounted(cfg: Config, t: TimeWait, step: Step, id: ConnectionId)
    requires Inv(cfg, t) && cfg.maxConnections != 0 && !Has(t.list, id) && Has(Advance(cfg, t, step).list, id)
    ensures Get(Advance(cfg, t, step).list, id).numPackets == 0
  {
    hide InOrder, Trim, Expire;
    var now := t.clock + step.elapsed;
    match step {
      case Enter(x, version, closePacket, _) =>
        AddKeepsInv(cfg, t, x, version, closePacket, now);
        AddFacts(cfg, t.list, x, version, closePacket, now);
      case Packet(x, _) => CountFacts(t.list, x);
      case AlarmRound(_) => CleanUpKeepsInv(cfg, t, now);
      case Idle(_) =>
    }
  }

  /** From its entry into the list, `n` packets for an id draw floor(log2 n) + 1 responses. */
  lemma BackoffIsExponential(cfg: Config, t: TimeWait, steps: seq<Step>, id: ConnectionId)
    requires Inv(cfg, t) && cfg.maxConnections != 0 && HeldThroughout(cfg, t, steps, id)
    requires Get(t.list, id).numPackets == 0 && Arrivals(steps, id) >= 1
    ensures Answers(cfg, t, steps, id) == Log2(Arrivals(steps, id)) + 1
  {
    hide Inv, HeldThroughout, Advance, Answers, Run, ShouldSendResponse;
    AnswersFollowTheCount(cfg, t, steps, id);
    ResponsesAreLogarithmic(Arrivals(steps, id));
  }
}
