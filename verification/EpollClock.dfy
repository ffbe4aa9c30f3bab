/**
 How long the epoll server sleeps, and the time it tells its callbacks.

 Time is in microseconds. `Do` is the reference: what the server answers and for how long it sleeps while an
 arbitrary program calls it, from inside its own callbacks too. The class below it is proved to do the same.
 */
module EpollClock {
  import opened Sequences

  // ---------- the machine's arithmetic ----------

  /** Division as the machine does it: towards zero. */
  function TruncatedQuotient(a: int, b: int): (q: int)
    requires b > 0
    ensures a >= 0 ==> b * q <= a < b * (q + 1)
    ensures a <= 0 ==> b * (q - 1) < a <= b * q
  {
    if a >= 0 then a / b else -((-a) / b)
  }

  /** Conversion of a 64-bit integer to a 32-bit one. */
  function ToInt32(x: int): (r: int)
    ensures -0x8000_0000 <= r < 0x8000_0000
    ensures r == x <==> -0x8000_0000 <= x < 0x8000_0000
    ensures r < 0 <==> x % 0x1_0000_0000 >= 0x8000_0000
  {
    var m := x % 0x1_0000_0000;
    if m < 0x8000_0000 then m else m - 0x1_0000_0000
  }

  // ---------- how long to sleep ----------

  function Max(a: int, b: int): int {
    if a >= b then a else b
  }

  /** The wait WaitForEventsAndExecuteCallbacks asks for. */
  function RequestedWait(timeoutInUs: int, nextAlarm: Option<int>, now: int): int {
    if nextAlarm.None? then timeoutInUs
    else if nextAlarm.value - now < timeoutInUs || timeoutInUs < 0 then Max(nextAlarm.value - now, 0)
    else timeoutInUs
  }

  /** The timeout in milliseconds that WaitForEventsAndCallHandleEvents gives to epoll_wait. */
  function EpollTimeout(waitInUs: int, readyListEmpty: bool): int {
    var adjusted := if waitInUs == 0 || !readyListEmpty then 0 else if waitInUs < 0 then -1000 else Max(waitInUs, 1000);
    ToInt32(TruncatedQuotient(adjusted, 1000))
  }

  /** What the comments of the source promise: no sleep, sleep until an event, or whole milliseconds, at least one. */
  predicate Promised(waitInUs: int, readyListEmpty: bool, ms: int) {
    if waitInUs == 0 || !readyListEmpty then ms == 0
    else if waitInUs < 0 then ms == -1
    else ms >= 1 && 1000 * ms <= Max(waitInUs, 1000) && waitInUs < 1000 * (ms + 1)
  }

  /** The promise is kept exactly for waits below 2^31 milliseconds; beyond, the conversion loses high bits. */
  lemma PromiseKeptBelowTheOverflow(waitInUs: int, readyListEmpty: bool)
    ensures Promised(waitInUs, readyListEmpty, EpollTimeout(waitInUs, readyListEmpty)) <==>
              !readyListEmpty || waitInUs < 0x8000_0000 * 1000
  {
  }

  /** A wait of 2^31 milliseconds becomes a negative timeout: the server sleeps until an event, through its alarm. */
  lemma AnAlarmSleptThrough(now: int)
    ensures EpollTimeout(RequestedWait(-1, Some(now + 0x8000_0000 * 1000), now), true) == -0x8000_0000
  {
  }

  /** The server can sleep through its alarms exactly if bit 31 of the wait in milliseconds is set. */
  lemma AlarmsAreSleptThroughExactlyOnBit31(timeoutInUs: int, alarm: int, now: int)
    ensures var wait := RequestedWait(timeoutInUs, Some(alarm), now);
            EpollTimeout(wait, true) < 0 <==> wait / 1000 % 0x1_0000_0000 >= 0x8000_0000
  {
  }

  /** Otherwise it oversleeps an alarm by less than a millisecond, and does not sleep at all if one is due. */
  lemma SleepBound(timeoutInUs: int, alarm: int, now: int, readyListEmpty: bool)
    ensures var wait := RequestedWait(timeoutInUs, Some(alarm), now);
            var ms := EpollTimeout(wait, readyListEmpty);
            && (ms > 0 ==> now + 1000 * ms < alarm + 1000 && (timeoutInUs < 0 || 1000 * ms <= Max(timeoutInUs, 1000)))
            && (alarm <= now && timeoutInUs != 0 ==> ms == 0)
  {
  }

  /** The server waits for ever, by intent, only with no alarm, nothing ready and a negative timeout. */
  lemma WaitsForEverOnlyWithoutAlarms(timeoutInUs: int, nextAlarm: Option<int>, now: int, readyListEmpty: bool)
    requires RequestedWait(timeoutInUs, nextAlarm, now) < 0x8000_0000 * 1000
    ensures EpollTimeout(RequestedWait(timeoutInUs, nextAlarm, now), readyListEmpty) < 0 <==>
              readyListEmpty && nextAlarm.None? && timeoutInUs < 0
    ensures EpollTimeout(RequestedWait(timeoutInUs, nextAlarm, now), readyListEmpty) == 0 <==>
              !readyListEmpty || RequestedWait(timeoutInUs, nextAlarm, now) == 0
  {
  }

  // ---------- approximate time ----------

  /** An answer to ApproximateNowInUsec and the real time at which it was given. */
  datatype Answer = Answer(approximate: int, actual: int)

  /**
   What the program and its callbacks do. `WaitForEvents` is a call of WaitForEventsAndExecuteCallbacks: epoll_wait
   returns after `slept`, and `callbacks` is what event and alarm callbacks do before the call returns.
   */
  datatype Act =
    | Elapse(time: nat)
    | AskTime
    | SetTimeout(timeoutInUs: int)
    | WaitForEvents(nextAlarm: Option<int>, readyListEmpty: bool, slept: nat, callbacks: seq<Act>)

  /** `actual` is the real clock; `timeouts` are those given to epoll_wait so far. */
  datatype Clock = Clock(timeoutInUs: int, recordedNow: int, waiting: bool, actual: int,
                         answers: seq<Answer>, timeouts: seq<int>)

  function ApproximateNow(c: Clock): int {
    if c.recordedNow != 0 then c.recordedNow else c.actual
  }

  function AwakenAt(c: Clock, nextAlarm: Option<int>, readyListEmpty: bool, slept: nat): Clock {
    c.(waiting := true, actual := c.actual + slept, recordedNow := c.actual + slept,
       timeouts := c.timeouts + [EpollTimeout(RequestedWait(c.timeoutInUs, nextAlarm, c.actual), readyListEmpty)])
  }

  function DoOne(c: Clock, act: Act): Clock
    decreases act
  {
    match act
    case Elapse(time) => c.(actual := c.actual + time)
    case AskTime => c.(answers := c.answers + [Answer(ApproximateNow(c), c.actual)])
    case SetTimeout(t) => c.(timeoutInUs := t)
    case WaitForEvents(nextAlarm, readyListEmpty, slept, callbacks) =>
      if c.waiting then c
      else Do(AwakenAt(c, nextAlarm, readyListEmpty, slept), callbacks).(recordedNow := 0, waiting := false)
  }

  function Do(c: Clock, acts: seq<Act>): Clock
    decreases acts
  {
    if acts == [] then c else Do(DoOne(c, acts[0]), acts[1..])
  }

  ghost predicate InOrder(answers: seq<Answer>) {
    forall i, j :: 0 <= i < j < |answers| ==> answers[i].approximate <= answers[j].approximate
  }

  /** The recorded time is in the past, no earlier than any answer given, and there is one only during a call. */
  ghost predicate Punctual(c: Clock) {
    && InOrder(c.answers)
    && (forall a :: a in c.answers ==> a.approximate <= a.actual && a.approximate <= ApproximateNow(c))
    && ApproximateNow(c) <= c.actual
    && (c.recordedNow != 0 ==> c.waiting)
  }

  lemma {:induction false} DoOneKeeps(c: Clock, act: Act)
    requires Punctual(c)
    ensures Punctual(DoOne(c, act)) && DoOne(c, act).actual >= c.actual && DoOne(c, act).waiting == c.waiting
    ensures c.answers <= DoOne(c, act).answers
    decreases act
  {
    match act {
      case Elapse(time) =>
      case AskTime =>
      case SetTimeout(t) =>
      case WaitForEvents(nextAlarm, readyListEmpty, slept, callbacks) =>
        if !c.waiting { DoKeeps(AwakenAt(c, nextAlarm, readyListEmpty, slept), callbacks); }
    }
  }

  /** Any program, in any state of any run: approximate time never runs ahead of real time and never goes back. */
  lemma {:induction false} DoKeeps(c: Clock, acts: seq<Act>)
    requires Punctual(c)
    ensures Punctual(Do(c, acts)) && Do(c, acts).actual >= c.actual && Do(c, acts).waiting == c.waiting
    ensures c.answers <= Do(c, acts).answers
    decreases acts
  {
    if acts != [] {
      DoOneKeeps(c, acts[0]);
      DoKeeps(DoOne(c, acts[0]), acts[1..]);
    }
  }

  lemma ApproximateTimeIsMonotone(timeoutInUs: int, start: int, acts: seq<Act>)
    ensures var c := Do(Clock(timeoutInUs, 0, false, start, [], []), acts);
            && (forall i, j :: 0 <= i < j < |c.answers| ==> c.answers[i].approximate <= c.answers[j].approximate)
            && (forall a :: a in c.answers ==> a.approximate <= a.actual)
            && c.recordedNow == 0 && ApproximateNow(c) == c.actual
  {
    DoKeeps(Clock(timeoutInUs, 0, false, start, [], []), acts);
  }

  /** Inside one call every answer is the same, the time at which epoll_wait returned, unless that was zero. */
  lemma {:induction false} TimeStandsStillInCallbacks(c: Clock, acts: seq<Act>)
    requires c.waiting && c.recordedNow != 0
    ensures var d := Do(c, acts);
            && d.recordedNow == c.recordedNow && d.waiting && d.timeouts == c.timeouts && c.answers <= d.answers
            && forall a :: a in d.answers[|c.answers|..] ==> a.approximate == c.recordedNow
    decreases acts
  {
    if acts != [] {
      var u := DoOne(c, acts[0]);
      TimeStandsStillInCallbacks(u, acts[1..]);
      var d := Do(c, acts);
      assert d.answers[|c.answers|..] == u.answers[|c.answers|..] + d.answers[|u.answers|..];
    }
  }

  // ---------- what a call does ----------

  /** The sooner of the next alarm and a timeout that is not negative, as a wait from `now`. */
  function Soonest(timeoutInUs: int, nextAlarm: Option<int>, now: int): int {
    if nextAlarm.None? || 0 <= timeoutInUs <= nextAlarm.value - now then timeoutInUs else nextAlarm.value - now
  }

  /** What epoll_wait may be told at `now`: never to sleep through an alarm, nor to return at once for no reason. */
  predicate Timely(timeoutInUs: int, nextAlarm: Option<int>, now: int, readyListEmpty: bool, ms: int) {
    && (!readyListEmpty ==> ms == 0)
    && (nextAlarm.None? && readyListEmpty ==> (ms == 0 <== timeoutInUs == 0) && (ms == -1 <== timeoutInUs < 0))
    && (nextAlarm.Some? && (nextAlarm.value <= now || timeoutInUs == 0) ==> ms == 0)
    && (nextAlarm.Some? && ms > 0 ==> now + 1000 * ms < nextAlarm.value + 1000)
    && (ms > 0 && timeoutInUs >= 0 ==> 1000 * ms <= Max(timeoutInUs, 1000))
    && (var soonest := Soonest(timeoutInUs, nextAlarm, now);
        && (readyListEmpty && 0 < soonest < 0x8000_0000 * 1000 ==> ms >= 1 && 1000 * (ms + 1) > soonest)
        && (readyListEmpty && soonest > 0 ==> (ms < 0 <==> soonest / 1000 % 0x1_0000_0000 >= 0x8000_0000)))
  }

  lemma TimeoutIsTimely(timeoutInUs: int, nextAlarm: Option<int>, now: int, readyListEmpty: bool)
    ensures Timely(timeoutInUs, nextAlarm, now, readyListEmpty,
                   EpollTimeout(RequestedWait(timeoutInUs, nextAlarm, now), readyListEmpty))
  {
  }

  /** Calls from callbacks give epoll_wait nothing. */
  lemma {:induction false} NestedCallsDoNotWait(c: Clock, acts: seq<Act>)
    requires c.waiting
    ensures Do(c, acts).timeouts == c.timeouts && Do(c, acts).waiting
    decreases acts
  {
    if acts != [] {
      NestedCallsDoNotWait(DoOne(c, acts[0]), acts[1..]);
    }
  }

  /**
   A call of WaitForEventsAndExecuteCallbacks gives epoll_wait one timeout, a timely one, and forgets the recorded time
   when it returns. From inside a callback it does nothing.
   */
  lemma WaitLaw(c: Clock, nextAlarm: Option<int>, readyListEmpty: bool, slept: nat, callbacks: seq<Act>)
    ensures var d := DoOne(c, WaitForEvents(nextAlarm, readyListEmpty, slept, callbacks));
            if c.waiting then d == c
            else
              && |d.timeouts| == |c.timeouts| + 1 && c.timeouts <= d.timeouts
              && Timely(c.timeoutInUs, nextAlarm, c.actual, readyListEmpty, d.timeouts[|c.timeouts|])
              && d.recordedNow == 0 && !d.waiting
  {
    if !c.waiting {
      var a := AwakenAt(c, nextAlarm, readyListEmpty, slept);
      TimeoutIsTimely(c.timeoutInUs, nextAlarm, c.actual, readyListEmpty);
      NestedCallsDoNotWait(a, callbacks);
    }
  }

  /** Its callbacks are told the time at which epoll_wait returned; what they do otherwise stands. */
  lemma WaitTells(c: Clock, nextAlarm: Option<int>, readyListEmpty: bool, slept: nat, callbacks: seq<Act>)
    requires !c.waiting && c.actual + slept != 0
    ensures var d := DoOne(c, WaitForEvents(nextAlarm, readyListEmpty, slept, callbacks));
            && c.answers <= d.answers && d.actual >= c.actual + slept
            && |d.answers| == |c.answers| + Questions(callbacks)
            && forall a :: a in d.answers[|c.answers|..] ==> a.approximate == c.actual + slept
  {
    var a := AwakenAt(c, nextAlarm, readyListEmpty, slept);
    TimeStandsStillInCallbacks(a, callbacks);
    CallbacksAsk(a, callbacks);
  }

  /** How often callbacks ask for the time, calls nested in them not counted, which do nothing. */
  function Questions(acts: seq<Act>): nat {
    if acts == [] then 0 else (if acts[0].AskTime? then 1 else 0) + Questions(acts[1..])
  }

  lemma {:induction false} CallbacksAsk(c: Clock, acts: seq<Act>)
    requires c.waiting
    ensures |Do(c, acts).answers| == |c.answers| + Questions(acts) && Do(c, acts).actual >= c.actual
    decreases acts
  {
    if acts != [] {
      CallbacksAsk(DoOne(c, acts[0]), acts[1..]);
    }
  }

  /** Time passes and timeouts are set anywhere. */
  lemma SettingsLaw(c: Clock, time: nat, timeoutInUs: int)
    ensures DoOne(c, Elapse(time)) == c.(actual := c.actual + time)
    ensures DoOne(c, SetTimeout(timeoutInUs)) == c.(timeoutInUs := timeoutInUs)
  {
  }

  /** Outside of a call, approximate time is real time. */
  lemma OutsideTimeIsReal(c: Clock)
    requires c.recordedNow == 0
    ensures DoOne(c, AskTime) == c.(answers := c.answers + [Answer(c.actual, c.actual)])
  {
  }

  // ---------- the server's fields ----------

  class EpollServer {
    var timeoutInUs: int
    var recordedNowInUs: int
    var inWaitForEventsAndExecuteCallbacks: bool
    // the world outside: the real clock, and what was answered and slept so far
    var realNow: int
    ghost var answers: seq<Answer>
    ghost var timeouts: seq<int>

    ghost function View(): Clock
      reads this
    {
      Clock(timeoutInUs, recordedNowInUs, inWaitForEventsAndExecuteCallbacks, realNow, answers, timeouts)
    }

    constructor (timeoutInUs: int, now: int)
      ensures View() == Clock(timeoutInUs, 0, false, now, [], []) && Punctual(View())
    {
      this.timeoutInUs, recordedNowInUs, inWaitForEventsAndExecuteCallbacks := timeoutInUs, 0, false;
      realNow, answers, timeouts := now, [], [];
    }

    method ApproximateNowInUsec() returns (now: int)
      requires Punctual(View())
      modifies `answers
      ensures View() == DoOne(old(View()), AskTime) && Punctual(View())
      ensures now <= realNow && forall a :: a in old(answers) ==> a.approximate <= now
    {
      DoOneKeeps(View(), AskTime);
      now := realNow;
      if recordedNowInUs != 0 {
        now := recordedNowInUs;
      }
      answers := answers + [Answer(now, realNow)];
    }

    /** The part of WaitForEventsAndCallHandleEvents up to the return of epoll_wait, which took `slept`. */
    method Sleep(waitInUs: int, readyListEmpty: bool, slept: nat)
      modifies `timeouts, `realNow, `recordedNowInUs
      ensures timeouts == old(timeouts) + [EpollTimeout(waitInUs, readyListEmpty)]
      ensures realNow == old(realNow) + slept && recordedNowInUs == realNow
    {
      var adjusted := waitInUs;
      if adjusted == 0 || !readyListEmpty {
        adjusted := 0;
      } else if adjusted < 0 {
        adjusted := -1000;
      } else {
        if adjusted < 1000 {
          adjusted := 1000;
        }
      }
      var timeoutInMs := ToInt32(TruncatedQuotient(adjusted, 1000));
      timeouts := timeouts + [timeoutInMs];
      realNow := realNow + slept;
      recordedNowInUs := realNow;
    }

    method WaitForEventsAndExecuteCallbacks(nextAlarm: Option<int>, readyListEmpty: bool, slept: nat,
                                            callbacks: seq<Act>)
      requires Punctual(View())
      modifies this
      ensures View() == DoOne(old(View()), WaitForEvents(nextAlarm, readyListEmpty, slept, callbacks))
      ensures Punctual(View())
      ensures old(inWaitForEventsAndExecuteCallbacks) ==> timeouts == old(timeouts)
      ensures !old(inWaitForEventsAndExecuteCallbacks) ==>
                && |timeouts| == |old(timeouts)| + 1 && old(timeouts) <= timeouts
                && Timely(old(timeoutInUs), nextAlarm, old(realNow), readyListEmpty, timeouts[|old(timeouts)|])
      decreases callbacks, 1
    {
      hide Timely;
      DoOneKeeps(View(), WaitForEvents(nextAlarm, readyListEmpty, slept, callbacks));
      WaitLaw(View(), nextAlarm, readyListEmpty, slept, callbacks);
      if inWaitForEventsAndExecuteCallbacks {
        return;
      }
      inWaitForEventsAndExecuteCallbacks := true;
      if nextAlarm.None? {
        Sleep(timeoutInUs, readyListEmpty, slept);
      } else {
        var waitTimeInUs;
        var alarmTimeoutInUs := nextAlarm.value - realNow;
        if alarmTimeoutInUs < timeoutInUs || timeoutInUs < 0 {
          waitTimeInUs := Max(alarmTimeoutInUs, 0);
        } else {
          waitTimeInUs := timeoutInUs;
        }
        Sleep(waitTimeInUs, readyListEmpty, slept);
      }
      Execute(callbacks);
      recordedNowInUs := 0;
      inWaitForEventsAndExecuteCallbacks := false;
    }

    /** What a callback, or the program around the server, does. */
    method Execute(acts: seq<Act>)
      requires Punctual(View())
      modifies this
      ensures View() == Do(old(View()), acts) && Punctual(View())
      decreases acts, 0
    {
      if acts == [] {
        return;
      }
      DoOneKeeps(View(), acts[0]);
      match acts[0] {
        case Elapse(time) =>
          realNow := realNow + time;
        case AskTime =>
          var now := ApproximateNowInUsec();
        case SetTimeout(t) =>
          timeoutInUs := t;
        case WaitForEvents(nextAlarm, readyListEmpty, slept, callbacks) =>
          WaitForEventsAndExecuteCallbacks(nextAlarm, readyListEmpty, slept, callbacks);
      }
      Execute(acts[1..]);
    }
  }
}
