/**
 The software timer daemon: two expiry lists that change roles when the tick wraps, a command queue, late
 commands, and the catching up of missed periods.
 */
module Timers {
  import opened Ticks
  import opened Rings

  type TimerId = nat

  type Period = p: Tick | 1 <= p witness 1

  datatype Timer = Timer(period: Period, autoReload: bool)

  /** A timer's list item: its owner and its expiry time. */
  datatype Entry = Entry(timer: TimerId, value: Tick)

  datatype Command =
    | Start(timer: TimerId, value: Tick)   // start, reset, or the daemon's own restart
    | Stop(timer: TimerId)
    | ChangePeriod(timer: TimerId, period: Period)
    | Delete(timer: TimerId)

  datatype Daemon = Daemon(
    timers: map<TimerId, Timer>,
    current: seq<Entry>,
    overflow: seq<Entry>,
    queue: seq<Command>,
    lastTime: Tick,
    fired: map<TimerId, nat>)   // callbacks made so far

  function TimerOf(timers: map<TimerId, Timer>, t: TimerId): Timer {
    if t in timers then timers[t] else Timer(1, false)
  }

  function FiredOf(d: Daemon, t: TimerId): nat {
    if t in d.fired then d.fired[t] else 0
  }

  // ---------------------------------------------------------------------------
  // Placement
  // ---------------------------------------------------------------------------

  /** Whether a timer has already expired, from three wrapped times. */
  predicate ProcessNow(period: Period, expiry: Tick, now: Tick, command: Tick) {
    if expiry <= now then Sub(now, command) >= period else now < command && expiry >= command
  }

  /** Otherwise, whether it belongs in the overflow list. */
  predicate InOverflow(expiry: Tick, now: Tick) {
    expiry <= now
  }

  /**
   Placement is exact modulo wrap: a command less than one wrap old is processed at once exactly when the
   true expiry has come, and otherwise filed by the epoch of the true expiry.
   */
  lemma PlacementExact(command: nat, period: Period, now: nat)
    requires command <= now < command + TICKS
    ensures var e := Add(Of(command), period);
            && e == Of(command + period)
            && (ProcessNow(period, e, Of(now), Of(command)) <==> command + period <= now)
            && (command + period > now ==>
                  EpochStart(command + period) == if InOverflow(e, Of(now)) then EpochStart(now) + TICKS else EpochStart(now))
  {
    AddDuration(command, period);
    SubDuration(command, now);
    hide Of, EpochStart;
  }

  // ---------------------------------------------------------------------------
  // Lists
  // ---------------------------------------------------------------------------

  function Values(list: seq<Entry>): (v: seq<nat>)
    ensures |v| == |list|
    ensures forall i :: 0 <= i < |list| ==> v[i] == list[i].value
  {
    seq(|list|, i requires 0 <= i < |list| => list[i].value)
  }

  /** vListInsert. */
  function FileIn(list: seq<Entry>, e: Entry): seq<Entry> {
    InsertAt(list, Slot(Values(list), e.value), e)
  }

  /** uxListRemove, of whatever item of t is there. */
  function Without(list: seq<Entry>, t: TimerId): seq<Entry> {
    if list == [] then [] else if list[0].timer == t then Without(list[1..], t) else [list[0]] + Without(list[1..], t)
  }

  /** The expiry times under which t is filed in a list. */
  function Filed(list: seq<Entry>, t: TimerId): seq<Tick> {
    if list == [] then [] else (if list[0].timer == t then [list[0].value] else []) + Filed(list[1..], t)
  }

  /** The commands for t in the queue. */
  function Orders(queue: seq<Command>, t: TimerId): seq<Command> {
    if queue == [] then [] else (if queue[0].timer == t then [queue[0]] else []) + Orders(queue[1..], t)
  }

  lemma {:induction false} FiledConcat(a: seq<Entry>, b: seq<Entry>, t: TimerId)
    ensures Filed(a + b, t) == Filed(a, t) + Filed(b, t)
  {
    if a == [] {
      assert a + b == b;
    } else {
      assert (a + b)[1..] == a[1..] + b && (a + b)[0] == a[0];
      FiledConcat(a[1..], b, t);
      var head := if a[0].timer == t then [a[0].value] else [];
      assert Filed(a, t) == head + Filed(a[1..], t);
      assert Filed(a + b, t) == head + Filed((a + b)[1..], t);
    }
  }

  lemma {:induction false} OrdersConcat(a: seq<Command>, b: seq<Command>, t: TimerId)
    ensures Orders(a + b, t) == Orders(a, t) + Orders(b, t)
  {
    if a == [] {
      assert a + b == b;
    } else {
      assert (a + b)[1..] == a[1..] + b;
      OrdersConcat(a[1..], b, t);
    }
  }

  lemma FiledInserted(list: seq<Entry>, e: Entry, t: TimerId)
    ensures e.timer != t ==> Filed(FileIn(list, e), t) == Filed(list, t)
    ensures e.timer == t && Filed(list, t) == [] ==> Filed(FileIn(list, e), t) == [e.value]
  {
    var p := Slot(Values(list), e.value);
    assert FileIn(list, e) == list[..p] + [e] + list[p..];
    assert list == list[..p] + list[p..];
    FiledConcat(list[..p] + [e], list[p..], t);
    FiledConcat(list[..p], [e], t);
    FiledConcat(list[..p], list[p..], t);
  }

  lemma {:induction false} FiledWithout(list: seq<Entry>, u: TimerId, t: TimerId)
    ensures Filed(Without(list, u), t) == if t == u then [] else Filed(list, t)
  {
    if list != [] {
      FiledWithout(list[1..], u, t);
      FiledConcat([list[0]], Without(list[1..], u), t);
    }
  }

  lemma {:induction false} WithoutMembers(list: seq<Entry>, t: TimerId)
    ensures forall e :: e in Without(list, t) ==> e in list
  {
    if list != [] {
      WithoutMembers(list[1..], t);
    }
  }

  ghost predicate InOrder(list: seq<Entry>) {
    forall i, j :: 0 <= i <= j < |list| ==> list[i].value <= list[j].value
  }

  lemma FileInOrder(list: seq<Entry>, e: Entry)
    requires InOrder(list)
    ensures InOrder(FileIn(list, e))
  {
    InsertSortedStable(Values(list), e.value);
  }

  lemma {:induction false} WithoutInOrder(list: seq<Entry>, t: TimerId)
    requires InOrder(list)
    ensures InOrder(Without(list, t))
  {
    if list != [] {
      assert InOrder(list[1..]);
      WithoutInOrder(list[1..], t);
      WithoutMembers(list[1..], t);
      assert forall e :: e in list[1..] ==> list[0].value <= e.value;
      assert forall e :: e in Without(list[1..], t) ==> list[0].value <= e.value;
    }
  }

  lemma {:induction false} FiledMember(list: seq<Entry>, t: TimerId, v: Tick)
    requires v in Filed(list, t)
    ensures Entry(t, v) in list
  {
    if !(list[0].timer == t && list[0].value == v) {
      FiledMember(list[1..], t, v);
    }
  }

  // ---------------------------------------------------------------------------
  // The daemon
  // ---------------------------------------------------------------------------

  function Fire(d: Daemon, t: TimerId): Daemon {
    d.(fired := d.fired[t := FiredOf(d, t) + 1])
  }

  function Post(d: Daemon, c: Command): Daemon {
    d.(queue := d.queue + [c])
  }

  function FileCurrent(d: Daemon, t: TimerId, v: Tick): Daemon {
    d.(current := FileIn(d.current, Entry(t, v)))
  }

  function FileOverflow(d: Daemon, t: TimerId, v: Tick): Daemon {
    d.(overflow := FileIn(d.overflow, Entry(t, v)))
  }

  /** prvInsertTimerInActiveList, for a timer that is not to be processed at once. */
  function Place(d: Daemon, t: TimerId, expiry: Tick, now: Tick): Daemon {
    if InOverflow(expiry, now) then FileOverflow(d, t, expiry) else FileCurrent(d, t, expiry)
  }

  /** prvProcessExpiredTimer: the head of the current list has expired. */
  function ProcessExpired(d: Daemon, now: Tick): Daemon
    requires d.current != []
  {
    var t, v := d.current[0].timer, d.current[0].value;
    var timer := TimerOf(d.timers, t);
    var d1 := d.(current := d.current[1..]);
    var e := Add(v, timer.period);
    Fire(if !timer.autoReload then d1
         else if ProcessNow(timer.period, e, now, v) then Post(d1, Start(t, v))
         else Place(d1, t, e, now), t)
  }

  /** One turn of the loop that empties the current list before the lists change roles. */
  function DrainOne(d: Daemon): Daemon
    requires d.current != []
  {
    var t, v := d.current[0].timer, d.current[0].value;
    var timer := TimerOf(d.timers, t);
    var d1 := Fire(d.(current := d.current[1..]), t);
    var reload := Add(v, timer.period);
    if !timer.autoReload then d1
    else if reload > v then FileCurrent(d1, t, reload)
    else Post(d1, Start(t, v))
  }

  /** Every entry counts for the ticks left in the epoch; re-insertion later in the epoch counts for fewer. */
  function TicksLeft(list: seq<Entry>): nat {
    if list == [] then 0 else TICKS - list[0].value + TicksLeft(list[1..])
  }

  lemma {:induction false} TicksLeftConcat(a: seq<Entry>, b: seq<Entry>)
    ensures TicksLeft(a + b) == TicksLeft(a) + TicksLeft(b)
  {
    if a == [] {
      assert a + b == b;
    } else {
      assert (a + b)[1..] == a[1..] + b;
      TicksLeftConcat(a[1..], b);
    }
  }

  lemma TicksLeftInserted(list: seq<Entry>, e: Entry)
    ensures TicksLeft(FileIn(list, e)) == TicksLeft(list) + TICKS - e.value
  {
    var p := Slot(Values(list), e.value);
    assert FileIn(list, e) == list[..p] + [e] + list[p..];
    assert list == list[..p] + list[p..];
    TicksLeftConcat(list[..p] + [e], list[p..]);
    TicksLeftConcat(list[..p], [e]);
    TicksLeftConcat(list[..p], list[p..]);
  }

  /** The drain loop terminates although it re-inserts timers. */
  lemma DrainShrinks(d: Daemon)
    requires d.current != []
    ensures TicksLeft(DrainOne(d).current) < TicksLeft(d.current)
  {
    var v, period := d.current[0].value, TimerOf(d.timers, d.current[0].timer).period;
    TicksLeftInserted(d.current[1..], Entry(d.current[0].timer, Add(v, period)));
  }

  function Drain(d: Daemon): (d': Daemon)
    ensures d'.current == [] && d'.overflow == d.overflow && d'.timers == d.timers && d'.lastTime == d.lastTime
    decreases TicksLeft(d.current)
  {
    if d.current == [] then d else DrainShrinks(d); Drain(DrainOne(d))
  }

  /** prvSwitchTimerLists. */
  function SwitchLists(d: Daemon): Daemon {
    var d1 := Drain(d);
    d1.(current := d1.overflow, overflow := d1.current)
  }

  /** prvSampleTimeNow. */
  function Sample(d: Daemon, now: Tick): Daemon {
    (if now < d.lastTime then SwitchLists(d) else d).(lastTime := now)
  }

  /** prvGetNextExpireTime, then prvProcessTimerOrBlockTask. */
  function TimerPhase(d: Daemon, now: Tick): Daemon {
    var d1 := Sample(d, now);
    if now >= d.lastTime && d.current != [] && d.current[0].value <= now then ProcessExpired(d1, now) else d1
  }

  /** The daemon goes to sleep: nothing to do at this time, and no command waiting. */
  predicate Blocks(d: Daemon, now: Tick) {
    now >= d.lastTime && !(d.current != [] && d.current[0].value <= now) && d.queue == []
  }

  /** One turn of prvProcessReceivedCommands. */
  function ProcessCommand(d: Daemon, now: Tick): Daemon
    requires d.queue != []
  {
    var c := d.queue[0];
    var d1 := d.(queue := d.queue[1..], current := Without(d.current, c.timer), overflow := Without(d.overflow, c.timer));
    var d2 := Sample(d1, now);
    var timer := TimerOf(d2.timers, c.timer);
    match c
    case Start(t, v) =>
      var e := Add(v, timer.period);
      if ProcessNow(timer.period, e, now, v) then
        var d3 := Fire(d2, t);
        if timer.autoReload then Post(d3, Start(t, e)) else d3
      else Place(d2, t, e, now)
    case Stop(_) => d2
    case ChangePeriod(t, period) =>
      var d3 := d2.(timers := d2.timers[t := timer.(period := period)]);
      var e := Add(now, period);
      if ProcessNow(period, e, now, now) then d3 else Place(d3, t, e, now)
    case Delete(t) => d2.(timers := d2.timers - {t})
  }

  /** How long the daemon sleeps, and whether it does so indefinitely. */
  function SleepTicks(d: Daemon, now: Tick): Tick {
    Sub(if d.current == [] then 0 else d.current[0].value, now)
  }

  predicate SleepsForever(d: Daemon) {
    d.current == [] && d.overflow == []
  }

  /** The command loop, with the time sampled at each turn, until the queue is empty or no time is left. */
  function ServeAll(d: Daemon, samples: seq<Tick>): Daemon
    decreases |samples|
  {
    if d.queue == [] || samples == [] then d else ServeAll(ProcessCommand(d, samples[0]), samples[1..])
  }

  // ---------------------------------------------------------------------------
  // The daemon as it is kept
  // ---------------------------------------------------------------------------

  class TimerDaemon {
    var timers: map<TimerId, Timer>
    var currentTimerList: seq<Entry>
    var overflowTimerList: seq<Entry>
    var timerQueue: seq<Command>
    var lastTime: Tick
    var callbacks: map<TimerId, nat>

    ghost function State(): Daemon
      reads this
    {
      Daemon(timers, currentTimerList, overflowTimerList, timerQueue, lastTime, callbacks)
    }

    constructor ()
      ensures State() == Daemon(map[], [], [], [], 0, map[])
    {
      timers, currentTimerList, overflowTimerList, timerQueue, lastTime, callbacks := map[], [], [], [], 0, map[];
    }

    method Callback(t: TimerId)
      modifies this`callbacks
      ensures State() == Fire(old(State()), t)
    {
      callbacks := callbacks[t := (if t in callbacks then callbacks[t] else 0) + 1];
    }

    method GenericCommand(c: Command)
      modifies this`timerQueue
      ensures State() == Post(old(State()), c)
    {
      timerQueue := timerQueue + [c];
    }

    method InsertTimerInActiveList(t: TimerId, nextExpiryTime: Tick, timeNow: Tick, commandTime: Tick)
      returns (processNow: bool)
      modifies this`currentTimerList, this`overflowTimerList
      ensures processNow == ProcessNow(TimerOf(timers, t).period, nextExpiryTime, timeNow, commandTime)
      ensures State() == if processNow then old(State()) else Place(old(State()), t, nextExpiryTime, timeNow)
    {
      processNow := false;
      if nextExpiryTime <= timeNow {
        if Sub(timeNow, commandTime) >= TimerOf(timers, t).period {
          processNow := true;
        } else {
          overflowTimerList := FileIn(overflowTimerList, Entry(t, nextExpiryTime));
        }
      } else {
        if timeNow < commandTime && nextExpiryTime >= commandTime {
          processNow := true;
        } else {
          currentTimerList := FileIn(currentTimerList, Entry(t, nextExpiryTime));
        }
      }
    }

    method ProcessExpiredTimer(nextExpireTime: Tick, timeNow: Tick)
      requires currentTimerList != [] && nextExpireTime == currentTimerList[0].value
      modifies this
      ensures State() == ProcessExpired(old(State()), timeNow)
    {
      var t := currentTimerList[0].timer;
      var timer := TimerOf(timers, t);
      currentTimerList := currentTimerList[1..];
      if timer.autoReload {
        var processNow := InsertTimerInActiveList(t, Add(nextExpireTime, timer.period), timeNow, nextExpireTime);
        if processNow {
          GenericCommand(Start(t, nextExpireTime));
        }
      }
      Callback(t);
    }

    /** Timers still in the current list have all expired; they are called back before the lists change roles. */
    method SwitchTimerLists()
      modifies this
      ensures State() == SwitchLists(old(State()))
    {
      ghost var d := State();
      while currentTimerList != []
        invariant Drain(State()) == Drain(d)
        decreases TicksLeft(currentTimerList)
      {
        DrainShrinks(State());
        ghost var d1 := State();
        var nextExpireTime, t := currentTimerList[0].value, currentTimerList[0].timer;
        currentTimerList := currentTimerList[1..];
        Callback(t);
        var timer := TimerOf(timers, t);
        if timer.autoReload {
          var reloadTime := Add(nextExpireTime, timer.period);
          if reloadTime > nextExpireTime {
            currentTimerList := FileIn(currentTimerList, Entry(t, reloadTime));
          } else {
            GenericCommand(Start(t, nextExpireTime));
          }
        }
        assert State() == DrainOne(d1);
      }
      currentTimerList, overflowTimerList := overflowTimerList, currentTimerList;
    }

    method SampleTimeNow(tickCount: Tick) returns (switched: bool)
      modifies this
      ensures switched <==> tickCount < old(lastTime)
      ensures State() == Sample(old(State()), tickCount)
    {
      switched := tickCount < lastTime;
      if switched {
        SwitchTimerLists();
      }
      lastTime := tickCount;
    }

    method ProcessTimerOrBlockTask(tickCount: Tick)
      returns (blocks: bool, ticks: Tick, indefinitely: bool)
      modifies this
      ensures State() == TimerPhase(old(State()), tickCount)
      ensures blocks == Blocks(old(State()), tickCount)
      ensures blocks ==> ticks == SleepTicks(State(), tickCount) && indefinitely == SleepsForever(State())
    {
      blocks, ticks, indefinitely := false, 0, false;
      var listWasEmpty := currentTimerList == [];
      var nextExpireTime: Tick := if listWasEmpty then 0 else currentTimerList[0].value;
      var switched := SampleTimeNow(tickCount);
      if !switched {
        if !listWasEmpty && nextExpireTime <= tickCount {
          ProcessExpiredTimer(nextExpireTime, tickCount);
        } else {
          if listWasEmpty {
            listWasEmpty := overflowTimerList == [];
          }
          blocks := timerQueue == [];
          ticks, indefinitely := Sub(nextExpireTime, tickCount), listWasEmpty;
        }
      }
    }

    method ProcessReceivedCommand(tickCount: Tick)
      requires timerQueue != []
      modifies this
      ensures State() == ProcessCommand(old(State()), tickCount)
    {
      var c := timerQueue[0];
      timerQueue := timerQueue[1..];
      currentTimerList := Without(currentTimerList, c.timer);
      overflowTimerList := Without(overflowTimerList, c.timer);
      var switched := SampleTimeNow(tickCount);
      var timer := TimerOf(timers, c.timer);
      match c
      case Start(t, v) =>
        var processNow := InsertTimerInActiveList(t, Add(v, timer.period), tickCount, v);
        if processNow {
          Callback(t);
          if timer.autoReload {
            GenericCommand(Start(t, Add(v, timer.period)));
          }
        }
      case Stop(_) =>
      case ChangePeriod(t, period) =>
        timers := timers[t := timer.(period := period)];
        var processNow := InsertTimerInActiveList(t, Add(tickCount, period), tickCount, tickCount);
      case Delete(t) =>
        timers := timers - {t};
    }

    method ProcessReceivedCommands(samples: seq<Tick>)
      modifies this
      ensures State() == ServeAll(old(State()), samples)
    {
      ghost var d := State();
      var i := 0;
      while timerQueue != [] && i < |samples|
        invariant 0 <= i <= |samples|
        invariant ServeAll(State(), samples[i..]) == ServeAll(d, samples)
        decreases |samples| - i
      {
        assert samples[i..][1..] == samples[i + 1..];
        ProcessReceivedCommand(samples[i]);
        i := i + 1;
      }
    }
  }
}
