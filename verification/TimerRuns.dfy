/**
 Exact callbacks: however late the daemon runs, whenever it goes to sleep at time N an auto-reload timer started at
 time C with period p has been called back exactly (N - C) / p times, and a one-shot timer exactly once if its time
 has come.  A restart or a new period counts from its own time on, and a stopped or deleted timer is silent.
 */
module TimerRuns {
  import Division
  import Kernels
  import KernelSteps
  import Rings
  import opened Ticks
  import opened Timers

  /** A timer under observation: when it was last started, and its callbacks before that. */
  datatype Watch = Watch(timer: TimerId, period: Period, autoReload: bool, start: nat, before: nat)

  /** The absolute time of the k-th expiry. */
  function Due(w: Watch, k: nat): nat {
    w.start + k * w.period
  }

  lemma DueNext(w: Watch, k: nat)
    ensures Due(w, k + 1) == Due(w, k) + w.period
  {
    assert (k + 1) * w.period == k * w.period + w.period;
  }

  function Calls(d: Daemon, w: Watch): int {
    FiredOf(d, w.timer) - w.before
  }

  /** Nothing about t is on record: neither filed nor commanded. */
  ghost predicate Silent(d: Daemon, t: TimerId) {
    Orders(d.queue, t) == [] && Filed(d.current, t) == [] && Filed(d.overflow, t) == []
  }

  /** A restart is on its way, carrying the time of the last expiry. */
  ghost predicate Pending(d: Daemon, w: Watch, k: nat) {
    && Orders(d.queue, w.timer) == [Start(w.timer, Of(Due(w, k)))]
    && Filed(d.current, w.timer) == [] && Filed(d.overflow, w.timer) == []
  }

  /** The next expiry is filed in the list of its epoch, where `epoch` is when the current one began. */
  ghost predicate Waiting(d: Daemon, w: Watch, k: nat, epoch: nat) {
    && Orders(d.queue, w.timer) == []
    && ((|Filed(d.current, w.timer)| == 1 && Filed(d.overflow, w.timer) == []
         && Due(w, k + 1) == epoch + Filed(d.current, w.timer)[0])
        || (|Filed(d.overflow, w.timer)| == 1 && Filed(d.current, w.timer) == []
            && Due(w, k + 1) == epoch + TICKS + Filed(d.overflow, w.timer)[0]))
  }

  /**
   The timer has made k callbacks, none of them early, and its next expiry is on record exactly once, unless it is a
   one-shot timer that has had its callback.
   */
  ghost predicate OnTime(d: Daemon, w: Watch, epoch: nat, limit: nat) {
    && Of(epoch) == 0
    && w.timer in d.timers && d.timers[w.timer] == Timer(w.period, w.autoReload)
    && Calls(d, w) >= 0
    && (Calls(d, w) > 0 ==> Due(w, Calls(d, w)) <= limit)
    && (if !w.autoReload && Calls(d, w) > 0 then Calls(d, w) == 1 && Silent(d, w.timer)
        else Pending(d, w, Calls(d, w)) || Waiting(d, w, Calls(d, w), epoch))
  }

  ghost predicate Ordered(d: Daemon) {
    InOrder(d.current) && InOrder(d.overflow)
  }

  /** Between two activities of the daemon, the later of which sampled the clock at absolute time `last`. */
  ghost predicate Watching(d: Daemon, w: Watch, last: nat) {
    Of(last) == d.lastTime && Ordered(d) && OnTime(d, w, EpochStart(last), last)
  }

  lemma EpochOf(epoch: nat, v: Tick)
    requires Of(epoch) == 0
    ensures Of(epoch + v) == v && EpochStart(epoch + v) == epoch
  {
    AddDuration(epoch, v);
  }

  lemma EpochZero(time: nat)
    ensures Of(EpochStart(time)) == 0 && EpochStart(EpochStart(time)) == EpochStart(time)
  {
    Division.Unique(EpochStart(time), TICKS, time / TICKS, 0);
  }

  // ---------------------------------------------------------------------------
  // What other timers do leaves the watched one alone
  // ---------------------------------------------------------------------------

  /** Everything on record about t is the same. */
  ghost predicate SameRecord(d: Daemon, d': Daemon, t: TimerId) {
    && Orders(d'.queue, t) == Orders(d.queue, t)
    && Filed(d'.current, t) == Filed(d.current, t) && Filed(d'.overflow, t) == Filed(d.overflow, t)
    && FiredOf(d', t) == FiredOf(d, t)
    && (t in d'.timers <==> t in d.timers) && (t in d.timers ==> d'.timers[t] == d.timers[t])
  }

  lemma SameOnTime(d: Daemon, d': Daemon, w: Watch, epoch: nat, limit: nat)
    requires OnTime(d, w, epoch, limit) && SameRecord(d, d', w.timer)
    ensures OnTime(d', w, epoch, limit)
  {
  }

  lemma OthersFile(d: Daemon, u: TimerId, v: Tick, t: TimerId)
    requires u != t
    ensures SameRecord(d, FileCurrent(d, u, v), t) && SameRecord(d, FileOverflow(d, u, v), t)
  {
    FiledInserted(d.current, Entry(u, v), t);
    FiledInserted(d.overflow, Entry(u, v), t);
  }

  lemma OthersPost(d: Daemon, c: Command, t: TimerId)
    requires c.timer != t
    ensures SameRecord(d, Post(d, c), t)
  {
    OrdersConcat(d.queue, [c], t);
  }

  // ---------------------------------------------------------------------------
  // Emptying the current list when the tick has wrapped
  // ---------------------------------------------------------------------------

  lemma DrainOneOthers(d: Daemon, t: TimerId)
    requires d.current != [] && d.current[0].timer != t
    ensures SameRecord(d, DrainOne(d), t)
  {
    var u, v := d.current[0].timer, d.current[0].value;
    var d1 := Fire(d.(current := d.current[1..]), u);
    OthersFile(d1, u, Add(v, TimerOf(d.timers, u).period), t);
    OthersPost(d1, Start(u, v), t);
  }

  lemma DrainOneOnTime(d: Daemon, w: Watch, epoch: nat, limit: nat)
    requires OnTime(d, w, epoch, limit) && d.current != [] && epoch + TICKS <= limit + 1
    ensures OnTime(DrainOne(d), w, epoch, limit)
  {
    if d.current[0].timer != w.timer {
      DrainOneOthers(d, w.timer);
      SameOnTime(d, DrainOne(d), w, epoch, limit);
    } else {
      DrainOneWatched(d, w, epoch, limit);
    }
  }

  lemma DrainOneWatched(d: Daemon, w: Watch, epoch: nat, limit: nat)
    requires OnTime(d, w, epoch, limit) && d.current != [] && epoch + TICKS <= limit + 1
    requires d.current[0].timer == w.timer
    ensures OnTime(DrainOne(d), w, epoch, limit)
  {
    hide Due, Of;
    var k := Calls(d, w);
    var t, v := w.timer, d.current[0].value;
    assert Filed(d.current, t) == [v] + Filed(d.current[1..], t);
    assert Filed(d.current[1..], t) == [];
    assert Due(w, k + 1) == epoch + v;
    DueNext(w, k + 1);
    EpochOf(epoch, v);
    var d1 := Fire(d.(current := d.current[1..]), t);
    FiledInserted(d1.current, Entry(t, Add(v, w.period)), t);
    OrdersConcat(d1.queue, [Start(t, v)], t);
  }

  lemma {:induction false} DrainOnTime(d: Daemon, w: Watch, epoch: nat, limit: nat)
    requires OnTime(d, w, epoch, limit) && epoch + TICKS <= limit + 1
    ensures OnTime(Drain(d), w, epoch, limit)
    decreases TicksLeft(d.current)
  {
    hide OnTime, DrainOne;
    if d.current != [] {
      DrainShrinks(d);
      DrainOneOnTime(d, w, epoch, limit);
      DrainOnTime(DrainOne(d), w, epoch, limit);
    }
  }

  lemma SwitchOnTime(d: Daemon, w: Watch, epoch: nat, limit: nat)
    requires OnTime(d, w, epoch, limit) && epoch + TICKS <= limit + 1
    ensures OnTime(SwitchLists(d), w, epoch + TICKS, limit)
  {
    hide Drain, Due;
    DrainOnTime(d, w, epoch, limit);
    NextEpoch(epoch);
  }

  lemma NextEpoch(epoch: nat)
    requires Of(epoch) == 0
    ensures Of(epoch + TICKS) == 0
  {
    AddDuration(epoch, MAX_DELAY);
    AddDuration(epoch + MAX_DELAY, 1);
  }

  // ---------------------------------------------------------------------------
  // Sampling the time
  // ---------------------------------------------------------------------------

  lemma {:induction false} DrainOrdered(d: Daemon)
    requires Ordered(d)
    ensures Ordered(Drain(d))
    decreases TicksLeft(d.current)
  {
    if d.current != [] {
      DrainShrinks(d);
      FileInOrder(d.current[1..], Entry(d.current[0].timer, Add(d.current[0].value, TimerOf(d.timers, d.current[0].timer).period)));
      DrainOrdered(DrainOne(d));
    }
  }

  /** The sample notices a wrap exactly when there was one. */
  lemma WrapSeen(last: nat, now: nat)
    requires last <= now < last + TICKS
    ensures Of(now) < Of(last) <==> EpochStart(now) == EpochStart(last) + TICKS
    ensures Of(now) >= Of(last) <==> EpochStart(now) == EpochStart(last)
  {
    AddDuration(last, now - last);
  }

  lemma SampleWatching(d: Daemon, w: Watch, last: nat, now: nat)
    requires Watching(d, w, last) && last <= now < last + TICKS
    ensures Watching(Sample(d, Of(now)), w, now)
  {
    hide Drain, Pending, Waiting, InOrder, Of, EpochStart, Due;
    WrapSeen(last, now);
    if Of(now) < d.lastTime {
      LaterLimit(d, w, EpochStart(last), last, now);
      SwitchOnTime(d, w, EpochStart(last), now);
      DrainOrdered(d);
      SameOnTime(SwitchLists(d), Sample(d, Of(now)), w, EpochStart(now), now);
    } else {
      LaterLimit(d, w, EpochStart(last), last, now);
      SameOnTime(d, Sample(d, Of(now)), w, EpochStart(now), now);
    }
  }

  lemma LaterLimit(d: Daemon, w: Watch, epoch: nat, limit: nat, limit': nat)
    requires OnTime(d, w, epoch, limit) && limit <= limit'
    ensures OnTime(d, w, epoch, limit')
  {
  }

  // ---------------------------------------------------------------------------
  // An expired timer, and the timer phase
  // ---------------------------------------------------------------------------

  /** A timer whose k-th expiry has just been dealt with: restarted at once if late, otherwise filed. */
  lemma Reloaded(d: Daemon, w: Watch, k: nat, now: nat, d': Daemon)
    requires w.timer in d.timers && d.timers[w.timer] == Timer(w.period, true)
    requires Orders(d.queue, w.timer) == [] && Filed(d.current, w.timer) == [] && Filed(d.overflow, w.timer) == []
    requires Due(w, k) <= now < Due(w, k) + TICKS
    requires var v := Of(Due(w, k));
             var e := Add(v, w.period);
             d' == if ProcessNow(w.period, e, Of(now), v) then Post(d, Start(w.timer, v)) else Place(d, w.timer, e, Of(now))
    ensures Pending(d', w, k) || Waiting(d', w, k, EpochStart(now))
    ensures d' == d.(queue := d'.queue, current := d'.current, overflow := d'.overflow)
  {
    hide Due, Of, EpochStart;
    var t, v := w.timer, Of(Due(w, k));
    var e := Add(v, w.period);
    DueNext(w, k);
    PlacementExact(Due(w, k), w.period, now);
    EpochAndTick(Due(w, k + 1));
    OrdersConcat(d.queue, [Start(t, v)], t);
    FiledInserted(d.current, Entry(t, e), t);
    FiledInserted(d.overflow, Entry(t, e), t);
  }

  lemma EpochAndTick(time: nat)
    ensures EpochStart(time) + Of(time) == time
  {
  }

  /** The watched timer at the head, expired: it is on record nowhere else, and its head entry is its next expiry. */
  lemma HeadWatched(d: Daemon, w: Watch, now: nat)
    requires Watching(d, w, now) && d.current != [] && d.current[0].timer == w.timer && d.current[0].value <= Of(now)
    ensures Calls(d, w) >= 0 && (!w.autoReload ==> Calls(d, w) == 0)
    ensures w.timer in d.timers && d.timers[w.timer] == Timer(w.period, w.autoReload)
    ensures Orders(d.queue, w.timer) == [] && Filed(d.current[1..], w.timer) == [] && Filed(d.overflow, w.timer) == []
    ensures Due(w, Calls(d, w) + 1) == EpochStart(now) + d.current[0].value && Of(EpochStart(now)) == 0
    ensures Due(w, Calls(d, w) + 1) <= now < Due(w, Calls(d, w) + 1) + TICKS
  {
    hide Due, Of, EpochStart;
    assert Filed(d.current, w.timer) == [d.current[0].value] + Filed(d.current[1..], w.timer);
    EpochAndTick(now);
  }

  lemma ExpiredWatched(d: Daemon, w: Watch, now: nat)
    requires Watching(d, w, now) && d.current != [] && d.current[0].timer == w.timer && d.current[0].value <= Of(now)
    ensures OnTime(ProcessExpired(d, Of(now)), w, EpochStart(now), now)
  {
    hide Due, Of, EpochStart, Place, ProcessNow, Watching, Filed, Orders, Pending, Waiting;
    var k := Calls(d, w);
    var t, v := w.timer, d.current[0].value;
    HeadWatched(d, w, now);
    EpochOf(EpochStart(now), v);
    var d1 := d.(current := d.current[1..]);
    if w.autoReload {
      var e := Add(v, w.period);
      var d2 := if ProcessNow(w.period, e, Of(now), v) then Post(d1, Start(t, v)) else Place(d1, t, e, Of(now));
      Reloaded(d1, w, k + 1, now, d2);
      FiredOnce(d2, w, k + 1, now);
    }
  }

  lemma FiredOnce(d: Daemon, w: Watch, k: nat, now: nat)
    requires Pending(d, w, k) || Waiting(d, w, k, EpochStart(now))
    ensures Pending(Fire(d, w.timer), w, k) || Waiting(Fire(d, w.timer), w, k, EpochStart(now))
  {
  }

  lemma ExpiredOthers(d: Daemon, t: TimerId, now: Tick)
    requires d.current != [] && d.current[0].timer != t
    ensures SameRecord(d, ProcessExpired(d, now), t)
  {
    var u, v := d.current[0].timer, d.current[0].value;
    var d1 := d.(current := d.current[1..]);
    OthersFile(d1, u, Add(v, TimerOf(d.timers, u).period), t);
    OthersPost(d1, Start(u, v), t);
  }

  lemma ExpiredOrdered(d: Daemon, now: Tick)
    requires Ordered(d) && d.current != []
    ensures Ordered(ProcessExpired(d, now)) && ProcessExpired(d, now).lastTime == d.lastTime
  {
    var e := Entry(d.current[0].timer, Add(d.current[0].value, TimerOf(d.timers, d.current[0].timer).period));
    FileInOrder(d.current[1..], e);
    FileInOrder(d.overflow, e);
  }

  lemma ExpiredWatching(d: Daemon, w: Watch, now: nat)
    requires Watching(d, w, now) && d.current != [] && d.current[0].value <= Of(now)
    ensures Watching(ProcessExpired(d, Of(now)), w, now)
  {
    hide OnTime, Ordered, ProcessExpired;
    ExpiredOrdered(d, Of(now));
    if d.current[0].timer == w.timer {
      ExpiredWatched(d, w, now);
    } else {
      ExpiredOthers(d, w.timer, Of(now));
      SameOnTime(d, ProcessExpired(d, Of(now)), w, EpochStart(now), now);
    }
  }

  lemma PhaseWatching(d: Daemon, w: Watch, last: nat, now: nat)
    requires Watching(d, w, last) && last <= now < last + TICKS
    ensures Watching(TimerPhase(d, Of(now)), w, now)
  {
    hide OnTime, Ordered, ProcessExpired, SwitchLists, Of;
    SampleWatching(d, w, last, now);
    if Of(now) >= d.lastTime && d.current != [] && d.current[0].value <= Of(now) {
      ExpiredWatching(Sample(d, Of(now)), w, now);
    }
  }

  // ---------------------------------------------------------------------------
  // Commands
  // ---------------------------------------------------------------------------

  /** A command about another timer. */
  lemma CommandOthers(d: Daemon, t: TimerId, now: Tick, d2: Daemon, d3: Daemon)
    requires d.queue != [] && d.queue[0].timer != t
    requires var c := d.queue[0];
             d2 == d.(queue := d.queue[1..], current := Without(d.current, c.timer), overflow := Without(d.overflow, c.timer))
    requires d3 == Sample(d2, now)
    ensures SameRecord(d, d2, t) && SameRecord(d3, ProcessCommand(d, now), t)
  {
    hide Sample, ProcessNow, FileIn, Without, Filed, Orders;
    assert Orders(d.queue[1..], t) == Orders(d.queue, t) by { OrdersTail(d.queue, t); }
    var c := d.queue[0];
    FiledWithout(d.current, c.timer, t);
    FiledWithout(d.overflow, c.timer, t);
    var timer := TimerOf(d3.timers, c.timer);
    match c
    case Start(u, v) =>
      var e := Add(v, timer.period);
      OthersFile(d3, u, e, t);
      OthersPost(Fire(d3, u), Start(u, e), t);
    case Stop(_) =>
    case ChangePeriod(u, period) => OthersFile(d3.(timers := d3.timers[u := timer.(period := period)]), u, Add(now, period), t);
    case Delete(_) =>
  }

  lemma OrdersTail(queue: seq<Command>, t: TimerId)
    requires queue != [] && queue[0].timer != t
    ensures Orders(queue[1..], t) == Orders(queue, t)
  {
  }

  lemma CommandOrdered(d: Daemon, now: Tick)
    requires Ordered(d) && d.queue != []
    ensures Ordered(ProcessCommand(d, now)) && ProcessCommand(d, now).lastTime == now
  {
    hide ProcessNow, Drain, FileIn, Without, InOrder;
    var c := d.queue[0];
    var d1 := d.(queue := d.queue[1..], current := Without(d.current, c.timer), overflow := Without(d.overflow, c.timer));
    WithoutInOrder(d.current, c.timer);
    WithoutInOrder(d.overflow, c.timer);
    DrainOrdered(d1);
    var d2 := Sample(d1, now);
    var timer := TimerOf(d2.timers, c.timer);
    var e := match c
      case Start(u, v) => Entry(u, Add(v, timer.period))
      case ChangePeriod(u, period) => Entry(u, Add(now, period))
      case _ => Entry(c.timer, 0);
    FileInOrder(d2.current, e);
    FileInOrder(d2.overflow, e);
  }

  /** The watched timer's own start command, processed less than a wrap after the time it carries. */
  lemma CommandWatched(d: Daemon, w: Watch, last: nat, now: nat)
    requires Watching(d, w, last) && last <= now < last + TICKS && w.start <= now
    requires d.queue != [] && d.queue[0].timer == w.timer && now < Due(w, Calls(d, w)) + TICKS
    ensures OnTime(ProcessCommand(d, Of(now)), w, EpochStart(now), now)
  {
    hide Due, Of, EpochStart, Sample, ProcessNow, Without, Drain;
    var t, k := w.timer, Calls(d, w);
    var d1 := d.(queue := d.queue[1..], current := Without(d.current, t), overflow := Without(d.overflow, t));
    StartRecord(d, w, last, d1);
    SampleQuiet(d1, w, k, last, now);
    var d2 := Sample(d1, Of(now));
    var v := Of(Due(w, k));
    DueNow(w, k, last, now);
    DueNext(w, k);
    PlacementExact(Due(w, k), w.period, now);
    StartPlaced(d2, w, k, now, ProcessCommand(d, Of(now)));
  }

  lemma DueNow(w: Watch, k: nat, last: nat, now: nat)
    requires w.start <= now && (k > 0 ==> Due(w, k) <= last) && last <= now
    ensures Due(w, k) <= now
  {
  }

  /** The timer is nowhere on record while its command is being processed. */
  ghost predicate OffRecord(d: Daemon, w: Watch, k: nat) {
    && w.timer in d.timers && d.timers[w.timer] == Timer(w.period, w.autoReload) && Calls(d, w) == k
    && Silent(d, w.timer)
  }

  lemma StartRecord(d: Daemon, w: Watch, last: nat, d1: Daemon)
    requires Watching(d, w, last) && d.queue != [] && d.queue[0].timer == w.timer
    requires d1 == d.(queue := d.queue[1..], current := Without(d.current, w.timer), overflow := Without(d.overflow, w.timer))
    ensures d.queue[0] == Start(w.timer, Of(Due(w, Calls(d, w)))) && OffRecord(d1, w, Calls(d, w))
    ensures !w.autoReload ==> Calls(d, w) == 0
    ensures Calls(d, w) > 0 ==> Due(w, Calls(d, w)) <= last
  {
    hide Due, Of, EpochStart;
    assert Orders(d.queue, w.timer) == [d.queue[0]] + Orders(d.queue[1..], w.timer);
    assert |Orders(d.queue, w.timer)| == 1 + |Orders(d.queue[1..], w.timer)|;
    assert Orders(d.queue, w.timer)[0] == d.queue[0];
    FiledWithout(d.current, w.timer, w.timer);
    FiledWithout(d.overflow, w.timer, w.timer);
  }

  lemma {:induction false} DrainQuiet(d: Daemon, w: Watch, k: nat)
    requires OffRecord(d, w, k)
    ensures OffRecord(Drain(d), w, k)
    decreases TicksLeft(d.current)
  {
    hide DrainOne;
    if d.current != [] {
      DrainShrinks(d);
      assert d.current[0].timer != w.timer;
      DrainOneOthers(d, w.timer);
      DrainQuiet(DrainOne(d), w, k);
    }
  }

  lemma SampleQuiet(d: Daemon, w: Watch, k: nat, last: nat, now: nat)
    requires OffRecord(d, w, k)
    ensures OffRecord(Sample(d, Of(now)), w, k)
  {
    hide Drain;
    DrainQuiet(d, w, k);
  }

  lemma StartPlaced(d2: Daemon, w: Watch, k: nat, now: nat, d': Daemon)
    requires OffRecord(d2, w, k) && Due(w, k) <= now < Due(w, k) + TICKS && Calls(d2, w) == k && (!w.autoReload ==> k == 0)
    requires var v := Of(Due(w, k));
             var e := Add(v, w.period);
             d' == if ProcessNow(w.period, e, Of(now), v)
                   then (if w.autoReload then Post(Fire(d2, w.timer), Start(w.timer, e)) else Fire(d2, w.timer))
                   else Place(d2, w.timer, e, Of(now))
    ensures OnTime(d', w, EpochStart(now), now)
  {
    hide Due, Of, EpochStart;
    var t, v := w.timer, Of(Due(w, k));
    var e := Add(v, w.period);
    DueNext(w, k);
    EpochZero(now);
    PlacementExact(Due(w, k), w.period, now);
    EpochAndTick(Due(w, k + 1));
    OrdersConcat(d2.queue, [Start(t, e)], t);
    FiledInserted(d2.current, Entry(t, e), t);
    FiledInserted(d2.overflow, Entry(t, e), t);
  }

  /** The watched timer's command is not left lying for a whole wrap. */
  ghost predicate Prompt(d: Daemon, w: Watch, now: nat) {
    d.queue != [] && d.queue[0].timer == w.timer ==> now < Due(w, if Calls(d, w) >= 0 then Calls(d, w) else 0) + TICKS
  }

  lemma CommandWatching(d: Daemon, w: Watch, last: nat, now: nat)
    requires Watching(d, w, last) && last <= now < last + TICKS && w.start <= now
    requires d.queue != [] && Prompt(d, w, now)
    ensures Watching(ProcessCommand(d, Of(now)), w, now)
  {
    hide OnTime, ProcessCommand, Due, InOrder, Of, EpochStart;
    CommandOrdered(d, Of(now));
    if d.queue[0].timer == w.timer {
      CallsNatural(d, w, last);
      CommandWatched(d, w, last, now);
    } else {
      CommandOtherWatching(d, w, last, now);
    }
  }

  lemma CallsNatural(d: Daemon, w: Watch, last: nat)
    requires Watching(d, w, last)
    ensures Calls(d, w) >= 0
  {
  }

  lemma CommandOtherWatching(d: Daemon, w: Watch, last: nat, now: nat)
    requires Watching(d, w, last) && last <= now < last + TICKS
    requires d.queue != [] && d.queue[0].timer != w.timer
    ensures OnTime(ProcessCommand(d, Of(now)), w, EpochStart(now), now)
  {
    hide OnTime, Of, EpochStart, SameRecord, ProcessCommand, Sample, InOrder;
    var c := d.queue[0];
    var d2 := d.(queue := d.queue[1..], current := Without(d.current, c.timer), overflow := Without(d.overflow, c.timer));
    var d3 := Sample(d2, Of(now));
    CommandOthers(d, w.timer, Of(now), d2, d3);
    WithoutInOrder(d.current, c.timer);
    WithoutInOrder(d.overflow, c.timer);
    SameOnTime(d, d2, w, EpochStart(last), last);
    SampleWatching(d2, w, last, now);
    SameOnTime(d3, ProcessCommand(d, Of(now)), w, EpochStart(now), now);
  }

  lemma PostWatching(d: Daemon, w: Watch, last: nat, c: Command)
    requires Watching(d, w, last) && c.timer != w.timer
    ensures Watching(Post(d, c), w, last)
  {
    hide OnTime;
    OthersPost(d, c, w.timer);
    SameOnTime(d, Post(d, c), w, EpochStart(last), last);
  }

  // ---------------------------------------------------------------------------
  // Whole runs
  // ---------------------------------------------------------------------------

  /** What happens to the daemon: a task or interrupt posts a command, or the daemon runs one of its phases. */
  datatype Activity = Posted(command: Command) | Phase(now: nat) | Served(now: nat)

  /**
   The hypotheses: nobody else commands the watched timer, the daemon samples the clock at least once a
   wrap, and it does not leave the timer's own start command lying for a whole wrap.
   */
  ghost predicate Timely(d: Daemon, w: Watch, last: nat, a: Activity) {
    match a
    case Posted(c) => c.timer != w.timer
    case Phase(now) => last <= now < last + TICKS
    case Served(now) => last <= now < last + TICKS && w.start <= now && d.queue != [] && Prompt(d, w, now)
  }

  function Perform(d: Daemon, a: Activity): Daemon
    requires a.Served? ==> d.queue != []
  {
    match a
    case Posted(c) => Post(d, c)
    case Phase(now) => TimerPhase(d, Of(now))
    case Served(now) => ProcessCommand(d, Of(now))
  }

  function LastAfter(last: nat, a: Activity): nat {
    if a.Posted? then last else a.now
  }

  ghost predicate Runs(d: Daemon, w: Watch, last: nat, run: seq<Activity>, d': Daemon, last': nat)
    decreases |run|
  {
    if run == [] then d' == d && last' == last
    else Timely(d, w, last, run[0]) && Runs(Perform(d, run[0]), w, LastAfter(last, run[0]), run[1..], d', last')
  }

  lemma {:induction false} RunWatching(d: Daemon, w: Watch, last: nat, run: seq<Activity>, d': Daemon, last': nat)
    requires Watching(d, w, last) && Runs(d, w, last, run, d', last')
    ensures Watching(d', w, last')
    decreases |run|
  {
    hide Watching, TimerPhase, ProcessCommand, Post, Prompt;
    if run != [] {
      match run[0] {
        case Posted(c) => PostWatching(d, w, last, c);
        case Phase(now) => PhaseWatching(d, w, last, now);
        case Served(now) => CommandWatching(d, w, last, now);
      }
      RunWatching(Perform(d, run[0]), w, LastAfter(last, run[0]), run[1..], d', last');
    }
  }

  /** Observation starts when the timer, inactive so far, is sent its start command. */
  lemma StartWatching(d: Daemon, w: Watch, last: nat)
    requires Of(last) == d.lastTime && Ordered(d) && w.before == FiredOf(d, w.timer) && OffRecord(d, w, 0)
    ensures Watching(Post(d, Start(w.timer, Of(w.start))), w, last)
  {
    hide Of, EpochStart;
    EpochZero(last);
    OrdersConcat(d.queue, [Start(w.timer, Of(w.start))], w.timer);
    assert Due(w, 0) == w.start;
  }

  /** How often the timer is to have been called back by a given time. */
  function Expected(w: Watch, now: nat): nat
    requires w.start <= now
  {
    if w.autoReload then (now - w.start) / w.period else if now >= w.start + w.period then 1 else 0
  }

  /** A one-shot timer that has had its callback. */
  predicate Spent(d: Daemon, w: Watch) {
    !w.autoReload && Calls(d, w) > 0
  }

  /** While the daemon finds nothing to do, the watched timer's next expiry lies ahead. */
  lemma NextAhead(d: Daemon, w: Watch, last: nat, now: nat)
    requires Watching(d, w, last) && last <= now < last + TICKS && Blocks(d, Of(now)) && !Spent(d, w)
    ensures Calls(d, w) >= 0 && now < Due(w, Calls(d, w) + 1)
  {
    hide Due, Of, EpochStart;
    var k := Calls(d, w);
    WrapSeen(last, now);
    EpochAndTick(now);
    assert Waiting(d, w, k, EpochStart(last));
    if |Filed(d.current, w.timer)| == 1 && Filed(d.overflow, w.timer) == [] && Due(w, k + 1) == EpochStart(last) + Filed(d.current, w.timer)[0] {
      var v := Filed(d.current, w.timer)[0];
      FiledMember(d.current, w.timer, v);
      var i :| 0 <= i < |d.current| && d.current[i] == Entry(w.timer, v);
      assert d.current[0].value <= d.current[i].value;
    }
  }

  /** Whenever the daemon goes to sleep the callbacks are exact, and a one-shot timer called back is on record nowhere. */
  lemma CallbacksExact(d: Daemon, w: Watch, last: nat, now: nat)
    requires Watching(d, w, last) && last <= now < last + TICKS && w.start <= now && Blocks(d, Of(now))
    ensures FiredOf(d, w.timer) == w.before + Expected(w, now)
    ensures !w.autoReload && now >= w.start + w.period ==> Silent(d, w.timer)
  {
    NotEarly(d, w, last);
    var k := Calls(d, w);
    if Spent(d, w) {
      assert Due(w, 1) == w.start + w.period;
    } else {
      hide Watching, Blocks;
      NextAhead(d, w, last, now);
      DueNow(w, k, last, now);
      ExpectedIs(w, k, now);
    }
  }

  lemma NotEarly(d: Daemon, w: Watch, last: nat)
    requires Watching(d, w, last)
    ensures Calls(d, w) >= 0 && (Calls(d, w) > 0 ==> Due(w, Calls(d, w)) <= last)
    ensures !w.autoReload && Calls(d, w) > 0 ==> Calls(d, w) == 1 && Silent(d, w.timer)
  {
  }

  /** Filed in a list, or with no expiry outstanding from the epoch that is ending. */
  ghost predicate CatchingUp(d: Daemon, w: Watch, epoch: nat) {
    && Calls(d, w) >= 0
    && (Waiting(d, w, Calls(d, w), epoch) || Spent(d, w) || Due(w, Calls(d, w) + 1) >= epoch + TICKS)
  }

  lemma DrainOneCatchesUp(d: Daemon, w: Watch, epoch: nat, limit: nat)
    requires OnTime(d, w, epoch, limit) && d.current != [] && CatchingUp(d, w, epoch)
    ensures CatchingUp(DrainOne(d), w, epoch)
  {
    if d.current[0].timer != w.timer {
      hide DrainOne, OnTime;
      DrainOneOthers(d, w.timer);
    } else {
      HeadCatchesUp(d, w, epoch, limit);
    }
  }

  lemma HeadCatchesUp(d: Daemon, w: Watch, epoch: nat, limit: nat)
    requires OnTime(d, w, epoch, limit) && d.current != [] && d.current[0].timer == w.timer
    ensures CatchingUp(DrainOne(d), w, epoch)
  {
    hide Due, Of, FileIn;
    var k := Calls(d, w);
    var t, v := w.timer, d.current[0].value;
    assert Filed(d.current, t) == [v] + Filed(d.current[1..], t);
    assert Filed(d.current[1..], t) == [];
    assert Due(w, k + 1) == epoch + v;
    DueNext(w, k + 1);
    FiledInserted(d.current[1..], Entry(t, Add(v, w.period)), t);
    var d' := DrainOne(d);
    assert Calls(d', w) == k + 1;
    if w.autoReload && v + w.period < TICKS {
      assert d' == FileCurrent(Fire(d.(current := d.current[1..]), t), t, v + w.period);
      assert Waiting(d', w, k + 1, epoch);
    }
  }

  lemma {:induction false} DrainCatchesUp(d: Daemon, w: Watch, epoch: nat, limit: nat)
    requires OnTime(d, w, epoch, limit) && epoch + TICKS <= limit + 1 && CatchingUp(d, w, epoch)
    ensures CatchingUp(Drain(d), w, epoch)
    decreases TicksLeft(d.current)
  {
    hide OnTime, DrainOne, CatchingUp;
    if d.current != [] {
      DrainShrinks(d);
      DrainOneOnTime(d, w, epoch, limit);
      DrainOneCatchesUp(d, w, epoch, limit);
      DrainCatchesUp(DrainOne(d), w, epoch, limit);
    }
  }

  lemma ExpectedIs(w: Watch, k: nat, end: nat)
    requires w.start <= end && Due(w, k) <= end && (!w.autoReload ==> k <= 1)
    requires (!w.autoReload && k > 0) || end < Due(w, k + 1)
    ensures Expected(w, end) == k
  {
    DueNext(w, k);
    if w.autoReload {
      Division.Unique(end - w.start, w.period, k, end - w.start - w.period * k);
    } else {
      assert Due(w, 1) == w.start + w.period;
    }
  }

  /** When the lists change roles a filed timer is called back, there and then, for every expiry up to the last tick. */
  lemma SwitchCallsBack(d: Daemon, w: Watch, last: nat)
    requires Watching(d, w, last) && w.start <= last && Orders(d.queue, w.timer) == []
    ensures FiredOf(SwitchLists(d), w.timer) == w.before + Expected(w, EpochStart(last) + MAX_DELAY)
  {
    hide Due, Of, EpochStart, Drain;
    var epoch := EpochStart(last);
    var end := epoch + MAX_DELAY;
    EpochAndTick(last);
    LaterLimit(d, w, epoch, last, end);
    DrainOnTime(d, w, epoch, end);
    DrainCatchesUp(d, w, epoch, end);
    var k := Calls(Drain(d), w);
    DueNow(w, k, end, end);
    ExpectedIs(w, k, end);
  }

  /** The main result: started at w.start and left alone, at any later sleep its callbacks are exact. */
  lemma StartedExact(d: Daemon, w: Watch, last: nat, run: seq<Activity>, d': Daemon, last': nat, now: nat)
    requires Of(last) == d.lastTime && Ordered(d) && w.before == FiredOf(d, w.timer) && OffRecord(d, w, 0)
    requires Runs(Post(d, Start(w.timer, Of(w.start))), w, last, run, d', last')
    requires last' <= now < last' + TICKS && w.start <= now && Blocks(d', Of(now))
    ensures FiredOf(d', w.timer) == w.before + Expected(w, now)
    ensures !w.autoReload && now >= w.start + w.period ==> Silent(d', w.timer)
  {
    hide Ordered, OffRecord, Watching, Post, Blocks;
    StartWatching(d, w, last);
    RunWatching(Post(d, Start(w.timer, Of(w.start))), w, last, run, d', last');
    CallbacksExact(d', w, last', now);
  }

  /** An auto-reload timer has been called back once for every period that has passed. */
  lemma AutoReloadExact(d: Daemon, w: Watch, last: nat, run: seq<Activity>, d': Daemon, last': nat, now: nat)
    requires Of(last) == d.lastTime && Ordered(d) && w.before == FiredOf(d, w.timer) && OffRecord(d, w, 0) && w.autoReload
    requires Runs(Post(d, Start(w.timer, Of(w.start))), w, last, run, d', last')
    requires last' <= now < last' + TICKS && w.start <= now && Blocks(d', Of(now))
    ensures FiredOf(d', w.timer) == w.before + (now - w.start) / w.period
  {
    StartedExact(d, w, last, run, d', last', now);
  }

  /** A one-shot timer has been called back once if its time has come and not at all otherwise, and is then forgotten. */
  lemma OneShotExact(d: Daemon, w: Watch, last: nat, run: seq<Activity>, d': Daemon, last': nat, now: nat)
    requires Of(last) == d.lastTime && Ordered(d) && w.before == FiredOf(d, w.timer) && OffRecord(d, w, 0) && !w.autoReload
    requires Runs(Post(d, Start(w.timer, Of(w.start))), w, last, run, d', last')
    requires last' <= now < last' + TICKS && w.start <= now && Blocks(d', Of(now))
    ensures FiredOf(d', w.timer) == w.before + if now >= w.start + w.period then 1 else 0
    ensures now >= w.start + w.period ==> Silent(d', w.timer)
  {
    StartedExact(d, w, last, run, d', last', now);
  }

  /** The daemon never oversleeps: it does not sleep for ever, and not beyond the watched timer's next expiry. */
  lemma NeverOversleeps(d: Daemon, w: Watch, last: nat, now: nat)
    requires Watching(d, w, last) && last <= now < last + TICKS && Blocks(d, Of(now)) && !Spent(d, w)
    ensures !SleepsForever(d)
    ensures Calls(d, w) >= 0 && now + SleepTicks(d, Of(now)) <= Due(w, Calls(d, w) + 1)
  {
    hide Due, Of, EpochStart;
    var k := Calls(d, w);
    WrapSeen(last, now);
    EpochAndTick(now);
    assert Waiting(d, w, k, EpochStart(last));
    if |Filed(d.current, w.timer)| == 1 && Filed(d.overflow, w.timer) == [] && Due(w, k + 1) == EpochStart(last) + Filed(d.current, w.timer)[0] {
      var v := Filed(d.current, w.timer)[0];
      FiledMember(d.current, w.timer, v);
      var i :| 0 <= i < |d.current| && d.current[i] == Entry(w.timer, v);
      assert d.current[0].value <= d.current[i].value;
    }
  }

  /**
   The daemon has to run at least once a wrap: asleep at time `last` and scheduled again exactly a wrap later, it
   sees the same tick, does nothing, and goes back to sleep with at least one callback missing.
   */
  lemma LateByAWrap(d: Daemon, w: Watch, last: nat)
    requires Watching(d, w, last) && w.start <= last && Blocks(d, Of(last)) && w.autoReload
    ensures var now := last + TICKS;
            && TimerPhase(d, Of(now)) == d && Blocks(d, Of(now))
            && FiredOf(d, w.timer) < w.before + (now - w.start) / w.period
  {
    hide Watching, Due;
    NextTurn(last);
    CallbacksExact(d, w, last, last);
    SampleOf(d, w, last);
    var now := last + TICKS;
    assert d.(lastTime := Of(now)) == d;
    OnePeriodMore(last - w.start, w.period);
  }

  lemma SampleOf(d: Daemon, w: Watch, last: nat)
    requires Watching(d, w, last)
    ensures d.lastTime == Of(last)
  {
  }

  lemma NextTurn(time: nat)
    ensures Of(time + TICKS) == Of(time)
  {
    Division.Unique(time + TICKS, TICKS, time / TICKS + 1, time % TICKS);
  }

  lemma OnePeriodMore(x: nat, p: Period)
    ensures x / p < (x + TICKS) / p
  {
    assert x + p == p * (x / p + 1) + x % p;
    Division.Unique(x + p, p, x / p + 1, x % p);
    Division.Monotone(x + p, x + TICKS, p);
  }

  /** The timer daemon asks the kernel for a wait of no ticks at tick zero alone, so its waits are all permitted. */
  lemma DaemonMayWait(k: Kernels.Kernel, idle: nat, d: Daemon, e: nat)
    requires KernelSteps.MayBlock(k, idle) && Blocks(d, k.tick)
    ensures SleepTicks(d, k.tick) == 0 <==> d.current == [] && k.tick == 0
    ensures KernelSteps.WaitEnabled(k, idle, KernelSteps.DaemonWait(e, SleepTicks(d, k.tick), SleepsForever(d)))
  {
  }

  /**
   How long it sleeps, exactly: until the next expiry of this epoch, whoever's it is, or until the tick wraps when there
   is none.
   */
  lemma SleepsUntil(d: Daemon, last: nat, now: nat)
    requires Of(last) == d.lastTime && last <= now < last + TICKS && Blocks(d, Of(now))
    ensures d.current != [] ==>
              d.current[0].value > Of(now) && now + SleepTicks(d, Of(now)) == EpochStart(now) + d.current[0].value
    ensures d.current == [] && Of(now) > 0 ==> now + SleepTicks(d, Of(now)) == EpochStart(now) + TICKS
    ensures d.current == [] && Of(now) == 0 ==> SleepTicks(d, Of(now)) == 0
    ensures SleepsForever(d) <==> d.current == [] && d.overflow == []
  {
    hide Of, EpochStart;
    EpochAndTick(now);
  }

  // ---------------------------------------------------------------------------
  // Stopping and deleting
  // ---------------------------------------------------------------------------

  /** Commands after which a timer is not running. */
  predicate Silences(c: Command) {
    c.Stop? || c.Delete?
  }

  ghost predicate OnlySilencing(orders: seq<Command>) {
    forall c :: c in orders ==> Silences(c)
  }

  /** The timer is filed nowhere, and no command on its way will start it. */
  ghost predicate Inert(d: Daemon, t: TimerId) {
    OnlySilencing(Orders(d.queue, t)) && Filed(d.current, t) == [] && Filed(d.overflow, t) == []
  }

  /** Nobody starts the timer or gives it a new period. */
  predicate LeavesStopped(a: Activity, t: TimerId) {
    a.Posted? && a.command.timer == t ==> Silences(a.command)
  }

  lemma SameInert(d: Daemon, d': Daemon, t: TimerId)
    requires Inert(d, t) && SameRecord(d, d', t)
    ensures Inert(d', t) && FiredOf(d', t) == FiredOf(d, t)
  {
  }

  lemma {:induction false} DrainInert(d: Daemon, t: TimerId)
    requires Filed(d.current, t) == []
    ensures SameRecord(d, Drain(d), t)
    decreases TicksLeft(d.current)
  {
    hide DrainOne;
    if d.current != [] {
      DrainShrinks(d);
      assert d.current[0].timer != t;
      DrainOneOthers(d, t);
      DrainInert(DrainOne(d), t);
    }
  }

  lemma SampleInert(d: Daemon, t: TimerId, now: Tick)
    requires Inert(d, t)
    ensures Inert(Sample(d, now), t) && FiredOf(Sample(d, now), t) == FiredOf(d, t)
    ensures Orders(Sample(d, now).queue, t) == Orders(d.queue, t)
  {
    hide Drain;
    DrainInert(d, t);
  }

  lemma PhaseInert(d: Daemon, t: TimerId, now: Tick)
    requires Inert(d, t)
    ensures Inert(TimerPhase(d, now), t) && FiredOf(TimerPhase(d, now), t) == FiredOf(d, t)
  {
    hide Drain, ProcessExpired;
    SampleInert(d, t, now);
    var d1 := Sample(d, now);
    if now >= d.lastTime && d.current != [] && d.current[0].value <= now {
      assert d1.current[0].timer != t;
      ExpiredOthers(d1, t, now);
      SameInert(d1, ProcessExpired(d1, now), t);
    }
  }

  lemma PostInert(d: Daemon, t: TimerId, c: Command)
    requires Inert(d, t) && (c.timer == t ==> Silences(c))
    ensures Inert(Post(d, c), t) && FiredOf(Post(d, c), t) == FiredOf(d, t)
  {
    OrdersConcat(d.queue, [c], t);
  }

  /** What is left once the head command has been taken off the queue and its timer off the lists. */
  function Dequeued(d: Daemon): Daemon
    requires d.queue != []
  {
    var t := d.queue[0].timer;
    d.(queue := d.queue[1..], current := Without(d.current, t), overflow := Without(d.overflow, t))
  }

  lemma DequeuedRecord(d: Daemon, t: TimerId)
    requires d.queue != []
    ensures Orders(d.queue, t) == (if d.queue[0].timer == t then [d.queue[0]] else []) + Orders(Dequeued(d).queue, t)
    ensures Filed(Dequeued(d).current, t) == if d.queue[0].timer == t then [] else Filed(d.current, t)
    ensures Filed(Dequeued(d).overflow, t) == if d.queue[0].timer == t then [] else Filed(d.overflow, t)
    ensures FiredOf(Dequeued(d), t) == FiredOf(d, t)
  {
    FiledWithout(d.current, d.queue[0].timer, t);
    FiledWithout(d.overflow, d.queue[0].timer, t);
  }

  lemma ServedInert(d: Daemon, t: TimerId, now: Tick)
    requires Inert(d, t) && d.queue != []
    ensures Inert(ProcessCommand(d, now), t) && FiredOf(ProcessCommand(d, now), t) == FiredOf(d, t)
  {
    hide Drain, Orders, Filed, Without;
    DequeuedRecord(d, t);
    var d1 := Dequeued(d);
    SampleInert(d1, t, now);
    if d.queue[0].timer == t {
      assert d.queue[0] in Orders(d.queue, t);
      Stopped(d, t, now);
    } else {
      CommandOthers(d, t, now, d1, Sample(d1, now));
      SameInert(Sample(d1, now), ProcessCommand(d, now), t);
    }
  }

  lemma Stopped(d: Daemon, t: TimerId, now: Tick)
    requires d.queue != [] && d.queue[0].timer == t && Silences(d.queue[0])
    ensures var d2 := Sample(Dequeued(d), now); ProcessCommand(d, now) == d2.(timers := ProcessCommand(d, now).timers)
  {
  }

  /** A run without any assumption about time. */
  ghost predicate Acts(d: Daemon, run: seq<Activity>, d': Daemon)
    decreases |run|
  {
    if run == [] then d' == d
    else (run[0].Served? ==> d.queue != []) && Acts(Perform(d, run[0]), run[1..], d')
  }

  /** Serving the command stops the timer, exactly unless a start or a new period is already queued behind it. */
  lemma StopSilences(d: Daemon, t: TimerId, now: Tick)
    requires d.queue != [] && d.queue[0].timer == t && Silences(d.queue[0])
    ensures FiredOf(ProcessCommand(d, now), t) == FiredOf(d, t)
    ensures Inert(ProcessCommand(d, now), t) <==> OnlySilencing(Orders(d.queue[1..], t))
  {
    hide Drain, Orders, Filed, Without;
    DequeuedRecord(d, t);
    var d1 := Dequeued(d);
    DrainInert(d1, t);
    Stopped(d, t, now);
  }

  lemma {:induction false} RunInert(d: Daemon, t: TimerId, run: seq<Activity>, d': Daemon)
    requires Inert(d, t) && Acts(d, run, d') && forall a :: a in run ==> LeavesStopped(a, t)
    ensures Inert(d', t) && FiredOf(d', t) == FiredOf(d, t)
    decreases |run|
  {
    hide Inert, TimerPhase, ProcessCommand, Post;
    if run != [] {
      assert run[0] in run;
      match run[0] {
        case Posted(c) => PostInert(d, t, c);
        case Phase(now) => PhaseInert(d, t, Of(now));
        case Served(now) => ServedInert(d, t, Of(now));
      }
      RunInert(Perform(d, run[0]), t, run[1..], d');
    }
  }

  /**
   No callback follows a Stop or a Delete, however late the daemon and whatever the tick does, as long as nothing that
   starts the timer is queued behind the command or sent after it.
   */
  lemma NoCallbackAfterStop(d: Daemon, t: TimerId, now: Tick, run: seq<Activity>, d': Daemon)
    requires d.queue != [] && d.queue[0].timer == t && Silences(d.queue[0]) && OnlySilencing(Orders(d.queue[1..], t))
    requires Acts(ProcessCommand(d, now), run, d') && forall a :: a in run ==> LeavesStopped(a, t)
    ensures FiredOf(d', t) == FiredOf(d, t)
  {
    StopSilences(d, t, now);
    RunInert(ProcessCommand(d, now), t, run, d');
  }

  /** The exception is real: a late timer's own restart, queued behind the Stop, still calls back. */
  lemma StopOvertaken(d: Daemon, t: TimerId, v: Tick, now: Tick)
    requires d.queue == [Stop(t), Start(t, v)] && t in d.timers
    requires ProcessNow(d.timers[t].period, Add(v, d.timers[t].period), now, v)
    ensures ProcessCommand(d, now).queue != []
    ensures FiredOf(ProcessCommand(ProcessCommand(d, now), now), t) == FiredOf(d, t) + 1
  {
    hide Drain, Orders, Filed, Without, ProcessNow;
    DequeuedRecord(d, t);
    DrainInert(Dequeued(d), t);
    Stopped(d, t, now);
    var d1 := ProcessCommand(d, now);
    assert d1.lastTime == now;
    HeadKept(Dequeued(d), now);
    assert d1.queue[0] == Start(t, v);
    DequeuedRecord(d1, t);
  }

  /** Sampling only adds to the queue's end. */
  lemma {:induction false} HeadKept(d: Daemon, now: Tick)
    ensures |Sample(d, now).queue| >= |d.queue| && Sample(d, now).queue[..|d.queue|] == d.queue
    ensures Sample(d, now).timers == d.timers
  {
    hide Drain;
    DrainAppends(d);
  }

  lemma {:induction false} DrainAppends(d: Daemon)
    ensures |Drain(d).queue| >= |d.queue| && Drain(d).queue[..|d.queue|] == d.queue
    decreases TicksLeft(d.current)
  {
    if d.current != [] {
      DrainShrinks(d);
      assert |DrainOne(d).queue| >= |d.queue| && DrainOne(d).queue[..|d.queue|] == d.queue;
      DrainAppends(DrainOne(d));
      assert Drain(d).queue[..|DrainOne(d).queue|][..|d.queue|] == Drain(d).queue[..|d.queue|];
    }
  }

  // ---------------------------------------------------------------------------
  // New periods and restarts
  // ---------------------------------------------------------------------------

  lemma FiledAfresh(d: Daemon, w: Watch, now: nat)
    requires OffRecord(d, w, 0) && w.start <= now < w.start + w.period
    ensures OnTime(Place(d, w.timer, Of(w.start + w.period), Of(now)), w, EpochStart(now), now)
  {
    hide Of, EpochStart;
    assert Due(w, 0) == w.start && Due(w, 1) == w.start + w.period;
    EpochZero(now);
    PlacementExact(w.start, w.period, now);
    EpochAndTick(w.start + w.period);
    FiledInserted(d.current, Entry(w.timer, Of(w.start + w.period)), w.timer);
    FiledInserted(d.overflow, Entry(w.timer, Of(w.start + w.period)), w.timer);
  }

  lemma ChangeIs(d: Daemon, t: TimerId, period: Period, now: nat)
    requires d.queue != [] && d.queue[0] == ChangePeriod(t, period)
    ensures var d2 := Sample(Dequeued(d), Of(now));
            var d3 := d2.(timers := d2.timers[t := TimerOf(d2.timers, t).(period := period)]);
            ProcessCommand(d, Of(now)) == Place(d3, t, Of(now + period), Of(now))
  {
    PlacementExact(now, period, now);
  }

  /** After a new period has taken effect at time now the timer is as if started then: its next expiry is one new period on. */
  lemma ChangeRestarts(d: Daemon, t: TimerId, period: Period, last: nat, now: nat)
    requires Of(last) == d.lastTime && Ordered(d) && last <= now < last + TICKS
    requires d.queue != [] && d.queue[0] == ChangePeriod(t, period) && t in d.timers && Orders(d.queue[1..], t) == []
    ensures FiredOf(ProcessCommand(d, Of(now)), t) == FiredOf(d, t)
    ensures Watching(ProcessCommand(d, Of(now)), Watch(t, period, d.timers[t].autoReload, now, FiredOf(d, t)), now)
  {
    hide Drain, Of, EpochStart, Place, Without, Orders, Filed, OnTime;
    var w := Watch(t, period, d.timers[t].autoReload, now, FiredOf(d, t));
    DequeuedRecord(d, t);
    DrainInert(Dequeued(d), t);
    ChangeIs(d, t, period, now);
    var d2 := Sample(Dequeued(d), Of(now));
    var d3 := d2.(timers := d2.timers[t := TimerOf(d2.timers, t).(period := period)]);
    FiledAfresh(d3, w, now);
    CommandOrdered(d, Of(now));
    PlaceFires(d3, t, Of(now + period), Of(now));
  }

  lemma PlaceFires(d: Daemon, t: TimerId, v: Tick, now: Tick)
    ensures FiredOf(Place(d, t, v, now), t) == FiredOf(d, t)
  {
  }

  /** So a start or reset sent at time c restarts the timer from there, whatever it was doing before. */
  lemma StartRestarts(d: Daemon, t: TimerId, c: nat, last: nat, now: nat)
    requires Of(last) == d.lastTime && Ordered(d) && last <= now < last + TICKS && c <= now < c + TICKS
    requires d.queue != [] && d.queue[0] == Start(t, Of(c)) && t in d.timers && Orders(d.queue[1..], t) == []
    ensures Watching(ProcessCommand(d, Of(now)), Watch(t, d.timers[t].period, d.timers[t].autoReload, c, FiredOf(d, t)), now)
  {
    hide Drain, Of, EpochStart, ProcessNow, Without, Orders, Filed, OnTime;
    var w := Watch(t, d.timers[t].period, d.timers[t].autoReload, c, FiredOf(d, t));
    assert Due(w, 0) == c;
    DequeuedRecord(d, t);
    DrainInert(Dequeued(d), t);
    PlacementExact(c, w.period, now);
    StartPlaced(Sample(Dequeued(d), Of(now)), w, 0, now, ProcessCommand(d, Of(now)));
    CommandOrdered(d, Of(now));
  }

  /** And the callbacks from then on are exact, in any run that leaves the timer alone. */
  lemma RestartedExact(d: Daemon, w: Watch, since: nat, run: seq<Activity>, d': Daemon, last': nat, now: nat)
    requires Watching(d, w, since) && Runs(d, w, since, run, d', last')
    requires last' <= now < last' + TICKS && w.start <= now && Blocks(d', Of(now))
    ensures FiredOf(d', w.timer) == w.before + Expected(w, now)
  {
    hide Watching, Blocks;
    RunWatching(d, w, since, run, d', last');
    CallbacksExact(d', w, last', now);
  }

  /** A new period given at time N: one callback for every new period that has passed since N, the first at N and a period. */
  lemma ChangedExact(d: Daemon, t: TimerId, period: Period, last: nat, since: nat, run: seq<Activity>, d': Daemon, last': nat, now: nat)
    requires Of(last) == d.lastTime && Ordered(d) && last <= since < last + TICKS
    requires d.queue != [] && d.queue[0] == ChangePeriod(t, period) && t in d.timers && Orders(d.queue[1..], t) == []
    requires var w := Watch(t, period, d.timers[t].autoReload, since, FiredOf(d, t));
             Runs(ProcessCommand(d, Of(since)), w, since, run, d', last')
    requires last' <= now < last' + TICKS && since <= now && Blocks(d', Of(now))
    ensures FiredOf(d', t) == FiredOf(d, t) + if d.timers[t].autoReload then (now - since) / period
                                              else if now >= since + period then 1 else 0
  {
    hide Ordered, Watching, Blocks, ProcessCommand, Orders;
    ChangeRestarts(d, t, period, last, since);
    var w := Watch(t, period, d.timers[t].autoReload, since, FiredOf(d, t));
    RestartedExact(ProcessCommand(d, Of(since)), w, since, run, d', last', now);
  }

  /** A deleted timer is gone, and no other is; no other command removes a timer. */
  lemma DeleteFrees(d: Daemon, now: Tick)
    requires d.queue != []
    ensures forall t :: t in ProcessCommand(d, now).timers <==>
              (t in d.timers && d.queue[0] != Delete(t)) || (d.queue[0].ChangePeriod? && d.queue[0].timer == t)
  {
    hide Drain, ProcessNow, FileIn, Without;
  }

  // ---------------------------------------------------------------------------
  // Timer phases at one time
  // ---------------------------------------------------------------------------

  /** The timers in a list whose expiry has come. */
  function Overdue(list: seq<Entry>, now: Tick): seq<TimerId> {
    if list == [] then [] else (if list[0].value <= now then [list[0].timer] else []) + Overdue(list[1..], now)
  }

  lemma {:induction false} OverdueConcat(a: seq<Entry>, b: seq<Entry>, now: Tick)
    ensures Overdue(a + b, now) == Overdue(a, now) + Overdue(b, now)
  {
    if a == [] {
      assert a + b == b;
    } else {
      assert (a + b)[1..] == a[1..] + b && (a + b)[0] == a[0];
      OverdueConcat(a[1..], b, now);
      var head := if a[0].value <= now then [a[0].timer] else [];
      assert Overdue(a, now) == head + Overdue(a[1..], now);
      assert Overdue(a + b, now) == head + Overdue((a + b)[1..], now);
    }
  }

  lemma OverdueFiled(list: seq<Entry>, e: Entry, now: Tick)
    requires e.value > now
    ensures Overdue(FileIn(list, e), now) == Overdue(list, now)
  {
    var p := Rings.Slot(Values(list), e.value);
    assert FileIn(list, e) == list[..p] + ([e] + list[p..]);
    assert list == list[..p] + list[p..];
    OverdueConcat(list[..p], [e] + list[p..], now);
    OverdueConcat([e], list[p..], now);
    OverdueConcat(list[..p], list[p..], now);
  }

  lemma {:induction false} NoneOverdue(list: seq<Entry>, now: Tick)
    requires InOrder(list) && (list != [] ==> list[0].value > now)
    ensures Overdue(list, now) == []
  {
    if list != [] {
      assert list[1..] != [] ==> list[1..][0] == list[1];
      NoneOverdue(list[1..], now);
    }
  }

  lemma PhaseServesHead(d: Daemon, now: Tick)
    requires Ordered(d) && d.lastTime <= now && Overdue(d.current, now) != []
    ensures var d' := TimerPhase(d, now);
            && Ordered(d') && d'.lastTime == now
            && Overdue(d'.current, now) == Overdue(d.current, now)[1..]
            && forall t :: FiredOf(d', t) == FiredOf(d, t) + if t == Overdue(d.current, now)[0] then 1 else 0
  {
    hide InOrder, FileIn;
    if d.current[0].value > now {
      NoneOverdue(d.current, now);
    }
    var d1 := Sample(d, now);
    ExpiredOrdered(d1, now);
    var e := Add(d.current[0].value, TimerOf(d.timers, d.current[0].timer).period);
    if e > now {
      OverdueFiled(d.current[1..], Entry(d.current[0].timer, e), now);
    }
  }

  function Phases(d: Daemon, now: Tick, n: nat): Daemon
    decreases n
  {
    if n == 0 then d else Phases(TimerPhase(d, now), now, n - 1)
  }

  /** As many timer phases as timers have expired call each of them back, and leave none whose expiry has come. */
  lemma {:induction false} PhasesServeAll(d: Daemon, now: Tick, t: TimerId)
    requires Ordered(d) && d.lastTime <= now
    ensures var d' := Phases(d, now, |Overdue(d.current, now)|);
            && Overdue(d'.current, now) == []
            && FiredOf(d', t) == FiredOf(d, t) + multiset(Overdue(d.current, now))[t]
    decreases |Overdue(d.current, now)|
  {
    hide Ordered, TimerPhase, FiredOf, Overdue;
    var due := Overdue(d.current, now);
    if due != [] {
      PhaseServesHead(d, now);
      PhasesServeAll(TimerPhase(d, now), now, t);
      assert due == [due[0]] + due[1..];
    }
  }

  // ---------------------------------------------------------------------------
  // The command loop
  // ---------------------------------------------------------------------------

  /** The daemon after n commands have been served, at the times of the first n samples. */
  function ServedFirst(d: Daemon, samples: seq<Tick>, n: nat): Daemon
    requires n <= |samples|
    decreases n
  {
    if n == 0 || d.queue == [] then d else ServedFirst(ProcessCommand(d, samples[0]), samples[1..], n - 1)
  }

  /** The loop serves command after command and ends with the first empty queue, or when no time is left. */
  lemma {:induction false} ServesUntilEmpty(d: Daemon, samples: seq<Tick>) returns (n: nat)
    ensures n <= |samples| && ServeAll(d, samples) == ServedFirst(d, samples, n)
    ensures n == |samples| || ServeAll(d, samples).queue == []
    ensures forall m :: 0 <= m < n ==> ServedFirst(d, samples, m).queue != []
    decreases |samples|
  {
    hide ProcessCommand;
    if d.queue == [] || samples == [] {
      n := 0;
    } else {
      var m := ServesUntilEmpty(ProcessCommand(d, samples[0]), samples[1..]);
      n := m + 1;
      forall i | 0 <= i < n
        ensures ServedFirst(d, samples, i).queue != []
      {
        if i > 0 {
          assert ServedFirst(d, samples, i) == ServedFirst(ProcessCommand(d, samples[0]), samples[1..], i - 1);
        }
      }
    }
  }
}
