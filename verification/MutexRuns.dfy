/**
 Mutex accounting over whole runs: a mutex is free or held and never both, every task's count of held mutexes
 is exact, a task that holds none runs at its base priority, and a recursive mutex is released exactly at
 the give that matches its first take.
 */
module MutexRuns {
  import opened Families
  import opened Kernels
  import opened KernelSteps
  import opened KernelSelection
  import opened KernelRuns
  import opened Mutexes

  datatype MutexStep =
    | KernelStep(step: Step)
    | CreateMutex(m: MutexId)
    | Take(m: MutexId)
    | Give(m: MutexId)
    | TakeAgain(m: MutexId)
    | GiveAgain(m: MutexId)
    | BlockOn(m: MutexId)

  /** The mutexes held by a task. */
  function Owned(mutexes: map<MutexId, Mutex>, t: TaskId): set<MutexId> {
    set m | m in mutexes && mutexes[m].holder == HeldBy(t)
  }

  ghost predicate MutexAccounted(x: Mutex, recursive: bool, tcbs: map<TaskId, Tcb>) {
    && ((x.count == 1 && x.holder == Nobody) || (x.count == 0 && x.holder.HeldBy? && x.holder.task in tcbs))
    && (if recursive then x.recursion > 0 <==> x.holder.HeldBy? else x.recursion == 0)
  }

  ghost predicate TaskAccounted(tcb: Tcb, owned: set<MutexId>) {
    tcb.held == |owned| && (tcb.held == 0 ==> tcb.priority == tcb.base)
  }

  ghost predicate Accounts(mutexes: map<MutexId, Mutex>, recursive: set<MutexId>, tcbs: map<TaskId, Tcb>) {
    && (forall m :: m in mutexes ==> MutexAccounted(mutexes[m], m in recursive, tcbs))
    && (forall t :: t in tcbs ==> TaskAccounted(tcbs[t], Owned(mutexes, t)))
  }

  ghost predicate Accounted(s: System, idle: TaskId, recursive: set<MutexId>) {
    Housed(s.k, idle) && Accounts(s.mutexes, recursive, s.k.tcbs)
  }

  /** Kernel steps other than those mutexes perform; a task that holds a mutex is neither deleted nor freed. */
  ghost predicate MayStep(k: Kernel, idle: TaskId, step: Step) {
    Enabled(k, idle, step) &&
    match step
    case Rank(r) => r.PriorityChange?
    case Life(TaskDelete(t)) => t in k.tcbs && k.tcbs[t].held == 0
    case Life(IdleReap) => At(k.states, Terminating).items[0] in k.tcbs && k.tcbs[At(k.states, Terminating).items[0]].held == 0
    case _ => true
  }

  predicate Running(k: Kernel) {
    k.current in k.states.home && k.states.home[k.current].Ready?
  }

  /** A plain mutex is given only while free or by its holder; recursive ones are taken and given as such. */
  ghost predicate CanDo(s: System, idle: TaskId, recursive: set<MutexId>, step: MutexStep) {
    match step
    case KernelStep(x) => MayStep(s.k, idle, x)
    case CreateMutex(m) => m !in s.mutexes
    case Take(m) => m in s.mutexes && m !in recursive
    case Give(m) => m in s.mutexes && m !in recursive && Running(s.k) && MayGive(s.k, s.mutexes[m])
    case TakeAgain(m) => m in s.mutexes && m in recursive
    case GiveAgain(m) => m in s.mutexes && m in recursive && Running(s.k) && MayGiveRecursively(s.k, s.mutexes[m])
    case BlockOn(m) => m in s.mutexes && (s.mutexes[m].holder.HeldBy? ==> s.mutexes[m].holder.task in s.k.tcbs)
  }

  function DoMutex(s: System, idle: TaskId, recursive: set<MutexId>, step: MutexStep): System
    requires Housed(s.k, idle) && CanDo(s, idle, recursive, step)
  {
    match step
    case KernelStep(x) => s.(k := Do(s.k, idle, x))
    case CreateMutex(m) => s.(mutexes := s.mutexes[m := Mutex(1, Nobody, 0)])
    case Take(m) =>
      var x := s.mutexes[m];
      if x.count > 0 then System(HoldMutex(s.k), s.mutexes[m := Taken(s.k, x)]) else s
    case Give(m) =>
      var x := s.mutexes[m];
      System(GiveKernel(s.k, x), s.mutexes[m := Given(x)])
    case TakeAgain(m) =>
      var x := s.mutexes[m];
      System(if x.holder != HeldBy(s.k.current) && x.count > 0 then HoldMutex(s.k) else s.k,
             s.mutexes[m := TakenRecursively(s.k, x)])
    case GiveAgain(m) =>
      var x := s.mutexes[m];
      System(GiveRecursivelyKernel(s.k, x), s.mutexes[m := GivenRecursively(s.k, x)])
    case BlockOn(m) =>
      var x := s.mutexes[m];
      if x.holder.Nobody? then s else s.(k := Inherit(s.k, x.holder.task))
  }

  // ---------------------------------------------------------------------------
  // Ownership
  // ---------------------------------------------------------------------------

  lemma OwnedChange(mutexes: map<MutexId, Mutex>, m: MutexId, x: Mutex, t: TaskId)
    ensures Owned(mutexes[m := x], t) == (Owned(mutexes, t) - {m}) + (if x.holder == HeldBy(t) then {m} else {})
  {
  }

  /** Changing a mutex without changing its holder. */
  lemma OwnedSame(mutexes: map<MutexId, Mutex>, m: MutexId, x: Mutex, t: TaskId)
    requires if m in mutexes then x.holder == mutexes[m].holder else x.holder == Nobody
    ensures Owned(mutexes[m := x], t) == Owned(mutexes, t)
  {
  }

  /** A free mutex is taken by the task u, whose count goes up. */
  lemma AccountTake(mutexes: map<MutexId, Mutex>, recursive: set<MutexId>, tcbs: map<TaskId, Tcb>, m: MutexId,
                    x: Mutex, u: TaskId, tcbs': map<TaskId, Tcb>)
    requires Accounts(mutexes, recursive, tcbs) && m in mutexes && u in tcbs && mutexes[m].holder == Nobody
    requires x.holder == HeldBy(u) && x.count == 0 && x.recursion == mutexes[m].recursion + if m in recursive then 1 else 0
    requires tcbs' == tcbs[u := tcbs[u].(held := tcbs[u].held + 1)]
    ensures Accounts(mutexes[m := x], recursive, tcbs')
  {
    forall t | t in tcbs'
      ensures TaskAccounted(tcbs'[t], Owned(mutexes[m := x], t))
    {
      OwnedChange(mutexes, m, x, t);
      assert m !in Owned(mutexes, t);
      if t == u {
        assert Owned(mutexes[m := x], t) == Owned(mutexes, t) + {m};
      } else {
        assert Owned(mutexes[m := x], t) == Owned(mutexes, t);
      }
    }
  }

  /** A mutex held by u is given back, and u's count goes down. */
  lemma AccountGive(mutexes: map<MutexId, Mutex>, recursive: set<MutexId>, tcbs: map<TaskId, Tcb>, m: MutexId,
                    x: Mutex, u: TaskId, tcbs': map<TaskId, Tcb>)
    requires Accounts(mutexes, recursive, tcbs) && m in mutexes && u in tcbs && mutexes[m].holder == HeldBy(u)
    requires x == Mutex(1, Nobody, 0) && tcbs[u].held > 0 && tcbs[u].base < PRIORITIES
    requires tcbs' == tcbs[u := Disinherited(tcbs[u])]
    ensures Accounts(mutexes[m := x], recursive, tcbs')
  {
    forall t | t in tcbs'
      ensures TaskAccounted(tcbs'[t], Owned(mutexes[m := x], t))
    {
      OwnedChange(mutexes, m, x, t);
      if t == u {
        assert m in Owned(mutexes, t);
        assert |Owned(mutexes, t) - {m}| == |Owned(mutexes, t)| - 1;
      } else {
        assert Owned(mutexes[m := x], t) == Owned(mutexes, t);
      }
    }
  }

  /** A mutex changes neither holder nor count. */
  lemma AccountNested(mutexes: map<MutexId, Mutex>, recursive: set<MutexId>, tcbs: map<TaskId, Tcb>, m: MutexId, x: Mutex)
    requires Accounts(mutexes, recursive, tcbs) && MutexAccounted(x, m in recursive, tcbs)
    requires if m in mutexes then x.holder == mutexes[m].holder else x.holder == Nobody
    ensures Accounts(mutexes[m := x], recursive, tcbs)
  {
    forall t {
      OwnedSame(mutexes, m, x, t);
    }
  }

  /** Control blocks change, but nobody's held count does and a task holding nothing keeps to its base priority. */
  ghost predicate RanksKept(tcbs: map<TaskId, Tcb>, tcbs': map<TaskId, Tcb>) {
    && (forall t :: t in tcbs' ==>
          if t in tcbs
          then tcbs'[t].held == tcbs[t].held
               && (tcbs[t].held == 0 && tcbs[t].priority == tcbs[t].base ==> tcbs'[t].priority == tcbs'[t].base)
          else tcbs'[t].held == 0 && tcbs'[t].priority == tcbs'[t].base)
    && (forall t :: t in tcbs && t !in tcbs' ==> tcbs[t].held == 0)
  }

  lemma AccountTasks(mutexes: map<MutexId, Mutex>, recursive: set<MutexId>, tcbs: map<TaskId, Tcb>, tcbs': map<TaskId, Tcb>)
    requires Accounts(mutexes, recursive, tcbs) && RanksKept(tcbs, tcbs')
    ensures Accounts(mutexes, recursive, tcbs')
  {
    forall m | m in mutexes
      ensures MutexAccounted(mutexes[m], m in recursive, tcbs')
    {
      if mutexes[m].holder.HeldBy? {
        assert m in Owned(mutexes, mutexes[m].holder.task);
      }
    }
    forall t | t in tcbs' && t !in tcbs
      ensures Owned(mutexes, t) == {}
    {
      forall m | m in mutexes
        ensures mutexes[m].holder != HeldBy(t)
      {
        assert MutexAccounted(mutexes[m], m in recursive, tcbs);
      }
    }
  }

  // ---------------------------------------------------------------------------
  // Kernel steps
  // ---------------------------------------------------------------------------

  lemma LifeRanks(k: Kernel, idle: TaskId, s: LifeStep)
    requires Housed(k, idle) && MayStep(k, idle, Life(s))
    ensures RanksKept(k.tcbs, DoLife(k, idle, s).tcbs)
  {
    hide Create, Delete, Suspend, Reap, Resume, ResumeFromISR, Consistent, At;
  }

  lemma WaitRanks(k: Kernel, idle: TaskId, s: WaitStep)
    requires Housed(k, idle) && WaitEnabled(k, idle, s)
    ensures RanksKept(k.tcbs, DoWait(k, idle, s).tcbs)
  {
    hide DelayUntil, PlaceOnEventList, PlaceOnUnorderedEventList, PlaceOnEventListRestricted, Consistent, At;
  }

  lemma WakeRanks(k: Kernel, idle: TaskId, s: WakeStep)
    requires Housed(k, idle) && WakeEnabled(k, s)
    ensures RanksKept(k.tcbs, DoWake(k, idle, s).tcbs)
  {
    hide RemoveFromEventList, RemoveFromUnorderedEventList, Consistent, At;
    if s.QueueSignal? {
      EventHead(k, idle, Event(s.e));
    }
  }

  lemma ClockRanks(k: Kernel, idle: TaskId, s: ClockStep)
    requires Housed(k, idle) && ClockEnabled(k, s)
    ensures RanksKept(k.tcbs, DoClock(k, idle, s).tcbs)
  {
    hide IncrementTick, Drain, Replay, ResetNextUnblock, Advance, ReportAll, ScanDown, Consistent, At;
    ResetTcbs(k);
  }

  lemma ResetTcbs(k: Kernel)
    requires Coherent(k)
    ensures ResetNextUnblock(k).tcbs == k.tcbs
  {
  }

  lemma PriorityRanks(k: Kernel, t: TaskId, requested: nat)
    requires Coherent(k) && t in k.tcbs
    ensures RanksKept(k.tcbs, PrioritySet(k, t, requested).tcbs)
  {
    hide Refile, Consistent, At;
  }

  lemma KernelStepRanks(k: Kernel, idle: TaskId, s: Step)
    requires Housed(k, idle) && MayStep(k, idle, s)
    ensures RanksKept(k.tcbs, Do(k, idle, s).tcbs)
  {
    hide DoLife, DoWait, DoWake, DoClock, PrioritySet, RanksKept, HousedMaps;
    match s
    case Life(l) => LifeRanks(k, idle, l);
    case Wait(w) => WaitRanks(k, idle, w);
    case Wake(w) => WakeRanks(k, idle, w);
    case Clock(c) => ClockRanks(k, idle, c);
    case Rank(r) => PriorityRanks(k, r.t, r.priority);
  }

  // ---------------------------------------------------------------------------
  // Every step
  // ---------------------------------------------------------------------------

  lemma GiveAccounted(s: System, idle: TaskId, recursive: set<MutexId>, m: MutexId, x: Mutex)
    requires Accounted(s, idle, recursive) && m in s.mutexes && Running(s.k) && MayGive(s.k, s.mutexes[m])
    requires x == s.mutexes[m].(recursion := x.recursion) && x.recursion == 0
    requires m in recursive ==> x.holder.HeldBy?
    ensures Accounted(System(GiveKernel(s.k, x), s.mutexes[m := Given(x)]), idle, recursive)
  {
    hide Disinherit, HousedMaps, Coherent, Accounts;
    assert MutexAccounted(s.mutexes[m], m in recursive, s.k.tcbs) by { MutexOf(s, idle, recursive, m); }
    if x.count >= 1 {
      AccountNested(s.mutexes, recursive, s.k.tcbs, m, x);
    } else {
      RankHoused(s.k, idle, PriorityDisinherit);
      CurrentInRange(s.k);
      AccountGive(s.mutexes, recursive, s.k.tcbs, m, Given(x), s.k.current, Disinherit(s.k, s.k.current).tcbs);
    }
  }

  lemma CurrentInRange(k: Kernel)
    requires Coherent(k)
    ensures k.current in k.tcbs && k.tcbs[k.current].base < PRIORITIES
  {
  }

  lemma MutexOf(s: System, idle: TaskId, recursive: set<MutexId>, m: MutexId)
    requires Accounted(s, idle, recursive) && m in s.mutexes
    ensures MutexAccounted(s.mutexes[m], m in recursive, s.k.tcbs)
  {
  }

  lemma TakeAccounted(s: System, idle: TaskId, recursive: set<MutexId>, m: MutexId, x: Mutex)
    requires Accounted(s, idle, recursive) && m in s.mutexes && s.mutexes[m].count > 0
    requires x == Taken(s.k, s.mutexes[m]).(recursion := s.mutexes[m].recursion + if m in recursive then 1 else 0)
    ensures Accounted(System(HoldMutex(s.k), s.mutexes[m := x]), idle, recursive)
  {
    hide HousedMaps, Coherent, Accounts;
    MutexOf(s, idle, recursive, m);
    RankHoused(s.k, idle, MutexTaken);
    CurrentInRange(s.k);
    AccountTake(s.mutexes, recursive, s.k.tcbs, m, x, s.k.current, HoldMutex(s.k).tcbs);
  }

  lemma InheritAccounted(s: System, idle: TaskId, recursive: set<MutexId>, m: MutexId)
    requires Accounted(s, idle, recursive) && m in s.mutexes && s.mutexes[m].holder.HeldBy?
    requires s.mutexes[m].holder.task in s.k.tcbs
    ensures Accounted(s.(k := Inherit(s.k, s.mutexes[m].holder.task)), idle, recursive)
  {
    hide Refile, HousedMaps;
    var t := s.mutexes[m].holder.task;
    RankHoused(s.k, idle, PriorityInherit(t));
    assert m in Owned(s.mutexes, t);
    AccountTasks(s.mutexes, recursive, s.k.tcbs, Inherit(s.k, t).tcbs);
  }

  lemma StepAccounted(s: System, idle: TaskId, recursive: set<MutexId>, step: MutexStep)
    requires Accounted(s, idle, recursive) && CanDo(s, idle, recursive, step)
    ensures Accounted(DoMutex(s, idle, recursive, step), idle, recursive)
  {
    hide Do, HoldMutex, Inherit, GiveKernel, HousedMaps, Coherent, Accounts;
    match step
    case KernelStep(x) =>
      StepHoused(s.k, idle, x);
      KernelStepRanks(s.k, idle, x);
      AccountTasks(s.mutexes, recursive, s.k.tcbs, Do(s.k, idle, x).tcbs);
    case CreateMutex(m) => AccountNested(s.mutexes, recursive, s.k.tcbs, m, Mutex(1, Nobody, 0));
    case Take(m) => if s.mutexes[m].count > 0 { TakeAccounted(s, idle, recursive, m, Taken(s.k, s.mutexes[m])); }
    case Give(m) => MutexOf(s, idle, recursive, m); GiveAccounted(s, idle, recursive, m, s.mutexes[m]);
    case TakeAgain(m) => TakeAgainAccounted(s, idle, recursive, m);
    case GiveAgain(m) => GiveAgainAccounted(s, idle, recursive, m);
    case BlockOn(m) => if s.mutexes[m].holder.HeldBy? { InheritAccounted(s, idle, recursive, m); }
  }

  lemma TakeAgainAccounted(s: System, idle: TaskId, recursive: set<MutexId>, m: MutexId)
    requires Accounted(s, idle, recursive) && m in s.mutexes && m in recursive
    ensures Accounted(DoMutex(s, idle, recursive, TakeAgain(m)), idle, recursive)
  {
    hide HoldMutex, HousedMaps, Coherent, Accounts;
    MutexOf(s, idle, recursive, m);
    var x := TakenRecursively(s.k, s.mutexes[m]);
    if s.mutexes[m].count > 0 {
      TakeAccounted(s, idle, recursive, m, x);
    } else {
      AccountNested(s.mutexes, recursive, s.k.tcbs, m, x);
    }
  }

  lemma GiveAgainAccounted(s: System, idle: TaskId, recursive: set<MutexId>, m: MutexId)
    requires Accounted(s, idle, recursive) && CanDo(s, idle, recursive, GiveAgain(m))
    ensures Accounted(DoMutex(s, idle, recursive, GiveAgain(m)), idle, recursive)
  {
    hide Disinherit, HousedMaps, Coherent, Accounts;
    MutexOf(s, idle, recursive, m);
    var x := s.mutexes[m];
    if x.holder == HeldBy(s.k.current) && x.recursion == 1 {
      GiveAccounted(s, idle, recursive, m, x.(recursion := 0));
    } else {
      AccountNested(s.mutexes, recursive, s.k.tcbs, m, GivenRecursively(s.k, x));
    }
  }

  /** No underflow check is needed: the running task may always call the recursive give. */
  lemma GiveAgainAlways(s: System, idle: TaskId, recursive: set<MutexId>, m: MutexId)
    requires Accounted(s, idle, recursive) && m in s.mutexes && m in recursive
    ensures MayGiveRecursively(s.k, s.mutexes[m])
  {
    MutexOf(s, idle, recursive, m);
    var x := s.mutexes[m];
    if x.holder == HeldBy(s.k.current) {
      assert m in Owned(s.mutexes, s.k.current);
    }
  }

  // ---------------------------------------------------------------------------
  // Runs
  // ---------------------------------------------------------------------------

  ghost predicate MutexRun(s: System, idle: TaskId, recursive: set<MutexId>, steps: seq<MutexStep>, s': System)
    decreases |steps|
  {
    if steps == [] then s' == s
    else Housed(s.k, idle) && CanDo(s, idle, recursive, steps[0])
         && MutexRun(DoMutex(s, idle, recursive, steps[0]), idle, recursive, steps[1..], s')
  }

  lemma {:induction false} RunAccounted(s: System, idle: TaskId, recursive: set<MutexId>, steps: seq<MutexStep>, s': System)
    requires Accounted(s, idle, recursive) && MutexRun(s, idle, recursive, steps, s')
    ensures Accounted(s', idle, recursive)
    decreases |steps|
  {
    hide HousedMaps, Coherent, Accounts, CanDo, DoMutex;
    if steps != [] {
      StepAccounted(s, idle, recursive, steps[0]);
      RunAccounted(DoMutex(s, idle, recursive, steps[0]), idle, recursive, steps[1..], s');
    }
  }

  /** When the scheduler starts nothing is held. */
  lemma StartAccounted(idle: TaskId, recursive: set<MutexId>)
    ensures Accounted(System(Initial(idle), map[]), idle, recursive)
  {
    hide HousedMaps, Coherent;
    assert Housed(Initial(idle), idle) by {
      InitialSound(idle);
    }
    NothingHeld(idle, recursive);
  }

  lemma NothingHeld(idle: TaskId, recursive: set<MutexId>)
    ensures Accounts(map[], recursive, Initial(idle).tcbs)
  {
    var none: map<MutexId, Mutex> := map[];
    assert forall t :: Owned(none, t) == {};
  }

  /** What a step adds to the nesting of m: one for a successful recursive take, minus one for a give. */
  function Nesting(s: System, step: MutexStep, m: MutexId): int
    requires m in s.mutexes
  {
    if step == TakeAgain(m) && TakesRecursively(s.k, s.mutexes[m]) then 1
    else if step == GiveAgain(m) && s.mutexes[m].holder == HeldBy(s.k.current) then -1
    else 0
  }

  ghost function NestingOf(s: System, idle: TaskId, recursive: set<MutexId>, steps: seq<MutexStep>, s': System, m: MutexId): int
    requires MutexRun(s, idle, recursive, steps, s') && m in s.mutexes
    decreases |steps|
  {
    if steps == [] then 0
    else Nesting(s, steps[0], m) + NestingOf(DoMutex(s, idle, recursive, steps[0]), idle, recursive, steps[1..], s', m)
  }

  /** The recursion count is the number of successful takes less the number of gives, and zero exactly while free. */
  lemma {:induction false} RecursionCounts(s: System, idle: TaskId, recursive: set<MutexId>, steps: seq<MutexStep>,
                                           s': System, m: MutexId)
    requires Accounted(s, idle, recursive) && MutexRun(s, idle, recursive, steps, s') && m in s.mutexes && m in recursive
    ensures m in s'.mutexes && s'.mutexes[m].recursion == s.mutexes[m].recursion + NestingOf(s, idle, recursive, steps, s', m)
    ensures s'.mutexes[m].holder == Nobody <==> s.mutexes[m].recursion + NestingOf(s, idle, recursive, steps, s', m) == 0
    decreases |steps|
  {
    hide HousedMaps, Coherent, Accounts, CanDo, DoMutex, Nesting;
    RunAccounted(s, idle, recursive, steps, s');
    if steps == [] {
      MutexOf(s, idle, recursive, m);
    } else {
      StepAccounted(s, idle, recursive, steps[0]);
      StepNesting(s, idle, recursive, steps[0], m);
      RecursionCounts(DoMutex(s, idle, recursive, steps[0]), idle, recursive, steps[1..], s', m);
    }
  }

  /** One step: nesting is counted, and the holder changes only when it starts or ends. */
  lemma StepNesting(s: System, idle: TaskId, recursive: set<MutexId>, step: MutexStep, m: MutexId)
    requires Accounted(s, idle, recursive) && CanDo(s, idle, recursive, step) && m in s.mutexes && m in recursive
    ensures m in DoMutex(s, idle, recursive, step).mutexes
    ensures DoMutex(s, idle, recursive, step).mutexes[m].recursion == s.mutexes[m].recursion + Nesting(s, step, m)
    ensures s.mutexes[m].recursion > 0 && DoMutex(s, idle, recursive, step).mutexes[m].recursion > 0
            ==> DoMutex(s, idle, recursive, step).mutexes[m].holder == s.mutexes[m].holder
  {
    hide HousedMaps, Coherent, Accounts, Do, HoldMutex, Inherit, GiveKernel;
    MutexOf(s, idle, recursive, m);
  }

  // ---------------------------------------------------------------------------
  // Inheritance
  // ---------------------------------------------------------------------------

  /** A task about to block on a held mutex lends its holder its priority, if that is higher, and nothing else changes. */
  lemma InheritsHighest(k: Kernel, idle: TaskId, holder: TaskId)
    requires Housed(k, idle) && holder in k.tcbs
    ensures var k' := Inherit(k, holder);
            && holder in k'.tcbs && k.current in k'.tcbs
            && k'.tcbs[holder].priority == (if k.tcbs[holder].priority < k.tcbs[k.current].priority then k.tcbs[k.current].priority
                                            else k.tcbs[holder].priority)
            && k'.tcbs[holder].base == k.tcbs[holder].base && k'.tcbs[holder].held == k.tcbs[holder].held
            && k'.tcbs[k.current].priority <= k'.tcbs[holder].priority
            && forall t :: t in k.tcbs && t != holder ==> t in k'.tcbs && k'.tcbs[t] == k.tcbs[t]
  {
    hide Refile, Consistent, At;
  }

  /** Giving the last mutex back returns the holder to its base priority; giving back one of several leaves it what it inherited. */
  lemma GivesBackLast(k: Kernel, idle: TaskId)
    requires Housed(k, idle) && RankEnabled(k, PriorityDisinherit)
    ensures var k', t := Disinherit(k, k.current), k.current;
            && t in k'.tcbs && k'.tcbs[t].held == k.tcbs[t].held - 1 && k'.tcbs[t].base == k.tcbs[t].base
            && k'.tcbs[t].priority == (if k.tcbs[t].held == 1 then k.tcbs[t].base else k.tcbs[t].priority)
            && forall u :: u in k.tcbs && u != t ==> u in k'.tcbs && k'.tcbs[u] == k.tcbs[u]
  {
    hide Disinherit, Consistent, At;
  }

  /**
   vTaskPrioritySet makes the requested priority, limited to the highest there is, the base, and the priority in use as
   well unless that is inherited.
   */
  lemma ChangeTakesEffect(k: Kernel, idle: TaskId, t: TaskId, requested: nat)
    requires Housed(k, idle) && t in k.tcbs
    ensures var k' := PrioritySet(k, t, requested);
            && t in k'.tcbs && k'.tcbs[t].held == k.tcbs[t].held
            && (requested < PRIORITIES ==> k'.tcbs[t].base == requested)
            && (requested >= PRIORITIES ==> k'.tcbs[t].base == PRIORITIES - 1)
            && k'.tcbs[t].priority == (if k.tcbs[t].priority == k.tcbs[t].base then k'.tcbs[t].base else k.tcbs[t].priority)
            && forall u :: u in k.tcbs && u != t ==> u in k'.tcbs && k'.tcbs[u] == k.tcbs[u]
  {
    hide Refile, Consistent, At;
  }

  // ---------------------------------------------------------------------------
  // Priorities below the base
  // ---------------------------------------------------------------------------

  ghost predicate NoneBelowBase(tcbs: map<TaskId, Tcb>) {
    forall t :: t in tcbs ==> tcbs[t].base <= tcbs[t].priority
  }

  /** The call that leaves a task below its base: a new base above what the task has inherited. */
  predicate Strands(tcbs: map<TaskId, Tcb>, step: Step) {
    match step
    case Rank(PriorityChange(t, requested)) =>
      t in tcbs && tcbs[t].base != tcbs[t].priority && tcbs[t].priority < Clamped(requested)
    case _ => false
  }

  /**
   While a task inherits, a new base priority does not reach the priority in use, which is left below the base
   exactly when the new base is above what was inherited.
   */
  lemma PriorityBelowBase(k: Kernel, t: TaskId, requested: nat)
    requires Coherent(k) && t in k.tcbs && NoneBelowBase(k.tcbs)
    ensures NoneBelowBase(PrioritySet(k, t, requested).tcbs) <==> !Strands(k.tcbs, Rank(PriorityChange(t, requested)))
  {
    hide Refile, Consistent, At;
    var tcb' := PrioritySet(k, t, requested).tcbs[t];
    assert NoneBelowBase(PrioritySet(k, t, requested).tcbs) ==> tcb'.base <= tcb'.priority;
  }

  lemma LifeNoneBelow(k: Kernel, idle: TaskId, s: LifeStep)
    requires Housed(k, idle) && LifeEnabled(k, idle, s) && NoneBelowBase(k.tcbs)
    ensures NoneBelowBase(DoLife(k, idle, s).tcbs)
  {
    hide Create, Delete, Suspend, Reap, Resume, ResumeFromISR, Consistent, At;
  }

  lemma WaitNoneBelow(k: Kernel, idle: TaskId, s: WaitStep)
    requires Housed(k, idle) && WaitEnabled(k, idle, s) && NoneBelowBase(k.tcbs)
    ensures NoneBelowBase(DoWait(k, idle, s).tcbs)
  {
    hide DelayUntil, PlaceOnEventList, PlaceOnUnorderedEventList, PlaceOnEventListRestricted, Consistent, At;
  }

  lemma WakeNoneBelow(k: Kernel, idle: TaskId, s: WakeStep)
    requires Housed(k, idle) && WakeEnabled(k, s) && NoneBelowBase(k.tcbs)
    ensures NoneBelowBase(DoWake(k, idle, s).tcbs)
  {
    hide RemoveFromEventList, RemoveFromUnorderedEventList, Consistent, At;
    if s.QueueSignal? {
      EventHead(k, idle, Event(s.e));
    }
  }

  lemma ClockNoneBelow(k: Kernel, idle: TaskId, s: ClockStep)
    requires Housed(k, idle) && ClockEnabled(k, s) && NoneBelowBase(k.tcbs)
    ensures NoneBelowBase(DoClock(k, idle, s).tcbs)
  {
    hide IncrementTick, Drain, Replay, ResetNextUnblock, Advance, ReportAll, ScanDown, Consistent, At;
    ResetTcbs(k);
  }

  lemma KernelStepNoneBelow(k: Kernel, idle: TaskId, s: Step)
    requires Housed(k, idle) && MayStep(k, idle, s) && NoneBelowBase(k.tcbs)
    ensures NoneBelowBase(Do(k, idle, s).tcbs) <==> !Strands(k.tcbs, s)
  {
    hide DoLife, DoWait, DoWake, DoClock, PrioritySet, NoneBelowBase, HousedMaps;
    match s
    case Life(l) => LifeNoneBelow(k, idle, l);
    case Wait(w) => WaitNoneBelow(k, idle, w);
    case Wake(w) => WakeNoneBelow(k, idle, w);
    case Clock(c) => ClockNoneBelow(k, idle, c);
    case Rank(r) => PriorityBelowBase(k, r.t, r.priority);
  }

  /** No mutex operation does so, and no other kernel step. */
  lemma StepNoneBelow(s: System, idle: TaskId, recursive: set<MutexId>, step: MutexStep)
    requires Housed(s.k, idle) && CanDo(s, idle, recursive, step) && NoneBelowBase(s.k.tcbs)
    ensures NoneBelowBase(DoMutex(s, idle, recursive, step).k.tcbs)
            <==> !(step.KernelStep? && Strands(s.k.tcbs, step.step))
  {
    hide Do, Disinherit, Refile, HousedMaps, Consistent, At;
    if step.KernelStep? {
      KernelStepNoneBelow(s.k, idle, step.step);
    }
  }

  ghost predicate NeverStrands(s: System, idle: TaskId, recursive: set<MutexId>, steps: seq<MutexStep>, s': System)
    requires MutexRun(s, idle, recursive, steps, s')
    decreases |steps|
  {
    steps != [] ==>
      !(steps[0].KernelStep? && Strands(s.k.tcbs, steps[0].step))
      && NeverStrands(DoMutex(s, idle, recursive, steps[0]), idle, recursive, steps[1..], s')
  }

  /** In every run without such a call no task ever runs below its base priority. */
  lemma {:induction false} RunNoneBelow(s: System, idle: TaskId, recursive: set<MutexId>, steps: seq<MutexStep>, s': System)
    requires NoneBelowBase(s.k.tcbs) && MutexRun(s, idle, recursive, steps, s') && NeverStrands(s, idle, recursive, steps, s')
    ensures NoneBelowBase(s'.k.tcbs)
    decreases |steps|
  {
    hide HousedMaps, Coherent, NoneBelowBase, Strands, CanDo, DoMutex;
    if steps != [] {
      StepNoneBelow(s, idle, recursive, steps[0]);
      RunNoneBelow(DoMutex(s, idle, recursive, steps[0]), idle, recursive, steps[1..], s');
    }
  }

  // A run that makes such a call: task 1 takes a mutex, task 2 wants it, and task 1 is given a new base.

  lemma {:induction false} RunExtends(s: System, idle: TaskId, recursive: set<MutexId>, steps: seq<MutexStep>, s1: System, step: MutexStep)
    requires MutexRun(s, idle, recursive, steps, s1) && Housed(s1.k, idle) && CanDo(s1, idle, recursive, step)
    ensures MutexRun(s, idle, recursive, steps + [step], DoMutex(s1, idle, recursive, step))
    decreases |steps|
  {
    hide HousedMaps, Coherent, CanDo, DoMutex;
    if steps == [] {
      assert [step][1..] == [] && [] + [step] == [step];
    } else {
      RunExtends(DoMutex(s, idle, recursive, steps[0]), idle, recursive, steps[1..], s1, step);
      assert (steps + [step])[1..] == steps[1..] + [step];
    }
  }

  /** The scheduler runs, every task is ready, and nobody waits. */
  ghost predicate AllReady(k: Kernel) {
    && Housed(k, 0) && Indexed(k) && k.suspended == 0 && k.events.home == map[]
    && forall t :: t in k.tcbs ==> k.states.home[t].Ready?
  }

  lemma Created(t: TaskId, q: nat, k: Kernel)
    requires AllReady(k) && t !in k.tcbs && q < PRIORITIES
    ensures LifeEnabled(k, 0, TaskCreate(t, q))
    ensures var k1 := DoLife(k, 0, TaskCreate(t, q)); AllReady(k1) && k1.tcbs == k.tcbs[t := Tcb(q, q, 0, 0, CodedPriority(q))]
  {
    hide Create, Consistent, At, IndexedLists;
    LifeHoused(k, 0, TaskCreate(t, q));
    LifeIndexed(k, 0, TaskCreate(t, q));
  }

  /** A context switch runs the one task that outranks all others. */
  lemma SwitchedTo(k: Kernel, t: TaskId)
    requires AllReady(k) && t in k.tcbs && forall u :: u in k.tcbs && u != t ==> k.tcbs[u].priority < k.tcbs[t].priority
    ensures ClockEnabled(k, ContextSwitch)
    ensures var k2 := SwitchContext(k); AllReady(k2) && k2.current == t && k2.tcbs == k.tcbs
  {
    hide SwitchContext, Consistent, At, IndexedLists;
    HighestRuns(k, 0);
    SwitchHoused(k, 0);
    SwitchIndexed(k);
    SwitchFrame(k);
  }

  lemma Starts(t: TaskId, q: nat, k: Kernel)
    requires AllReady(k) && t !in k.tcbs && q < PRIORITIES && forall u :: u in k.tcbs ==> k.tcbs[u].priority < q
    ensures Enabled(k, 0, Life(TaskCreate(t, q)))
    ensures var k1 := Do(k, 0, Life(TaskCreate(t, q)));
            && Housed(k1, 0) && Enabled(k1, 0, Clock(ContextSwitch))
            && var k2 := Do(k1, 0, Clock(ContextSwitch));
               AllReady(k2) && k2.current == t && k2.tcbs == k.tcbs[t := Tcb(q, q, 0, 0, CodedPriority(q))]
  {
    hide SwitchContext, Create, Coherent, At, IndexedLists, HousedMaps;
    Created(t, q, k);
    SwitchedTo(Do(k, 0, Life(TaskCreate(t, q))), t);
  }

  lemma SwitchFrame(k: Kernel)
    requires Coherent(k) && ClockEnabled(k, ContextSwitch)
    ensures SwitchContext(k).events == k.events && SwitchContext(k).suspended == k.suspended
  {
  }

  /** A task is created and, outranking all others, switched to. */
  lemma StartsInRun(s: System, steps: seq<MutexStep>, s1: System, t: TaskId, q: nat)
    returns (steps': seq<MutexStep>, s2: System)
    requires MutexRun(s, 0, {}, steps, s1) && AllReady(s1.k)
    requires t !in s1.k.tcbs && q < PRIORITIES && forall u :: u in s1.k.tcbs ==> s1.k.tcbs[u].priority < q
    ensures MutexRun(s, 0, {}, steps', s2) && AllReady(s2.k) && s2.mutexes == s1.mutexes
    ensures s2.k.current == t && s2.k.tcbs == s1.k.tcbs[t := Tcb(q, q, 0, 0, CodedPriority(q))]
  {
    hide MutexRun, AllReady, HousedMaps, Coherent, Do;
    var create, switch := KernelStep(Life(TaskCreate(t, q))), KernelStep(Clock(ContextSwitch));
    assert Housed(s1.k, 0) by { AllReadyHoused(s1.k); }
    Starts(t, q, s1.k);
    var sc := DoMutex(s1, 0, {}, create);
    RunExtends(s, 0, {}, steps, s1, create);
    s2 := DoMutex(sc, 0, {}, switch);
    RunExtends(s, 0, {}, steps + [create], sc, switch);
    steps' := steps + [create] + [switch];
  }

  lemma AllReadyHoused(k: Kernel)
    requires AllReady(k)
    ensures Housed(k, 0)
  {
  }

  lemma InitialReady()
    ensures AllReady(Initial(0)) && Initial(0).tcbs == map[0 := Tcb(0, 0, 0, 0, CodedPriority(0))]
  {
    assert Housed(Initial(0), 0) by { InitialHoused(); }
    hide HousedMaps, Coherent;
    InitialIndexed(0);
    hide IndexedLists;
  }

  lemma InitialHoused()
    ensures Housed(Initial(0), 0)
  {
    hide Coherent, HousedMaps, IndexedLists;
    InitialSound(0);
  }

  /** The running task takes a new mutex. */
  lemma TakesNew(s: System, steps: seq<MutexStep>, s1: System, m: MutexId) returns (steps': seq<MutexStep>, s2: System)
    requires MutexRun(s, 0, {}, steps, s1) && AllReady(s1.k) && m !in s1.mutexes
    ensures MutexRun(s, 0, {}, steps', s2) && AllReady(s2.k) && s2.mutexes == s1.mutexes[m := Mutex(0, HeldBy(s1.k.current), 0)]
    ensures s1.k.current in s1.k.tcbs && s2.k == HoldMutex(s1.k)
  {
    hide MutexRun, HousedMaps, IndexedLists, Consistent;
    var sc := DoMutex(s1, 0, {}, CreateMutex(m));
    RunExtends(s, 0, {}, steps, s1, CreateMutex(m));
    s2 := DoMutex(sc, 0, {}, Take(m));
    RunExtends(s, 0, {}, steps + [CreateMutex(m)], sc, Take(m));
    steps' := steps + [CreateMutex(m)] + [Take(m)];
    StepHoused(s1.k, 0, Rank(MutexTaken));
    StepIndexed(s1.k, 0, Rank(MutexTaken));
  }

  /** The running task wants a mutex of a lower-ranked holder, and then the holder's base is set above what it inherited. */
  lemma Stranded(s: System, steps: seq<MutexStep>, s1: System, m: MutexId, t: TaskId, q: nat)
    returns (steps': seq<MutexStep>, s2: System)
    requires MutexRun(s, 0, {}, steps, s1) && AllReady(s1.k) && m in s1.mutexes && s1.mutexes[m].holder == HeldBy(t)
    requires t in s1.k.tcbs && s1.k.current in s1.k.tcbs && q < PRIORITIES
    requires s1.k.tcbs[t].base <= s1.k.tcbs[t].priority < s1.k.tcbs[s1.k.current].priority < q
    ensures MutexRun(s, 0, {}, steps', s2) && t in s2.k.tcbs
    ensures s2.k.tcbs[t].priority == s1.k.tcbs[s1.k.current].priority && s2.k.tcbs[t].base == q
  {
    hide MutexRun, Refile, HousedMaps, IndexedLists, Consistent, At;
    var change := KernelStep(Rank(PriorityChange(t, q)));
    var sc := DoMutex(s1, 0, {}, BlockOn(m));
    RunExtends(s, 0, {}, steps, s1, BlockOn(m));
    StepHoused(s1.k, 0, Rank(PriorityInherit(t)));
    s2 := DoMutex(sc, 0, {}, change);
    RunExtends(s, 0, {}, steps + [BlockOn(m)], sc, change);
    steps' := steps + [BlockOn(m)] + [change];
  }

  /** So a state in which a task runs below its base can be reached from the start of the scheduler. */
  lemma BelowBaseReached() returns (steps: seq<MutexStep>, s: System)
    requires PRIORITIES >= 4
    ensures MutexRun(System(Initial(0), map[]), 0, {}, steps, s)
    ensures 1 in s.k.tcbs && s.k.tcbs[1].priority == 2 && s.k.tcbs[1].base == 3
  {
    hide AllReady, Initial;
    var s0 := System(Initial(0), map[]);
    InitialReady();
    assert MutexRun(s0, 0, {}, [], s0);
    hide MutexRun;
    var steps1, s1 := StartsInRun(s0, [], s0, 1, 1);
    var steps2, s2 := TakesNew(s0, steps1, s1, 0);
    var steps3, s3 := StartsInRun(s0, steps2, s2, 2, 2);
    steps, s := Stranded(s0, steps3, s3, 0, 1, 3);
  }
}
