/**
 What uxTaskGetSystemState reports, and that it reports every task exactly once.
 */
module SystemState {
  import opened Rings
  import opened Families
  import opened Kernels
  import opened KernelSteps

  datatype TaskState = StateReady | StateBlocked | StateSuspended | StateDeleted

  datatype Status = Status(handle: TaskId, state: TaskState, priority: nat, base: nat)

  /** The order in which a full turn of the index visits the items, starting behind the first one it meets. */
  function Turn<T>(r: Ring<T>): (s: seq<T>)
    requires r.at <= |r.items|
    ensures |s| == |r.items|
  {
    if r.items == [] then [] else r.items[Next(r).at..] + r.items[..Next(r).at]
  }

  lemma TurnVisitsAll<T>(r: Ring<T>)
    requires Valid(r)
    ensures Distinct(Turn(r))
    ensures forall x :: x in Turn(r) <==> x in r.items
  {
    if r.items != [] {
      var a := Next(r).at;
      assert r.items == r.items[..a] + r.items[a..];
    }
  }

  /** The state a list stands for, before the suspended list is looked at more closely. */
  function StateNamed(l: StateList): TaskState {
    match l
    case Ready(_) => StateReady
    case Suspended => StateSuspended
    case Terminating => StateDeleted
    case _ => StateBlocked
  }

  /** A task of the suspended list that waits for an event is blocked without a timeout. */
  function StatusOf(k: Kernel, l: StateList, t: TaskId): Status
    requires t in k.tcbs
  {
    Status(t, if l == Suspended && t in k.events.home then StateBlocked else StateNamed(l),
           k.tcbs[t].priority, k.tcbs[t].base)
  }

  /** The tasks of one list in the order they are reported, each of them filed there. */
  function TurnOf(k: Kernel, l: StateList): (turn: seq<TaskId>)
    requires Coherent(k)
    ensures |turn| == |At(k.states, l).items| && Distinct(turn)
    ensures forall t :: t in turn <==> t in k.states.home && k.states.home[t] == l
  {
    TurnVisitsAll(At(k.states, l));
    Turn(At(k.states, l))
  }

  /** One list's share of the report. */
  function ListReport(k: Kernel, l: StateList): (s: seq<Status>)
    requires Coherent(k)
    ensures |s| == |At(k.states, l).items|
  {
    hide Consistent, At;
    var turn := TurnOf(k, l);
    assert forall i :: 0 <= i < |turn| ==> turn[i] in k.states.home;
    seq(|turn|, i requires 0 <= i < |turn| => StatusOf(k, l, turn[i]))
  }

  function Report(k: Kernel, ls: seq<StateList>): seq<Status>
    requires Coherent(k)
  {
    if ls == [] then [] else Report(k, ls[..|ls| - 1]) + ListReport(k, ls[|ls| - 1])
  }

  function Handles(s: seq<Status>): (h: seq<TaskId>)
    ensures |h| == |s|
    ensures forall i :: 0 <= i < |s| ==> h[i] == s[i].handle
  {
    seq(|s|, i requires 0 <= i < |s| => s[i].handle)
  }

  lemma ListReportAt(k: Kernel, l: StateList, i: nat)
    requires Coherent(k) && i < |At(k.states, l).items|
    ensures var t := Turn(At(k.states, l))[i]; t in k.tcbs && ListReport(k, l)[i] == StatusOf(k, l, t)
  {
    hide At;
    assert TurnOf(k, l)[i] in TurnOf(k, l);
  }

  /** A list's report depends on that list alone. */
  lemma SameListReport(k: Kernel, k': Kernel, l: StateList)
    requires Coherent(k) && Coherent(k') && At(k'.states, l) == At(k.states, l)
    requires k'.tcbs == k.tcbs && k'.events == k.events
    ensures ListReport(k', l) == ListReport(k, l)
  {
    hide Consistent, At;
    assert forall i :: 0 <= i < |TurnOf(k, l)| ==> TurnOf(k, l)[i] in k.states.home;
  }

  lemma ReportExtends(k: Kernel, ls: seq<StateList>, l: StateList)
    requires Coherent(k)
    ensures Report(k, ls + [l]) == Report(k, ls) + ListReport(k, l)
  {
    assert (ls + [l])[..|ls|] == ls;
  }

  lemma ListHandles(k: Kernel, l: StateList)
    requires Coherent(k)
    ensures Handles(ListReport(k, l)) == TurnOf(k, l)
  {
  }

  /** The order in which uxTaskGetSystemState goes through the lists. */
  lemma OrderOfLists(k: Kernel)
    ensures var done := ReadyLists(0) + [DelayedList(k)] + [OverflowList(k)];
            && DelayedList(k) !in ReadyLists(0) && OverflowList(k) !in ReadyLists(0) + [DelayedList(k)]
            && Terminating !in done && Suspended !in done + [Terminating]
            && done + [Terminating] + [Suspended] == AllLists(k)
  {
  }

  /** Reporting distinct lists names exactly the tasks filed in them, each once, with its true state. */
  lemma {:induction false} ReportExact(k: Kernel, ls: seq<StateList>)
    requires Coherent(k) && Distinct(ls)
    ensures Distinct(Handles(Report(k, ls)))
    ensures forall t :: t in Handles(Report(k, ls)) <==> t in k.states.home && k.states.home[t] in ls
    ensures forall s :: s in Report(k, ls) ==> s.handle in k.states.home && s.handle in k.tcbs
                                               && s == StatusOf(k, k.states.home[s.handle], s.handle)
  {
    hide Consistent, At, ListReport, TurnOf;
    if ls != [] {
      var rest, l := ls[..|ls| - 1], ls[|ls| - 1];
      ReportExact(k, rest);
      ListHandles(k, l);
      assert Handles(Report(k, ls)) == Handles(Report(k, rest)) + TurnOf(k, l);
      assert ls == rest + [l];
      ListStatuses(k, l);
    }
  }

  lemma ListStatuses(k: Kernel, l: StateList)
    requires Coherent(k)
    ensures forall s :: s in ListReport(k, l) ==> s.handle in k.states.home && s.handle in k.tcbs
                                                  && s == StatusOf(k, k.states.home[s.handle], s.handle)
  {
    hide Consistent, At, TurnOf;
    var turn := TurnOf(k, l);
    assert forall i :: 0 <= i < |turn| ==> turn[i] in turn;
  }

  /** The sizes of the lists, added up. */
  function Population(k: Kernel, ls: seq<StateList>): nat {
    if ls == [] then 0 else Population(k, ls[..|ls| - 1]) + |At(k.states, ls[|ls| - 1]).items|
  }

  lemma {:induction false} ReportLength(k: Kernel, ls: seq<StateList>)
    requires Coherent(k)
    ensures |Report(k, ls)| == Population(k, ls)
  {
    if ls != [] {
      ReportLength(k, ls[..|ls| - 1]);
    }
  }

  lemma {:induction false} DistinctCount<T>(s: seq<T>, all: set<T>)
    requires Distinct(s) && forall x :: x in s <==> x in all
    ensures |s| == |all|
  {
    if s == [] {
      assert all == {};
    } else {
      var x := s[|s| - 1];
      var rest := s[..|s| - 1];
      assert s == rest + [x];
      DistinctCount(rest, all - {x});
    }
  }

  /** Every task is reported exactly once, and the list sizes add up to the number of tasks. */
  lemma EveryTaskOnce(k: Kernel, idle: TaskId)
    requires Housed(k, idle)
    ensures Distinct(Handles(Report(k, AllLists(k))))
    ensures forall t :: t in Handles(Report(k, AllLists(k))) <==> t in k.tcbs
    ensures |Report(k, AllLists(k))| == Population(k, AllLists(k)) == |k.tcbs|
  {
    hide Consistent, At, Report;
    var handles := Handles(Report(k, AllLists(k)));
    ReportExact(k, AllLists(k));
    ReportLength(k, AllLists(k));
    assert forall t :: t in k.tcbs ==> t in k.states.home && k.states.home[t] in AllLists(k);
    DistinctCount(handles, k.tcbs.Keys);
  }

  /**
   The state reported is the true one: ready in a ready list, suspended when xTaskIsTaskSuspended would say so, deleted
   while waiting for termination, and blocked otherwise, with or without a timeout; and the priorities are the task's.
   */
  lemma StatusTrue(k: Kernel, idle: TaskId, t: TaskId)
    requires Housed(k, idle) && t in k.tcbs
    ensures t in k.states.home
    ensures var l := k.states.home[t];
            var s := StatusOf(k, l, t);
            && s.handle == t && s.priority == k.tcbs[t].priority && s.base == k.tcbs[t].base
            && (s.state == StateReady <==> l.Ready?)
            && (s.state == StateDeleted <==> l == Terminating)
            && (s.state == StateSuspended <==> l == Suspended && t !in k.events.home)
            && (s.state == StateBlocked <==> l == FirstDelayed || l == SecondDelayed || (l == Suspended && t in k.events.home))
  {
    hide Coherent;
  }
}
