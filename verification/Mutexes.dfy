/**
 Mutexes: queues of length one without data, that record their holder, and the priority a holder inherits.
 The accounting below holds over whole runs in which mutex operations alternate with every other kernel step.
 */
module Mutexes {
  import opened Kernels
  import opened Scheduler

  datatype Holder = Nobody | HeldBy(task: TaskId)

  /** uxMessagesWaiting, pxMutexHolder and the recursion count that shares storage with the read pointer. */
  datatype Mutex = Mutex(count: nat, holder: Holder, recursion: nat)

  type MutexId = nat

  datatype System = System(k: Kernel, mutexes: map<MutexId, Mutex>)

  // ---------------------------------------------------------------------------
  // Operations
  // ---------------------------------------------------------------------------

  /** The successful critical section of a receive. */
  function Taken(k: Kernel, m: Mutex): Mutex
    requires m.count > 0
  {
    m.(count := m.count - 1, holder := HeldBy(k.current))
  }

  predicate MayDisinherit(k: Kernel) {
    k.current in k.tcbs && k.tcbs[k.current].held > 0 && k.current in k.states.home
  }

  /** A mutex may be given when it is free, which is refused, or by the running task that holds it. */
  predicate MayGive(k: Kernel, m: Mutex) {
    m.count >= 1 || (m.holder == HeldBy(k.current) && MayDisinherit(k))
  }

  function GiveKernel(k: Kernel, m: Mutex): Kernel
    requires Coherent(k) && MayGive(k, m)
  {
    if m.count >= 1 then k else Disinherit(k, k.current)
  }

  function Given(m: Mutex): Mutex {
    if m.count >= 1 then m else m.(count := m.count + 1, holder := Nobody)
  }

  function TakenRecursively(k: Kernel, m: Mutex): Mutex {
    if m.holder == HeldBy(k.current) then m.(recursion := m.recursion + 1)
    else if m.count > 0 then Taken(k, m).(recursion := m.recursion + 1)
    else m
  }

  /** Whether a recursive take, without waiting, succeeds. */
  predicate TakesRecursively(k: Kernel, m: Mutex) {
    m.holder == HeldBy(k.current) || m.count > 0
  }

  /** The holder's count is never zero: the kernel decrements it without a check. */
  predicate MayGiveRecursively(k: Kernel, m: Mutex) {
    m.holder == HeldBy(k.current) ==> m.recursion > 0 && (m.recursion == 1 ==> MayGive(k, m))
  }

  function GivenRecursively(k: Kernel, m: Mutex): Mutex
    requires MayGiveRecursively(k, m)
  {
    if m.holder != HeldBy(k.current) then m
    else if m.recursion > 1 then m.(recursion := m.recursion - 1)
    else Given(m.(recursion := m.recursion - 1))
  }

  function GiveRecursivelyKernel(k: Kernel, m: Mutex): Kernel
    requires Coherent(k) && MayGiveRecursively(k, m)
  {
    if m.holder == HeldBy(k.current) && m.recursion == 1 then GiveKernel(k, m) else k
  }

  // ---------------------------------------------------------------------------
  // The mutex as it is kept
  // ---------------------------------------------------------------------------

  class MutexQueue {
    var messagesWaiting: nat
    var mutexHolder: Holder
    var recursiveCallCount: nat

    ghost function State(): Mutex
      reads this
    {
      Mutex(messagesWaiting, mutexHolder, recursiveCallCount)
    }

    /** xQueueCreateMutex: created taken by nobody, then given once to make it available. */
    constructor ()
      ensures State() == Mutex(1, Nobody, 0)
    {
      messagesWaiting, mutexHolder, recursiveCallCount := 0, Nobody, 0;
      new;
      messagesWaiting := messagesWaiting + 1;
    }

    /** The critical section of a receive, for a mutex. */
    method TryTake(kernel: TaskKernel) returns (ok: bool)
      requires kernel.Valid()
      modifies this, kernel`tcbs
      ensures ok <==> old(State()).count > 0
      ensures State() == if ok then Taken(old(kernel.State()), old(State())) else old(State())
      ensures kernel.State() == if ok then HoldMutex(old(kernel.State())) else old(kernel.State())
    {
      ok := messagesWaiting > 0;
      if ok {
        messagesWaiting := messagesWaiting - 1;
        kernel.IncrementMutexHeldCount();
        mutexHolder := HeldBy(kernel.current);
      }
    }

    /** What a task that is about to block on the mutex does to the holder's priority. */
    method Contend(kernel: TaskKernel)
      requires kernel.Valid() && (mutexHolder.HeldBy? ==> mutexHolder.task in kernel.tcbs)
      modifies kernel
      ensures kernel.State() == if mutexHolder.Nobody? then old(kernel.State())
                                else Inherit(old(kernel.State()), mutexHolder.task)
    {
      if mutexHolder.HeldBy? {
        kernel.InheritPriority(mutexHolder.task);
      }
    }

    /** The critical section of a send to a mutex. */
    method Give(kernel: TaskKernel) returns (ok: bool, switchRequired: bool)
      requires kernel.Valid() && MayGive(kernel.State(), State())
      modifies this, kernel
      ensures ok <==> old(State()).count < 1
      ensures State() == Given(old(State()))
      ensures kernel.State() == GiveKernel(old(kernel.State()), old(State()))
    {
      ok, switchRequired := messagesWaiting < 1, false;
      if ok {
        switchRequired := kernel.DisinheritPriority();
        mutexHolder := Nobody;
        messagesWaiting := messagesWaiting + 1;
      }
    }

    method TakeRecursively(kernel: TaskKernel) returns (ok: bool)
      requires kernel.Valid()
      modifies this, kernel`tcbs
      ensures ok <==> TakesRecursively(old(kernel.State()), old(State()))
      ensures State() == TakenRecursively(old(kernel.State()), old(State()))
      ensures kernel.State() == if ok && old(mutexHolder) != HeldBy(old(kernel.current))
                                then HoldMutex(old(kernel.State())) else old(kernel.State())
    {
      if mutexHolder == HeldBy(kernel.current) {
        recursiveCallCount := recursiveCallCount + 1;
        ok := true;
      } else {
        ok := TryTake(kernel);
        if ok {
          recursiveCallCount := recursiveCallCount + 1;
        }
      }
    }

    method GiveRecursively(kernel: TaskKernel) returns (ok: bool)
      requires kernel.Valid() && MayGiveRecursively(kernel.State(), State())
      modifies this, kernel
      ensures ok <==> old(mutexHolder) == HeldBy(old(kernel.current))
      ensures State() == GivenRecursively(old(kernel.State()), old(State()))
      ensures kernel.State() == GiveRecursivelyKernel(old(kernel.State()), old(State()))
    {
      ok := mutexHolder == HeldBy(kernel.current);
      if ok {
        recursiveCallCount := recursiveCallCount - 1;
        if recursiveCallCount == 0 {
          var given, switchRequired := Give(kernel);
        }
      }
    }
  }
}
