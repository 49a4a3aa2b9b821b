/**
 The worker pool of examples/thread_pool.rs: N workers share a queue behind a lock, refill it from the
 messenger behind a second lock, and handle one event each at a time outside both.
 */
module WorkerQueue {
  import opened Bytes

  datatype Event<T> = Inactive | Work(item: T)

  /** Where a worker is in its loop: before the queue lock, holding it, holding both locks inside
      `fetch_events`, handling an event without any lock, or finished. */
  datatype Phase<T> = Outside | Locked | Fetching | Carrying(event: Event<T>) | Done

  datatype Pop<T> = Pop(worker: nat, event: Event<T>)

  /** `fetched` and `pops` record what `fetch_events` returned and which worker took what. */
  datatype Pool<T> = Pool(
    workers: seq<Phase<T>>,
    lock: Option<nat>,
    messengerLock: Option<nat>,
    queue: seq<Event<T>>,
    fetched: seq<Event<T>>,
    pops: seq<Pop<T>>)

  function Start<T>(n: nat): Pool<T> {
    Pool(seq(n, i => Outside), None, None, [], [], [])
  }

  datatype Step<T> =
    | Lock(w: nat)
    | LockMessenger(w: nat)
    | Fetch(w: nat, batch: seq<Event<T>>)
    | TakeFront(w: nat)
    | Dispatch(w: nat)

  predicate Enabled<T>(s: Pool<T>, step: Step<T>) {
    && step.w < |s.workers|
    && match step
       case Lock(w) => s.workers[w].Outside? && s.lock == None
       case LockMessenger(w) => s.workers[w].Locked? && s.queue == [] && s.messengerLock == None
       case Fetch(w, _) => s.workers[w].Fetching?
       case TakeFront(w) => s.workers[w].Locked? && s.queue != []
       case Dispatch(w) => s.workers[w].Carrying?
  }

  function Next<T>(s: Pool<T>, step: Step<T>): Pool<T>
    requires Enabled(s, step)
  {
    match step
    case Lock(w) => s.(workers := s.workers[w := Locked], lock := Some(w))
    case LockMessenger(w) => s.(workers := s.workers[w := Fetching], messengerLock := Some(w))
    case Fetch(w, batch) =>
      s.(workers := s.workers[w := Locked], messengerLock := None, queue := batch, fetched := s.fetched + batch)
    case TakeFront(w) =>
      s.(workers := s.workers[w := Carrying(s.queue[0])], lock := None, queue := s.queue[1..],
         pops := s.pops + [Pop(w, s.queue[0])])
    case Dispatch(w) => s.(workers := s.workers[w := if s.workers[w].event.Inactive? then Done else Outside])
  }

  /** The transport reports Inactive alone or not at all. */
  ghost predicate FairBatch<T>(batch: seq<Event<T>>) {
    batch == [Inactive] || Inactive !in batch
  }

  /** Any interleaving of the workers' steps. */
  ghost predicate Runs<T>(s: Pool<T>, steps: seq<Step<T>>)
    decreases |steps|, 0
  {
    steps == []
    || (var (init, last) := (steps[..|steps| - 1], steps[|steps| - 1]);
        Runs(s, init) && Enabled(After(s, init), last))
  }

  function After<T>(s: Pool<T>, steps: seq<Step<T>>): Pool<T>
    requires Runs(s, steps)
    decreases |steps|, 1
  {
    if steps == [] then s else Next(After(s, steps[..|steps| - 1]), steps[|steps| - 1])
  }

  /** Every batch fetched in the run is such a batch. */
  ghost predicate FairBatches<T>(steps: seq<Step<T>>) {
    forall i :: 0 <= i < |steps| && steps[i].Fetch? ==> FairBatch(steps[i].batch)
  }

  // ---------------------------------------------------------------------------
  // What every interleaving keeps
  // ---------------------------------------------------------------------------

  function Events<T>(pops: seq<Pop<T>>): seq<Event<T>> {
    seq(|pops|, i requires 0 <= i < |pops| => pops[i].event)
  }

  /** How many Inactive events worker `w` has taken. */
  function Exits<T>(pops: seq<Pop<T>>, w: nat): nat {
    if pops == [] then 0
    else Exits(pops[..|pops| - 1], w) + (if pops[|pops| - 1] == Pop(w, Inactive) then 1 else 0)
  }

  predicate Exited<T>(phase: Phase<T>) {
    phase.Done? || phase == Carrying(Inactive)
  }

  /** Inside the queue lock. */
  predicate Inside<T>(phase: Phase<T>) {
    phase.Locked? || phase.Fetching?
  }

  /** The locks are held by whoever is inside, and the messenger lock is only taken inside the queue lock. */
  predicate LocksOk<T>(s: Pool<T>) {
    && (forall w: nat :: w < |s.workers| ==> (s.lock == Some(w) <==> Inside(s.workers[w])))
    && (forall w: nat :: w < |s.workers| ==> (s.messengerLock == Some(w) <==> s.workers[w].Fetching?))
    && (s.lock.Some? ==> s.lock.value < |s.workers|)
    && (s.messengerLock.Some? ==> s.messengerLock == s.lock)
  }

  ghost predicate QueueOk<T>(s: Pool<T>) {
    && s.fetched == Events(s.pops) + s.queue
    && (s.messengerLock.Some? ==> s.queue == [])
  }

  /** With batches in which Inactive stands alone, nothing is left in the queue once every worker is exiting. */
  ghost predicate TailOk<T>(s: Pool<T>) {
    && FairBatch(s.queue)
    && ((forall w :: 0 <= w < |s.workers| ==> Exited(s.workers[w])) && |s.workers| > 0 ==> s.queue == [])
  }

  predicate ExitsOk<T>(s: Pool<T>) {
    forall w :: 0 <= w < |s.workers| ==> Exits(s.pops, w) == if Exited(s.workers[w]) then 1 else 0
  }

  ghost predicate PoolOk<T>(s: Pool<T>) {
    LocksOk(s) && QueueOk(s) && ExitsOk(s)
  }

  lemma StartOk<T>(n: nat)
    ensures PoolOk(Start<T>(n)) && TailOk(Start<T>(n))
  {
  }

  lemma ExitsSnoc<T>(pops: seq<Pop<T>>, pop: Pop<T>, w: nat)
    ensures Exits(pops + [pop], w) == Exits(pops, w) + (if pop == Pop(w, Inactive) then 1 else 0)
  {
    assert (pops + [pop])[..|pops|] == pops;
  }

  lemma StepKeepsLocks<T>(s: Pool<T>, step: Step<T>)
    requires LocksOk(s) && Enabled(s, step)
    ensures LocksOk(Next(s, step))
  {
  }

  lemma StepKeepsQueue<T>(s: Pool<T>, step: Step<T>)
    requires LocksOk(s) && QueueOk(s) && Enabled(s, step)
    ensures QueueOk(Next(s, step))
  {
    var s' := Next(s, step);
    if step.TakeFront? {
      assert Events(s'.pops) == Events(s.pops) + [s.queue[0]];
      assert s.queue == [s.queue[0]] + s.queue[1..];
      assert Events(s.pops) + s.queue == Events(s.pops) + [s.queue[0]] + s.queue[1..];
    } else if step.Fetch? {
      assert Events(s.pops) + s.queue == Events(s.pops);
    }
  }

  lemma StepKeepsTail<T>(s: Pool<T>, step: Step<T>)
    requires TailOk(s) && Enabled(s, step) && (step.Fetch? ==> FairBatch(step.batch))
    ensures TailOk(Next(s, step))
  {
    var s' := Next(s, step);
    if step.TakeFront? {
      assert s.queue == [s.queue[0]] + s.queue[1..];
      assert s.queue == [Inactive] ==> s.queue[1..] == [];
      assert Exited(s'.workers[step.w]) ==> s.queue[0] == Inactive;
    } else if step.Fetch? {
      assert !Exited(s'.workers[step.w]);
    } else {
      forall w | 0 <= w < |s.workers| && Exited(s'.workers[w])
        ensures Exited(s.workers[w])
      {
      }
    }
  }

  lemma StepKeepsExits<T>(s: Pool<T>, step: Step<T>)
    requires ExitsOk(s) && Enabled(s, step)
    ensures ExitsOk(Next(s, step))
  {
    if step.TakeFront? {
      forall w | 0 <= w < |s.workers|
        ensures Exits(Next(s, step).pops, w) == if Exited(Next(s, step).workers[w]) then 1 else 0
      {
        ExitsSnoc(s.pops, Pop(step.w, s.queue[0]), w);
      }
    }
  }

  /** In every interleaving of any number of workers: both locks exclude each other's holders, what was fetched
      is what was taken, in order, followed by what is queued, and a worker takes one Inactive exactly if it is
      exiting or gone. */
  lemma {:induction false} EveryRunKeeps<T>(s: Pool<T>, steps: seq<Step<T>>)
    requires PoolOk(s) && Runs(s, steps)
    ensures PoolOk(After(s, steps))
    ensures |After(s, steps).workers| == |s.workers|
    decreases |steps|
  {
    hide LocksOk, QueueOk, ExitsOk;
    if steps != [] {
      var (init, last) := (steps[..|steps| - 1], steps[|steps| - 1]);
      EveryRunKeeps(s, init);
      StepKeepsLocks(After(s, init), last);
      StepKeepsQueue(After(s, init), last);
      StepKeepsExits(After(s, init), last);
    }
  }

  lemma {:induction false} FairRunsKeepTail<T>(s: Pool<T>, steps: seq<Step<T>>)
    requires TailOk(s) && Runs(s, steps) && FairBatches(steps)
    ensures TailOk(After(s, steps))
    decreases |steps|
  {
    hide TailOk;
    if steps != [] {
      var (init, last) := (steps[..|steps| - 1], steps[|steps| - 1]);
      FairRunsKeepTail(s, init);
      StepKeepsTail(After(s, init), last);
    }
  }

  /** From the start: no event is lost, duplicated or taken out of order, two workers are never inside the
      queue lock together, and a worker that is inside the messenger lock is inside the queue lock. */
  lemma QueueSafety<T>(n: nat, steps: seq<Step<T>>)
    requires Runs(Start(n), steps)
    ensures var s := After(Start(n), steps);
            && s.fetched == Events(s.pops) + s.queue
            && (forall i, j :: 0 <= i < |s.workers| && 0 <= j < |s.workers| && Inside(s.workers[i]) && Inside(s.workers[j])
                  ==> i == j)
            && (s.messengerLock.Some? ==> s.lock == s.messengerLock)
  {
    StartOk<T>(n);
    EveryRunKeeps(Start(n), steps);
    var s := After(Start(n), steps);
    forall i: nat, j: nat | i < |s.workers| && j < |s.workers| && Inside(s.workers[i]) && Inside(s.workers[j])
      ensures i == j
    {
      assert s.lock == Some(i) && s.lock == Some(j);
    }
  }

  // ---------------------------------------------------------------------------
  // Shutdown
  // ---------------------------------------------------------------------------

  /** After `close_all`, if nothing is opened again, every fetch returns exactly [Inactive]. */
  ghost predicate AfterClose<T>(steps: seq<Step<T>>) {
    forall i :: 0 <= i < |steps| && steps[i].Fetch? ==> steps[i].batch == [Inactive]
  }

  function EventWeight<T>(e: Event<T>): nat {
    if e.Inactive? then 1 else 6
  }

  function QueueWeight<T>(queue: seq<Event<T>>): nat {
    if queue == [] then 0 else EventWeight(queue[0]) + QueueWeight(queue[1..])
  }

  function PhaseWeight<T>(phase: Phase<T>, empty: bool): nat {
    match phase
    case Done => 0
    case Carrying(e) => if e.Inactive? then 1 else 6
    case Locked => if empty then 4 else 1
    case Fetching => 3
    case Outside => 5
  }

  function WorkersWeight<T>(workers: seq<Phase<T>>, empty: bool): nat {
    if workers == [] then 0 else PhaseWeight(workers[0], empty) + WorkersWeight(workers[1..], empty)
  }

  function Measure<T>(s: Pool<T>): nat {
    WorkersWeight(s.workers, s.queue == []) + QueueWeight(s.queue)
  }

  lemma {:induction false} WeightUpdate<T>(workers: seq<Phase<T>>, w: nat, phase: Phase<T>, before: bool, after: bool)
    requires w < |workers|
    requires before != after ==> forall i :: 0 <= i < |workers| && i != w ==> !workers[i].Locked?
    ensures WorkersWeight(workers[w := phase], after) + PhaseWeight(workers[w], before)
            == WorkersWeight(workers, before) + PhaseWeight(phase, after)
  {
    if w == 0 {
      assert workers[0 := phase][1..] == workers[1..];
      NobodyLocked(workers[1..], before, after);
    } else {
      assert workers[w := phase][1..] == workers[1..][w - 1 := phase];
      WeightUpdate(workers[1..], w - 1, phase, before, after);
    }
  }

  lemma {:induction false} NobodyLocked<T>(workers: seq<Phase<T>>, before: bool, after: bool)
    requires before != after ==> forall i :: 0 <= i < |workers| ==> !workers[i].Locked?
    ensures WorkersWeight(workers, before) == WorkersWeight(workers, after)
  {
    if workers != [] {
      NobodyLocked(workers[1..], before, after);
    }
  }

  lemma OneInactiveWeighs<T>()
    ensures QueueWeight<T>([Inactive]) == 1
  {
    var queue: seq<Event<T>> := [Inactive];
    assert queue[1..] == [];
  }

  /** Every step after the close comes nearer to the end. */
  lemma StepDecreases<T>(s: Pool<T>, step: Step<T>)
    requires LocksOk(s) && QueueOk(s) && Enabled(s, step) && (step.Fetch? ==> step.batch == [Inactive])
    ensures Measure(Next(s, step)) < Measure(s)
  {
    var s' := Next(s, step);
    forall i: nat | i < |s.workers| && i != step.w && s.queue != s'.queue
      ensures !s.workers[i].Locked?
    {
      assert s.lock == Some(step.w);
    }
    WeightUpdate(s.workers, step.w, s'.workers[step.w], s.queue == [], s'.queue == []);
    OneInactiveWeighs<T>();
    if step.Fetch? {
      assert s.messengerLock == Some(step.w);
    }
    hide WorkersWeight, LocksOk, QueueOk;
  }

  /** No interleaving can take more steps than the measure says. */
  lemma {:induction false} ShutdownTerminates<T>(s: Pool<T>, steps: seq<Step<T>>)
    requires PoolOk(s) && Runs(s, steps) && AfterClose(steps)
    ensures |steps| + Measure(After(s, steps)) <= Measure(s)
    decreases |steps|
  {
    hide LocksOk, QueueOk, ExitsOk, Measure;
    if steps != [] {
      var (init, last) := (steps[..|steps| - 1], steps[|steps| - 1]);
      ShutdownTerminates(s, init);
      EveryRunKeeps(s, init);
      StepDecreases(After(s, init), last);
    }
  }

  /** As long as a worker is not gone, some step is possible: there is no deadlock. */
  lemma NoDeadlock<T>(s: Pool<T>, w: nat) returns (step: Step<T>)
    requires LocksOk(s) && w < |s.workers| && !s.workers[w].Done?
    ensures Enabled(s, step) && (step.Fetch? ==> step.batch == [Inactive])
  {
    if s.lock.Some? {
      var holder := s.lock.value;
      if s.workers[holder].Fetching? {
        step := Fetch(holder, [Inactive]);
      } else if s.queue == [] {
        step := LockMessenger(holder);
      } else {
        step := TakeFront(holder);
      }
    } else if s.workers[w].Outside? {
      step := Lock(w);
    } else {
      step := Dispatch(w);
    }
  }

  /** Some worker can take a step that the close allows. */
  ghost predicate CanGoOn<T(!new)>(s: Pool<T>) {
    exists step: Step<T> :: Enabled(s, step) && (step.Fetch? ==> step.batch == [Inactive])
  }

  /** Every worker is gone after taking one Inactive, and every event fetched was taken. */
  ghost predicate CleanEnd<T>(s: Pool<T>) {
    && (forall w :: 0 <= w < |s.workers| ==> s.workers[w].Done? && Exits(s.pops, w) == 1)
    && s.queue == [] && Events(s.pops) == s.fetched
  }

  /** A run after the close that cannot be continued has every worker gone, each after taking one Inactive, with
      nothing left in the queue. With the bound above: whatever the schedule, the pool shuts down cleanly. */
  lemma ShutdownIsClean<T(!new)>(n: nat, before: seq<Step<T>>, steps: seq<Step<T>>)
    requires Runs(Start(n), before) && FairBatches(before)
    requires Runs(After(Start(n), before), steps) && AfterClose(steps)
    requires n > 0
    requires !CanGoOn(After(After(Start(n), before), steps))
    ensures var s := After(After(Start(n), before), steps); |s.workers| == n && CleanEnd(s)
  {
    StartOk<T>(n);
    EveryRunKeeps(Start(n), before);
    EveryRunKeeps(After(Start(n), before), steps);
    FairRunsKeepTail(Start(n), before);
    FairRunsKeepTail(After(Start(n), before), steps);
    var s := After(After(Start(n), before), steps);
    forall w: nat | w < n
      ensures s.workers[w].Done?
    {
      if !s.workers[w].Done? {
        var step := NoDeadlock(s, w);
      }
    }
    assert forall w :: 0 <= w < |s.workers| ==> Exited(s.workers[w]);
    assert Events(s.pops) + [] == Events(s.pops);
  }

  // ---------------------------------------------------------------------------
  // The worker loop
  // ---------------------------------------------------------------------------

  lemma RunsOne<T>(s: Pool<T>, steps: seq<Step<T>>, step: Step<T>)
    requires Runs(s, steps) && Enabled(After(s, steps), step)
    ensures Runs(s, steps + [step]) && After(s, steps + [step]) == Next(After(s, steps), step)
  {
    assert (steps + [step])[..|steps|] == steps;
  }

  /** The shared state of the pool; `workers`, `fetched` and `pops` only record. */
  class SharedQueue<T(!new)> {
    var events: seq<Event<T>>
    var lock: Option<nat>
    var messengerLock: Option<nat>
    ghost var workers: seq<Phase<T>>
    ghost var fetched: seq<Event<T>>
    ghost var pops: seq<Pop<T>>

    constructor (n: nat)
      ensures Model() == Start<T>(n)
    {
      events, lock, messengerLock := [], None, None;
      workers, fetched, pops := seq(n, i => Outside), [], [];
    }

    ghost function Model(): Pool<T>
      reads this
    {
      Pool(workers, lock, messengerLock, events, fetched, pops)
    }

    method LockQueue(w: nat)
      requires Enabled(Model(), Lock(w))
      modifies this
      ensures Model() == Next(old(Model()), Lock(w))
    {
      lock := Some(w);
      workers := workers[w := Locked];
    }

    method LockMessenger(w: nat)
      requires Enabled(Model(), Step.LockMessenger(w))
      modifies this
      ensures Model() == Next(old(Model()), Step.LockMessenger(w))
    {
      messengerLock := Some(w);
      workers := workers[w := Fetching];
    }

    /** The queue becomes what was fetched, and the messenger lock is given back. */
    method Refill(w: nat, newEvents: seq<Event<T>>)
      requires Enabled(Model(), Fetch(w, newEvents))
      modifies this
      ensures Model() == Next(old(Model()), Fetch(w, newEvents))
    {
      events := newEvents;
      fetched := fetched + newEvents;
      messengerLock := None;
      workers := workers[w := Locked];
    }

    method PopFront(w: nat) returns (event: Event<T>)
      requires Enabled(Model(), TakeFront(w))
      modifies this
      ensures Model() == Next(old(Model()), TakeFront(w)) && event == old(events)[0]
    {
      event := events[0];
      pops := pops + [Pop(w, event)];
      workers := workers[w := Carrying(event)];
      events := events[1..];
      lock := None;
    }

    /** The critical section of `worker_loop`, when the lock is free: take it, refill the queue as long as it is
        empty, take the front event and give the lock back. `batches` are what `fetch_events` will return; with
        no further answer the worker is still waiting in it. */
    method TakeEvent(w: nat, batches: seq<seq<Event<T>>>)
      returns (event: Option<Event<T>>, used: nat, ghost steps: seq<Step<T>>)
      requires LocksOk(Model()) && w < |workers| && workers[w].Outside? && lock == None
      modifies this
      ensures Runs(old(Model()), steps) && Model() == After(old(Model()), steps)
      ensures used <= |batches| && w < |workers|
      ensures event.Some? ==> workers[w] == Carrying(event.value) && lock == None
      ensures event.None? ==> workers[w] == Fetching && used == |batches|
      ensures old(events) != [] ==> used == 0 && event == Some(old(events)[0]) && events == old(events)[1..]
      ensures forall i :: 0 <= i < used ==> batches[i] == [] || (i == used - 1 && event == Some(batches[i][0]))
    {
      ghost var start := Model();
      assert messengerLock == None;
      steps, used := [], 0;
      assert Runs(start, steps) && After(start, steps) == start;
      hide LocksOk, Runs, After;
      RunsOne(start, steps, Lock(w));
      steps := steps + [Lock(w)];
      LockQueue(w);
      while events == []
        invariant Runs(start, steps) && Model() == After(start, steps)
        invariant w < |workers| && workers[w] == Locked && messengerLock == None
        invariant used <= |batches| && (used == 0 ==> events == old(events)) && (old(events) != [] ==> used == 0)
        invariant forall i :: 0 <= i < used ==> batches[i] == [] || (i == used - 1 && events == batches[i])
        decreases |batches| - used, events == []
      {
        RunsOne(start, steps, Step.LockMessenger(w));
        steps := steps + [Step.LockMessenger(w)];
        LockMessenger(w);
        if used == |batches| {
          event := None;
          return;
        }
        RunsOne(start, steps, Fetch(w, batches[used]));
        steps := steps + [Fetch(w, batches[used])];
        Refill(w, batches[used]);
        used := used + 1;
      }
      RunsOne(start, steps, TakeFront(w));
      steps := steps + [TakeFront(w)];
      var front := PopFront(w);
      event := Some(front);
    }

    /** `dispatch_event` as far as the loop is concerned: Inactive is the end of the worker. */
    method DispatchEvent(w: nat, event: Event<T>) returns (done: bool)
      requires w < |workers| && workers[w] == Carrying(event)
      modifies this`workers
      ensures done == event.Inactive?
      ensures Model() == Next(old(Model()), Dispatch(w))
    {
      done := event.Inactive?;
      workers := workers[w := if event.Inactive? then Done else Outside];
    }
  }
}
