/** What every run of the pool guarantees: nothing lost, nothing run twice, a drain on stop, and
    exactly when stop() can fail to return. */
module TaskPoolLaws {
  import opened EventTypes
  import opened TaskPools

  lemma InitInv(workers: nat, clients: nat)
    ensures Inv(Init(workers, clients))
  {
    SumOfIdle(Init(workers, clients).workers);
  }

  lemma SameWorkers(s: Pool, a: Action)
    requires Enabled(s, a)
    ensures |Apply(s, a).workers| == |s.workers|
  {
  }

  lemma {:induction false} RunKeeps(s: Pool, acts: seq<Action>)
    requires Inv(s) && Legal(s, acts)
    ensures Inv(After(s, acts))
    ensures |After(s, acts).workers| == |s.workers|
    decreases |acts|
  {
    if acts != [] {
      StepKeeps(s, acts[0]);
      SameWorkers(s, acts[0]);
      RunKeeps(Apply(s, acts[0]), acts[1..]);
    }
  }

  lemma {:induction false} CountAtMost(workers: seq<Worker>)
    ensures Sum(workers, Counted) <= |workers|
  {
    if workers != [] { CountAtMost(workers[1..]); }
  }

  /** In every reachable state the enqueue log is the removed tasks, in order, followed by the
      deque; every removed task is completed, cleared or carried by exactly one worker; each task
      is called at most once, and has been called once it counts as completed; the running counter
      is the number of workers between ++ and -- and stays within 0 and the worker count; no worker
      has ever gone round without a task and without stop; and nobody waits on a non-empty deque
      while the lock is free. */
  lemma NothingLostNothingTwice(workers: nat, clients: nat, acts: seq<Action>)
    requires Legal(Init(workers, clients), acts)
    ensures var s := After(Init(workers, clients), acts);
            && |s.workers| == workers
            && |s.fates| <= |s.enqueued| && s.enqueued == s.enqueued[..|s.fates|] + s.tasks
            && (forall i :: 0 <= i < |s.fates| && s.fates[i].HeldBy? ==>
                  forall w :: 0 <= w < workers ==> (Carried(s.workers[w]) == Some(i) <==> w == s.fates[i].w))
            && (forall k, l :: 0 <= k < l < |s.begun| ==> s.begun[k] != s.begun[l])
            && (forall i :: 0 <= i < |s.fates| && s.fates[i].Completed? ==> i in s.begun)
            && (forall i :: i in s.begun ==> 0 <= i < |s.fates| && !s.fates[i].Cleared?)
            && s.running == Sum(s.workers, Counted) && 0 <= s.running <= workers
            && s.spins == 0
            && (s.owner.None? && s.tasks != [] ==> forall w :: 0 <= w < workers ==> !s.workers[w].Parked?)
  {
    InitInv(workers, clients);
    RunKeeps(Init(workers, clients), acts);
    var s := After(Init(workers, clients), acts);
    CountAtMost(s.workers);
  }

  /** Drain on stop: when stop() has joined at least one worker, every task pushed before stop_ was
      set has been called exactly once and completed, or was dropped by clear_waiting_tasks, and no
      worker left holding a task. */
  lemma StopDrains(workers: nat, clients: nat, acts: seq<Action>)
    requires Legal(Init(workers, clients), acts) && workers > 0
    requires After(Init(workers, clients), acts).stopper.Returned?
    ensures var s := After(Init(workers, clients), acts);
            && s.mark <= |s.fates|
            && (forall i :: 0 <= i < |s.fates| ==>
                  s.fates[i].Cleared? || (s.fates[i].Completed? && i in s.begun))
            && (forall k, l :: 0 <= k < l < |s.begun| ==> s.begun[k] != s.begun[l])
            && s.running == 0
  {
    InitInv(workers, clients);
    RunKeeps(Init(workers, clients), acts);
    var s := After(Init(workers, clients), acts);
    assert s.workers[0].Exited?;
    SumOfIdle(s.workers);
  }

  lemma {:induction false} SumOfIdle(workers: seq<Worker>)
    requires forall w :: 0 <= w < |workers| ==> workers[w].Exited? || workers[w].Parked? || workers[w].Wants?
    ensures Sum(workers, Counted) == 0
  {
    if workers != [] { SumOfIdle(workers[1..]); }
  }

  // ---- Termination after stop ---------------------------------------------------------------------

  function Rank(worker: Worker): nat {
    match worker
    case Exited => 0
    case Took(None) => 1
    case Taking => 2
    case Checking => 3
    case Wants => 4
    case Woken => 4
    case Parked(_, _) => 5
    case Parking(_) => 6
    case Ran(_) => 5
    case Busy(_) => 6
    case Starting(_) => 7
    case Took(Some(_)) => 8
  }

  function Work(s: Pool): nat {
    7 * |s.tasks| + Sum(s.workers, Rank)
  }

  /** A worker step changes only its own worker, and pays for it. */
  lemma WorkerStepPays(s: Pool, a: Action)
    requires s.stop && Enabled(s, a) && IsWorkerStep(a)
    ensures var s' := Apply(s, a);
            && a.w < |s'.workers| == |s.workers| && s'.workers == s.workers[a.w := s'.workers[a.w]]
            && 7 * |s'.tasks| + Rank(s'.workers[a.w]) < 7 * |s.tasks| + Rank(s.workers[a.w])
  {
  }

  /** Once stop_ is set every worker step, spurious wakeups included, lowers the measure, and no
      step but a new push raises it. */
  lemma WorkDecreasesAfterStop(s: Pool, a: Action)
    requires s.stop && Enabled(s, a)
    ensures IsWorkerStep(a) ==> Work(Apply(s, a)) < Work(s)
    ensures !IsWorkerStep(a) && !a.Push? ==> Work(Apply(s, a)) <= Work(s)
  {
    if IsWorkerStep(a) {
      WorkerStepPays(s, a);
      SumUpdate(s.workers, Rank, a.w, Apply(s, a).workers[a.w]);
    } else {
      SumWake(s.workers, Rank);
    }
  }

  // ---- The stuck state ----------------------------------------------------------------------------

  /** A worker's next step, spurious wakeups apart; a worker that waits or has exited has none. */
  function OwnStep(worker: Worker, w: nat): Option<Action> {
    match worker
    case Wants => Some(WorkerLock(w))
    case Woken => Some(WorkerLock(w))
    case Checking => Some(Check(w))
    case Parking(_) => Some(Park(w))
    case Taking => Some(Take(w))
    case Took(_) => Some(Test(w))
    case Starting(_) => Some(CountUp(w))
    case Busy(_) => Some(Run(w))
    case Ran(_) => Some(CountDown(w))
    case Parked(_, _) => None
    case Exited => None
  }

  /** No worker can move without a spurious wakeup and no client is inside a critical section. */
  ghost predicate Quiescent(s: Pool) {
    && (forall w :: 0 <= w < |s.workers| ==>
          var step := OwnStep(s.workers[w], w);
          step.Some? ==> !Enabled(s, step.value))
    && (forall c :: 0 <= c < |s.clients| ==> !ClientHolds(s.clients[c]))
  }

  lemma OwnStepsAreAll(s: Pool, a: Action)
    requires IsWorkerStep(a) && Enabled(s, a) && !a.SpuriousWake?
    ensures a.w < |s.workers| && OwnStep(s.workers[a.w], a.w) == Some(a)
  {
  }

  /** A pool is quiescent exactly when no client is inside a critical section and the only steps that
      any worker could make are spurious wakeups. */
  lemma QuiescentMeans(s: Pool)
    ensures Quiescent(s) <==>
            && (forall a :: IsWorkerStep(a) && Enabled(s, a) ==> a.SpuriousWake?)
            && (forall c :: 0 <= c < |s.clients| ==> !ClientHolds(s.clients[c]))
  {
    if Quiescent(s) {
      forall a | IsWorkerStep(a) && Enabled(s, a) ensures a.SpuriousWake? {
        if !a.SpuriousWake? {
          OwnStepsAreAll(s, a);
        }
      }
    }
    if forall a :: IsWorkerStep(a) && Enabled(s, a) ==> a.SpuriousWake? {
      forall w | 0 <= w < |s.workers| && OwnStep(s.workers[w], w).Some?
        ensures !Enabled(s, OwnStep(s.workers[w], w).value)
      {
        assert IsWorkerStep(OwnStep(s.workers[w], w).value);
      }
    }
  }

  lemma HoldersCanStep(s: Pool)
    requires Exclusive(s)
    ensures match s.owner
            case None => true
            case Some(ByWorker(w)) =>
              w < |s.workers| && OwnStep(s.workers[w], w).Some? && Enabled(s, OwnStep(s.workers[w], w).value)
            case Some(ByClient(c)) => c < |s.clients| && ClientHolds(s.clients[c])
  {
  }

  lemma NobodyInside(s: Pool)
    requires Exclusive(s) && Quiescent(s)
    ensures s.owner.None?
  {
    HoldersCanStep(s);
  }

  /** stop() has notified. */
  predicate Notified(s: Pool) {
    s.stopper.Joining? || s.stopper.Returned?
  }

  /** When nothing moves after stop() has notified, every worker has exited except those that
      checked the predicate before stop_ was set and began to wait after the notification. */
  lemma OnlyLateParkersRemain(s: Pool)
    requires Inv(s) && Notified(s) && Quiescent(s)
    ensures forall w :: 0 <= w < |s.workers| ==> s.workers[w] == Exited || s.workers[w] == Parked(false, true)
    ensures s.owner.None?
  {
    NobodyInside(s);
    forall w | 0 <= w < |s.workers|
      ensures s.workers[w] == Exited || s.workers[w] == Parked(false, true)
    {
      assert OwnStep(s.workers[w], w).None?;
    }
  }

  /** Before stop(), a pool of at least one worker at rest has nothing left to do: the deque is empty
      and every task ever enqueued was completed, by exactly one call, or cleared. */
  lemma AtRestAllDone(s: Pool)
    requires Inv(s) && Quiescent(s) && !s.stop && |s.workers| > 0
    ensures s.tasks == [] && |s.fates| == |s.enqueued| && s.running == 0
    ensures forall i :: 0 <= i < |s.fates| ==> s.fates[i].Cleared? || (s.fates[i].Completed? && i in s.begun)
    ensures forall w :: 0 <= w < |s.workers| ==> s.workers[w].Parked?
  {
    NobodyInside(s);
    forall w | 0 <= w < |s.workers| ensures s.workers[w].Parked? {
      assert OwnStep(s.workers[w], w).None?;
    }
    assert s.workers[0].Parked?;
    SumOfIdle(s.workers);
  }

  ghost predicate NoneParked(s: Pool) {
    forall w :: 0 <= w < |s.workers| ==> !s.workers[w].Parked?
  }

  ghost predicate NoneParking(s: Pool) {
    forall w :: 0 <= w < |s.workers| ==> !s.workers[w].Parking?
  }

  /** The flag is up, nobody is on the way to wait, and nobody waits once stop() has notified. */
  ghost predicate Covered(s: Pool) {
    s.stop && !s.stopper.Running? && NoneParking(s) && (Notified(s) ==> NoneParked(s))
  }

  lemma CoveredStep(s: Pool, a: Action)
    requires Covered(s) && Enabled(s, a)
    ensures Covered(Apply(s, a))
  {
  }

  lemma {:induction false} CoveredStays(s: Pool, acts: seq<Action>)
    requires Covered(s) && Legal(s, acts)
    ensures Covered(After(s, acts))
    decreases |acts|
  {
    if acts != [] {
      CoveredStep(s, acts[0]);
      CoveredStays(Apply(s, acts[0]), acts[1..]);
    }
  }

  ghost predicate WakesNobody(acts: seq<Action>) {
    forall i :: 0 <= i < |acts| ==> !acts[i].SpuriousWake? && !acts[i].Notify?
  }

  lemma LateParkerStep(s: Pool, w: nat, a: Action)
    requires Inv(s) && Enabled(s, a) && !a.SpuriousWake? && !a.Notify?
    requires s.stopper.Joining? && w < |s.workers| && s.workers[w].Parked?
    ensures Apply(s, a).stopper.Joining? && |Apply(s, a).workers| == |s.workers|
    ensures Apply(s, a).workers[w] == s.workers[w]
  {
  }

  /** A worker that waits once stop() has notified waits for ever, and stop() never returns, unless a
      later enqueue or a spurious wakeup happens along. */
  lemma {:induction false} LateParkerHangsStop(s: Pool, w: nat, acts: seq<Action>)
    requires Inv(s) && Legal(s, acts) && WakesNobody(acts)
    requires s.stopper.Joining? && w < |s.workers| && s.workers[w].Parked?
    ensures After(s, acts).stopper.Joining? && |After(s, acts).workers| == |s.workers|
    ensures After(s, acts).workers[w] == s.workers[w]
    decreases |acts|
  {
    if acts != [] {
      assert !acts[0].SpuriousWake? && !acts[0].Notify?;
      StepKeeps(s, acts[0]);
      LateParkerStep(s, w, acts[0]);
      assert WakesNobody(acts[1..]);
      LateParkerHangsStop(Apply(s, acts[0]), w, acts[1..]);
    }
  }

  lemma Prepend(s: Pool, a: Action, acts: seq<Action>)
    requires Enabled(s, a) && Legal(Apply(s, a), acts)
    ensures Legal(s, [a] + acts) && After(s, [a] + acts) == After(Apply(s, a), acts)
  {
    assert ([a] + acts)[1..] == acts;
  }

  lemma ParkingWorkerIsMissed(s: Pool, w: nat)
    requires Inv(s) && s.stopper.Running? && w < |s.workers| && s.workers[w].Parking?
    ensures Legal(Apply(s, SetStop), [StopNotify] + ([Park(w)] + []))
    ensures var end := After(Apply(s, SetStop), [StopNotify] + ([Park(w)] + [])); Notified(end) && !NoneParked(end)
  {
    var flagged := Apply(s, SetStop);
    var next := Apply(flagged, StopNotify);
    assert next.workers[w].Parking?;
    Prepend(next, Park(w), []);
    Prepend(flagged, StopNotify, [Park(w)] + []);
    assert Apply(next, Park(w)).workers[w].Parked?;
  }

  /** The notification of a stop() that begins now reaches every worker, whatever happens before and
      after it is sent, exactly when no worker stands between its failed check and its wait when stop_
      is set. */
  lemma StopReachesAllIffNoneParking(s: Pool)
    requires Inv(s) && s.stopper.Running?
    ensures (forall acts :: Legal(Apply(s, SetStop), acts) && Notified(After(Apply(s, SetStop), acts)) ==>
               NoneParked(After(Apply(s, SetStop), acts)))
            <==> NoneParking(s)
  {
    var flagged := Apply(s, SetStop);
    if NoneParking(s) {
      assert Covered(flagged);
      forall acts | Legal(flagged, acts) && Notified(After(flagged, acts))
        ensures NoneParked(After(flagged, acts))
      {
        CoveredStays(flagged, acts);
      }
    } else {
      var w :| 0 <= w < |s.workers| && s.workers[w].Parking?;
      ParkingWorkerIsMissed(s, w);
    }
  }

  /** With no worker caught there, a pool at rest after the notification has lost all its workers. */
  lemma StopReturnsWhenNoneParking(s: Pool, acts: seq<Action>)
    requires Inv(s) && s.stopper.Running? && NoneParking(s) && Legal(Apply(s, SetStop), acts)
    requires Notified(After(Apply(s, SetStop), acts)) && Quiescent(After(Apply(s, SetStop), acts))
    ensures var end := After(Apply(s, SetStop), acts);
            && (forall w :: 0 <= w < |end.workers| ==> end.workers[w].Exited?)
            && (end.stopper.Returned? || Enabled(end, JoinNext))
  {
    var flagged := Apply(s, SetStop);
    StepKeeps(s, SetStop);
    RunKeeps(flagged, acts);
    assert Covered(flagged);
    CoveredStays(flagged, acts);
    OnlyLateParkersRemain(After(flagged, acts));
  }

  const HANGING_RUN: seq<Action> := [WorkerLock(0), Check(0), SetStop, StopNotify, Park(0)]

  const HUNG := Pool([], 0, true, None, [Parked(false, true)], [], Joining(0), [], [], [], 0, 0)

  const CHECKED := Pool([], 0, false, Some(ByWorker(0)), [Parking(false)], [], Running, [], [], [], 0, 0)

  lemma HangingRunStarts(rest: seq<Action>)
    requires Legal(CHECKED, rest)
    ensures Legal(Init(1, 0), [WorkerLock(0)] + ([Check(0)] + rest))
    ensures After(Init(1, 0), [WorkerLock(0)] + ([Check(0)] + rest)) == After(CHECKED, rest)
  {
    assert Init(1, 0).workers == [Wants] && Init(1, 0).clients == [];
    assert Apply(Apply(Init(1, 0), WorkerLock(0)), Check(0)) == CHECKED;
    Prepend(Apply(Init(1, 0), WorkerLock(0)), Check(0), rest);
    Prepend(Init(1, 0), WorkerLock(0), [Check(0)] + rest);
  }

  lemma HangingRunEnds()
    ensures Legal(CHECKED, [SetStop] + ([StopNotify] + ([Park(0)] + [])))
    ensures After(CHECKED, [SetStop] + ([StopNotify] + ([Park(0)] + []))) == HUNG
  {
    var flagged := Apply(CHECKED, SetStop);
    assert WakeAll([Parking(false)]) == [Parking(false)];
    var notified := Apply(flagged, StopNotify);
    Prepend(notified, Park(0), []);
    Prepend(flagged, StopNotify, [Park(0)] + []);
    Prepend(CHECKED, SetStop, [StopNotify] + ([Park(0)] + []));
  }

  lemma HangingRunLeadsToHung()
    ensures Legal(Init(1, 0), HANGING_RUN) && After(Init(1, 0), HANGING_RUN) == HUNG
  {
    var rest := [SetStop] + ([StopNotify] + ([Park(0)] + []));
    HangingRunEnds();
    HangingRunStarts(rest);
    assert [WorkerLock(0)] + ([Check(0)] + rest) == HANGING_RUN;
  }

  /** A concrete run of a one-worker pool whose stop() never returns: the worker checks, stop() sets
      the flag and notifies, the worker goes to sleep - and nothing left in the pool wakes it. */
  lemma StopCanHang()
    ensures Legal(Init(1, 0), HANGING_RUN) && Quiescent(After(Init(1, 0), HANGING_RUN))
    ensures forall acts :: Legal(After(Init(1, 0), HANGING_RUN), acts) && WakesNobody(acts) ==>
              !After(After(Init(1, 0), HANGING_RUN), acts).stopper.Returned?
  {
    HangingRunLeadsToHung();
    InitInv(1, 0);
    RunKeeps(Init(1, 0), HANGING_RUN);
    forall acts | Legal(HUNG, acts) && WakesNobody(acts)
      ensures !After(HUNG, acts).stopper.Returned?
    {
      LateParkerHangsStop(HUNG, 0, acts);
    }
  }
}
