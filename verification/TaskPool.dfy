/** The thread pool of lib/Task/TaskPool.cpp: workers share a deque, a mutex, a condition variable,
    an atomic stop flag and an atomic counter; clients enqueue, clear and stop. */
module TaskPools {
  import opened EventTypes

  /** A non-empty callable that returns normally. */
  type Task = nat

  datatype Worker =
    | Wants                                     // wait_for_new_task, before the lock
    | Checking                                  // holds the lock, about to evaluate the predicate
    | Parking(sawStop: bool)                    // predicate false (with this stop_), about to wait
    | Parked(sawStop: bool, notified: bool)     // waiting; `notified`: stop() had notified by then
    | Woken                                     // must take the lock again
    | Taking                                    // predicate true, still holds the lock
    | Took(task: Option<nat>)                   // lock released, at `if (stop_ && !task)`
    | Starting(index: nat)                      // before running_tasks_++
    | Busy(index: nat)                          // before task()
    | Ran(index: nat)                           // before running_tasks_--
    | Exited

  datatype Client =
    | Idle
    | EnqueueWants(task: Task) | EnqueueLocked(task: Task) | EnqueuePushed
    | ClearWants | ClearLocked
    | Unlocking

  datatype Stopper = Running | Flagged | Joining(next: nat) | Returned

  datatype Holder = ByWorker(w: nat) | ByClient(c: nat)

  datatype Fate = HeldBy(w: nat) | Completed | Cleared

  /** `enqueued` records every pushed task; a task's identity is its position there. `fates` tells
      of each task that left the deque, in order, what became of it; `begun` lists the calls made.
      `mark` is how many tasks had been pushed when stop_ was set. */
  datatype Pool = Pool(
    tasks: seq<Task>, running: int, stop: bool,
    owner: Option<Holder>, workers: seq<Worker>, clients: seq<Client>, stopper: Stopper,
    enqueued: seq<Task>, fates: seq<Fate>, begun: seq<nat>, mark: nat, spins: nat)

  function Init(workers: nat, clients: nat): Pool {
    Pool([], 0, false, None, seq(workers, _ => Wants), seq(clients, _ => Idle), Running, [], [], [], 0, 0)
  }

  datatype Action =
    | CallEnqueue(c: nat, task: Task) | CallClear(c: nat)
    | ClientLock(c: nat) | Push(c: nat) | Notify(c: nat) | ClearTasks(c: nat) | ClientUnlock(c: nat)
    | SetStop | StopNotify | JoinNext
    | WorkerLock(w: nat) | Check(w: nat) | Park(w: nat) | SpuriousWake(w: nat) | Take(w: nat)
    | Test(w: nat) | CountUp(w: nat) | Run(w: nat) | CountDown(w: nat)

  predicate IsWorkerStep(a: Action) {
    a.WorkerLock? || a.Check? || a.Park? || a.SpuriousWake? || a.Take?
    || a.Test? || a.CountUp? || a.Run? || a.CountDown?
  }

  predicate Enabled(s: Pool, a: Action) {
    match a
    case CallEnqueue(c, _) => c < |s.clients| && s.clients[c].Idle?
    case CallClear(c) => c < |s.clients| && s.clients[c].Idle?
    case ClientLock(c) => c < |s.clients| && (s.clients[c].EnqueueWants? || s.clients[c].ClearWants?) && s.owner.None?
    case Push(c) => c < |s.clients| && s.clients[c].EnqueueLocked?
    case Notify(c) => c < |s.clients| && s.clients[c].EnqueuePushed?
    case ClearTasks(c) => c < |s.clients| && s.clients[c].ClearLocked?
    case ClientUnlock(c) => c < |s.clients| && s.clients[c].Unlocking?
    case SetStop => s.stopper.Running?
    case StopNotify => s.stopper.Flagged?
    case JoinNext => s.stopper.Joining? && (s.stopper.next < |s.workers| ==> s.workers[s.stopper.next].Exited?)
    case WorkerLock(w) => w < |s.workers| && (s.workers[w].Wants? || s.workers[w].Woken?) && s.owner.None?
    case Check(w) => w < |s.workers| && s.workers[w].Checking?
    case Park(w) => w < |s.workers| && s.workers[w].Parking?
    case SpuriousWake(w) => w < |s.workers| && s.workers[w].Parked?
    case Take(w) => w < |s.workers| && s.workers[w].Taking?
    case Test(w) => w < |s.workers| && s.workers[w].Took?
    case CountUp(w) => w < |s.workers| && s.workers[w].Starting?
    case Run(w) => w < |s.workers| && s.workers[w].Busy?
    case CountDown(w) => w < |s.workers| && s.workers[w].Ran?
  }

  function Wake(worker: Worker): Worker {
    if worker.Parked? then Woken else worker
  }

  function WakeAll(workers: seq<Worker>): seq<Worker> {
    seq(|workers|, i requires 0 <= i < |workers| => Wake(workers[i]))
  }

  function Apply(s: Pool, a: Action): Pool
    requires Enabled(s, a)
  {
    match a
    case CallEnqueue(c, task) => s.(clients := s.clients[c := EnqueueWants(task)])
    case CallClear(c) => s.(clients := s.clients[c := ClearWants])
    case ClientLock(c) =>
      s.(owner := Some(ByClient(c)),
         clients := s.clients[c := if s.clients[c].EnqueueWants? then EnqueueLocked(s.clients[c].task)
                                   else ClearLocked])
    case Push(c) =>
      s.(tasks := s.tasks + [s.clients[c].task], enqueued := s.enqueued + [s.clients[c].task],
         clients := s.clients[c := EnqueuePushed])
    case Notify(c) => s.(workers := WakeAll(s.workers), clients := s.clients[c := Unlocking])
    case ClearTasks(c) =>
      s.(tasks := [], fates := s.fates + seq(|s.tasks|, _ => Cleared), clients := s.clients[c := Unlocking])
    case ClientUnlock(c) => s.(owner := None, clients := s.clients[c := Idle])
    case SetStop => s.(stop := true, stopper := Flagged, mark := |s.enqueued|)
    case StopNotify => s.(workers := WakeAll(s.workers), stopper := Joining(0))
    case JoinNext =>
      s.(stopper := if s.stopper.next < |s.workers| then Joining(s.stopper.next + 1) else Returned)
    case WorkerLock(w) => s.(owner := Some(ByWorker(w)), workers := s.workers[w := Checking])
    case Check(w) =>
      s.(workers := s.workers[w := if s.tasks != [] || s.stop then Taking else Parking(s.stop)])
    case Park(w) =>
      s.(owner := None,
         workers := s.workers[w := Parked(s.workers[w].sawStop, s.stopper.Joining? || s.stopper.Returned?)])
    case SpuriousWake(w) => s.(workers := s.workers[w := Woken])
    case Take(w) =>
      if s.tasks == [] then s.(owner := None, workers := s.workers[w := Took(None)])
      else s.(owner := None, tasks := s.tasks[1..], fates := s.fates + [HeldBy(w)],
              workers := s.workers[w := Took(Some(|s.fates|))])
    case Test(w) =>
      (match s.workers[w].task
       case Some(i) => s.(workers := s.workers[w := Starting(i)])
       case None => if s.stop then s.(workers := s.workers[w := Exited])
                    else s.(workers := s.workers[w := Wants], spins := s.spins + 1))
    case CountUp(w) => s.(running := s.running + 1, workers := s.workers[w := Busy(s.workers[w].index)])
    case Run(w) => s.(begun := s.begun + [s.workers[w].index], workers := s.workers[w := Ran(s.workers[w].index)])
    case CountDown(w) =>
      s.(running := s.running - 1, workers := s.workers[w := Wants],
         fates := if s.workers[w].index < |s.fates| then s.fates[s.workers[w].index := Completed] else s.fates)
  }

  ghost predicate Legal(s: Pool, acts: seq<Action>)
    decreases |acts|
  {
    acts != [] ==> Enabled(s, acts[0]) && Legal(Apply(s, acts[0]), acts[1..])
  }

  ghost function After(s: Pool, acts: seq<Action>): Pool
    requires Legal(s, acts)
    decreases |acts|
  {
    if acts == [] then s else After(Apply(s, acts[0]), acts[1..])
  }

  // ---- Sums over the workers ------------------------------------------------------------------

  function Sum(workers: seq<Worker>, weight: Worker -> nat): nat {
    if workers == [] then 0 else weight(workers[0]) + Sum(workers[1..], weight)
  }

  lemma {:induction false} SumUpdate(workers: seq<Worker>, weight: Worker -> nat, w: nat, worker: Worker)
    requires w < |workers|
    ensures Sum(workers[w := worker], weight) + weight(workers[w]) == Sum(workers, weight) + weight(worker)
  {
    if w == 0 {
      assert workers[w := worker][1..] == workers[1..];
    } else {
      SumUpdate(workers[1..], weight, w - 1, worker);
      assert workers[w := worker][1..] == workers[1..][w - 1 := worker];
    }
  }

  lemma {:induction false} SumWake(workers: seq<Worker>, weight: Worker -> nat)
    requires forall p, q :: weight(Woken) <= weight(Parked(p, q))
    ensures Sum(WakeAll(workers), weight) <= Sum(workers, weight)
    ensures (forall p, q :: weight(Woken) == weight(Parked(p, q))) ==>
              Sum(WakeAll(workers), weight) == Sum(workers, weight)
  {
    if workers != [] {
      SumWake(workers[1..], weight);
      assert WakeAll(workers)[1..] == WakeAll(workers[1..]);
    }
  }

  /** Between ++ and --. */
  function Counted(worker: Worker): nat {
    if worker.Busy? || worker.Ran? then 1 else 0
  }

  // ---- Invariant ----------------------------------------------------------------------------------

  predicate WorkerHolds(worker: Worker) {
    worker.Checking? || worker.Parking? || worker.Taking?
  }

  predicate ClientHolds(client: Client) {
    client.EnqueueLocked? || client.EnqueuePushed? || client.ClearLocked? || client.Unlocking?
  }

  ghost predicate WorkersExclusive(s: Pool) {
    && (forall w :: 0 <= w < |s.workers| ==> (WorkerHolds(s.workers[w]) <==> s.owner == Some(ByWorker(w))))
    && (s.owner.Some? && s.owner.value.ByWorker? ==> s.owner.value.w < |s.workers|)
  }

  ghost predicate ClientsExclusive(s: Pool) {
    && (forall c :: 0 <= c < |s.clients| ==> (ClientHolds(s.clients[c]) <==> s.owner == Some(ByClient(c))))
    && (s.owner.Some? && s.owner.value.ByClient? ==> s.owner.value.c < |s.clients|)
  }

  /** The mutex is held by exactly the thread that is inside. */
  ghost predicate Exclusive(s: Pool) {
    WorkersExclusive(s) && ClientsExclusive(s)
  }

  /** The deque is what was enqueued and has not left. */
  ghost predicate Conserved(s: Pool) {
    |s.fates| <= |s.enqueued| && s.tasks == s.enqueued[|s.fates|..]
  }

  function Carried(worker: Worker): Option<nat> {
    match worker
    case Took(task) => task
    case Starting(i) => Some(i)
    case Busy(i) => Some(i)
    case Ran(i) => Some(i)
    case _ => None
  }

  /** A removed task is completed, cleared, or carried by exactly the worker that took it. */
  ghost predicate Accounted(s: Pool) {
    && (forall w :: 0 <= w < |s.workers| && Carried(s.workers[w]).Some? ==>
          Carried(s.workers[w]).value < |s.fates| && s.fates[Carried(s.workers[w]).value] == HeldBy(w))
    && (forall i :: 0 <= i < |s.fates| && s.fates[i].HeldBy? ==>
          s.fates[i].w < |s.workers| && Carried(s.workers[s.fates[i].w]) == Some(i))
  }

  ghost predicate HasBegun(s: Pool, i: nat) {
    && i < |s.fates|
    && (s.fates[i].Completed?
        || (s.fates[i].HeldBy? && s.fates[i].w < |s.workers| && s.workers[s.fates[i].w].Ran?))
  }

  /** Each call was made once, for a task that completed or whose worker has yet to count it down. */
  ghost predicate CalledOnce(s: Pool) {
    && (forall k, l :: 0 <= k < l < |s.begun| ==> s.begun[k] != s.begun[l])
    && (forall i :: i in s.begun <==> 0 <= i && HasBegun(s, i))
  }

  /** What the check and the stop flag imply further on. */
  ghost predicate StopKnown(s: Pool) {
    && (s.stop <==> !s.stopper.Running?)
    && s.mark <= |s.enqueued| && s.spins == 0
    && (forall w :: 0 <= w < |s.workers| ==>
          match s.workers[w]
          case Taking => s.tasks != [] || s.stop
          case Parking(sawStop) => s.tasks == [] && !sawStop
          case Parked(sawStop, notified) => !sawStop && (s.stopper.Joining? || s.stopper.Returned? ==> notified)
          case Took(None) => s.stop && s.mark <= |s.fates|
          case Exited => s.stop && s.mark <= |s.fates|
          case _ => true)
  }

  /** A worker waits on a non-empty deque only while an enqueue is about to notify. */
  ghost predicate NoLostTask(s: Pool) {
    forall w :: 0 <= w < |s.workers| && s.workers[w].Parked? && s.tasks != [] ==>
      && s.owner.Some? && s.owner.value.ByClient? && s.owner.value.c < |s.clients|
      && s.clients[s.owner.value.c].EnqueuePushed?
  }

  ghost predicate Joined(s: Pool) {
    && (s.stopper.Joining? ==>
          s.stopper.next <= |s.workers| && forall w :: 0 <= w < s.stopper.next ==> s.workers[w].Exited?)
    && (s.stopper.Returned? ==> forall w :: 0 <= w < |s.workers| ==> s.workers[w].Exited?)
  }

  ghost predicate Inv(s: Pool) {
    && Exclusive(s) && Conserved(s) && Accounted(s) && CalledOnce(s) && StopKnown(s) && NoLostTask(s) && Joined(s)
    && s.running == Sum(s.workers, Counted)
  }

  lemma WorkersExclusiveStep(s: Pool, a: Action)
    requires Exclusive(s) && Enabled(s, a)
    ensures WorkersExclusive(Apply(s, a))
  {
  }

  lemma ClientsExclusiveStep(s: Pool, a: Action)
    requires Exclusive(s) && Enabled(s, a)
    ensures ClientsExclusive(Apply(s, a))
  {
  }

  lemma ConservedStep(s: Pool, a: Action)
    requires Conserved(s) && Enabled(s, a)
    ensures Conserved(Apply(s, a))
  {
  }

  lemma JoinedStep(s: Pool, a: Action)
    requires Joined(s) && Enabled(s, a)
    ensures Joined(Apply(s, a))
  {
  }

  /** Only Take and CountDown change what a worker carries. */
  lemma CarriedStep(s: Pool, a: Action)
    requires Enabled(s, a) && !a.Take? && !a.CountDown? && StopKnown(s)
    ensures |Apply(s, a).workers| == |s.workers|
    ensures forall w :: 0 <= w < |s.workers| ==> Carried(Apply(s, a).workers[w]) == Carried(s.workers[w])
  {
  }

  lemma TakeAccounted(s: Pool, w: nat)
    requires Conserved(s) && Accounted(s) && Enabled(s, Take(w))
    ensures Accounted(Apply(s, Take(w)))
  {
    var s' := Apply(s, Take(w));
    assert s.tasks != [] ==> |s'.fates| == |s.fates| + 1 && s'.fates[|s.fates|] == HeldBy(w);
    assert forall i :: 0 <= i < |s.fates| ==> s'.fates[i] == s.fates[i];
  }

  lemma CountDownAccounted(s: Pool, w: nat)
    requires Accounted(s) && Enabled(s, CountDown(w))
    ensures Accounted(Apply(s, CountDown(w)))
  {
    assert Apply(s, CountDown(w)).fates == s.fates[s.workers[w].index := Completed];
  }

  lemma AccountedStep(s: Pool, a: Action)
    requires Conserved(s) && Accounted(s) && StopKnown(s) && Enabled(s, a)
    ensures Accounted(Apply(s, a))
  {
    var s' := Apply(s, a);
    if a.Take? {
      TakeAccounted(s, a.w);
    } else if a.CountDown? {
      CountDownAccounted(s, a.w);
    } else {
      CarriedStep(s, a);
      assert |s.fates| <= |s'.fates| && forall i :: 0 <= i < |s.fates| ==> s'.fates[i] == s.fates[i];
      assert forall i :: |s.fates| <= i < |s'.fates| ==> s'.fates[i] == Cleared;
    }
  }

  lemma RunCalledOnce(s: Pool, w: nat)
    requires Accounted(s) && CalledOnce(s) && Enabled(s, Run(w))
    ensures CalledOnce(Apply(s, Run(w)))
  {
    var s', i := Apply(s, Run(w)), s.workers[w].index;
    assert !HasBegun(s, i);
    assert forall j: nat :: HasBegun(s', j) <==> HasBegun(s, j) || j == i;
    assert forall j :: j in s'.begun <==> j in s.begun || j == i;
  }

  lemma CalledOnceStep(s: Pool, a: Action)
    requires Conserved(s) && Accounted(s) && CalledOnce(s) && Enabled(s, a)
    ensures CalledOnce(Apply(s, a))
  {
    if a.Run? {
      RunCalledOnce(s, a.w);
    } else {
      assert forall j: nat :: HasBegun(Apply(s, a), j) <==> HasBegun(s, j);
    }
  }

  lemma WorkersStopKnownStep(s: Pool, a: Action)
    requires Exclusive(s) && Conserved(s) && StopKnown(s) && Enabled(s, a) && IsWorkerStep(a)
    ensures StopKnown(Apply(s, a))
  {
  }

  lemma OthersStopKnownStep(s: Pool, a: Action)
    requires Exclusive(s) && Conserved(s) && StopKnown(s) && Enabled(s, a) && !IsWorkerStep(a)
    ensures StopKnown(Apply(s, a))
  {
  }

  lemma NoLostTaskStep(s: Pool, a: Action)
    requires Exclusive(s) && StopKnown(s) && NoLostTask(s) && Enabled(s, a)
    ensures NoLostTask(Apply(s, a))
  {
  }

  lemma RunningStep(s: Pool, a: Action)
    requires s.running == Sum(s.workers, Counted) && Enabled(s, a)
    ensures Apply(s, a).running == Sum(Apply(s, a).workers, Counted)
  {
    if IsWorkerStep(a) {
      SumUpdate(s.workers, Counted, a.w, Apply(s, a).workers[a.w]);
    } else {
      SumWake(s.workers, Counted);
    }
  }

  lemma StepKeeps(s: Pool, a: Action)
    requires Inv(s) && Enabled(s, a)
    ensures Inv(Apply(s, a))
  {
    WorkersExclusiveStep(s, a);
    ClientsExclusiveStep(s, a);
    ConservedStep(s, a);
    JoinedStep(s, a);
    AccountedStep(s, a);
    CalledOnceStep(s, a);
    if IsWorkerStep(a) { WorkersStopKnownStep(s, a); } else { OthersStopKnownStep(s, a); }
    NoLostTaskStep(s, a);
    RunningStep(s, a);
  }
}
