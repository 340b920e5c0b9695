/** The background worker of lib/Task/BackGroundWorker.cpp: one worker thread, any number of clients
    that request a run (under the mutex), cancel (without it) or close the worker. */
module BackGroundWorkers {
  import opened EventTypes

  type Code = int
  const SUCCESS: Code := 0

  /** How one execution of the task ended: what it left in its arguments, and the code of the
      framework exception it threw, if any. */
  datatype Execution = Execution(cancelled: bool, result: int, thrown: Option<Code>)

  /** What the completion handler is told. */
  datatype Report = Report(cancelled: bool, result: int, error: Code)

  function ReportOf(e: Execution): Report {
    Report(e.cancelled, e.result, if e.thrown.Some? then e.thrown.value else SUCCESS)
  }

  datatype Pc =
    | Wants | Checking | Parking | Parked | Woken   // sleep()
    | Awake                                         // sleep() has returned, before `if (stop_)`
    | Doing                                         // inside task_
    | Done(execution: Execution)                    // before `if (!task_completed_)`
    | Reporting(execution: Execution)               // before task_completed_(...)
    | CancelThenRunning | JustRunning               // the clearing order after a report
    | RunningThenCancel | JustCancel                // the clearing order without a handler
    | Exited

  /** `close` tells the destructor from run_task_async. */
  datatype Client = Idle | ClientWants(close: bool) | Locked(close: bool) | Stored | Unlocking

  datatype Holder = ByWorker | ByClient(c: nat)

  /** `requests` counts calls that stored running_, `edges` those that found it false, `cycles` the
      times the worker cleared it; `executions` and `reports` are the ended runs and what the
      handler was told; `begun` counts entries of the task. */
  datatype Worker = Worker(
    running: bool, stop: bool, cancel: bool, handler: bool,
    owner: Option<Holder>, pc: Pc, clients: seq<Client>,
    requests: nat, edges: nat, cycles: nat, begun: nat, executions: seq<Execution>, reports: seq<Report>)

  function Init(handler: bool, clients: nat): Worker {
    Worker(false, false, false, handler, None, Wants, seq(clients, _ => Idle), 0, 0, 0, 0, [], [])
  }

  datatype Action =
    | CallRun(c: nat) | CallClose(c: nat) | ClientLock(c: nat) | Store(c: nat) | Notify(c: nat) | ClientUnlock(c: nat)
    | Cancel
    | Lock | Check | Park | SpuriousWake | TestStop
    | Finish(execution: Execution) | Branch | Tell | ClearCancel | ClearRunning

  predicate Enabled(s: Worker, a: Action) {
    match a
    case CallRun(c) => c < |s.clients| && s.clients[c].Idle?
    case CallClose(c) => c < |s.clients| && s.clients[c].Idle?
    case ClientLock(c) => c < |s.clients| && s.clients[c].ClientWants? && s.owner.None?
    case Store(c) => c < |s.clients| && s.clients[c].Locked?
    case Notify(c) => c < |s.clients| && s.clients[c].Stored?
    case ClientUnlock(c) => c < |s.clients| && s.clients[c].Unlocking?
    case Cancel => true
    case Lock => (s.pc.Wants? || s.pc.Woken?) && s.owner.None?
    case Check => s.pc.Checking?
    case Park => s.pc.Parking?
    case SpuriousWake => s.pc.Parked?
    case TestStop => s.pc.Awake?
    case Finish(_) => s.pc.Doing?
    case Branch => s.pc.Done?
    case Tell => s.pc.Reporting?
    case ClearCancel => s.pc.CancelThenRunning? || s.pc.JustCancel?
    case ClearRunning => s.pc.RunningThenCancel? || s.pc.JustRunning?
  }

  function Apply(s: Worker, a: Action): Worker
    requires Enabled(s, a)
  {
    match a
    case CallRun(c) => s.(clients := s.clients[c := ClientWants(false)])
    case CallClose(c) => s.(clients := s.clients[c := ClientWants(true)])
    case ClientLock(c) => s.(owner := Some(ByClient(c)), clients := s.clients[c := Locked(s.clients[c].close)])
    case Store(c) =>
      var stored := s.(clients := s.clients[c := Stored]);
      if s.clients[c].close then stored.(stop := true)
      else stored.(running := true, requests := s.requests + 1, edges := s.edges + if s.running then 0 else 1)
    case Notify(c) => s.(pc := if s.pc.Parked? then Woken else s.pc, clients := s.clients[c := Unlocking])
    case ClientUnlock(c) => s.(owner := None, clients := s.clients[c := Idle])
    case Cancel => s.(cancel := true)
    case Lock => s.(owner := Some(ByWorker), pc := Checking)
    case Check => if s.running || s.stop then s.(owner := None, pc := Awake) else s.(pc := Parking)
    case Park => s.(owner := None, pc := Parked)
    case SpuriousWake => s.(pc := Woken)
    case TestStop => if s.stop then s.(pc := Exited) else s.(pc := Doing, begun := s.begun + 1)
    case Finish(e) => s.(pc := Done(e), executions := s.executions + [e])
    case Branch => s.(pc := if s.handler then Reporting(s.pc.execution) else RunningThenCancel)
    case Tell => s.(pc := CancelThenRunning, reports := s.reports + [ReportOf(s.pc.execution)])
    case ClearCancel => s.(cancel := false, pc := if s.pc.CancelThenRunning? then JustRunning else Wants)
    case ClearRunning =>
      s.(running := false, cycles := s.cycles + 1, pc := if s.pc.RunningThenCancel? then JustCancel else Wants)
  }

  ghost predicate Legal(s: Worker, acts: seq<Action>)
    decreases |acts|
  {
    acts != [] ==> Enabled(s, acts[0]) && Legal(Apply(s, acts[0]), acts[1..])
  }

  ghost function After(s: Worker, acts: seq<Action>): Worker
    requires Legal(s, acts)
    decreases |acts|
  {
    if acts == [] then s else After(Apply(s, acts[0]), acts[1..])
  }

  // ---- Invariant ----------------------------------------------------------------------------------

  /** From entering the task to just before running_ is cleared. */
  predicate InCycle(pc: Pc) {
    pc.Doing? || pc.Done? || pc.Reporting? || pc.CancelThenRunning? || pc.JustRunning? || pc.RunningThenCancel?
  }

  ghost predicate Exclusive(s: Worker) {
    && (s.pc.Checking? || s.pc.Parking? <==> s.owner == Some(ByWorker))
    && (forall c :: 0 <= c < |s.clients| ==>
          (s.clients[c].Locked? || s.clients[c].Stored? || s.clients[c].Unlocking? <==> s.owner == Some(ByClient(c))))
    && (s.owner.Some? && s.owner.value.ByClient? ==> s.owner.value.c < |s.clients|)
  }

  /** The worker waits although it should run or stop only while a client is about to notify. */
  ghost predicate NoLostWakeup(s: Worker) {
    && (s.pc.Parking? ==> !s.running && !s.stop)
    && (s.pc.Parked? && (s.running || s.stop) ==>
          && s.owner.Some? && s.owner.value.ByClient? && s.owner.value.c < |s.clients|
          && s.clients[s.owner.value.c].Stored?)
    && (s.pc.Awake? ==> s.running || s.stop)
    && (InCycle(s.pc) ==> s.running)
    && (s.pc.Exited? ==> s.stop)
  }

  ghost predicate EdgesCounted(s: Worker) {
    s.edges == s.cycles + (if s.running then 1 else 0) && s.edges <= s.requests
  }

  ghost predicate CyclesCounted(s: Worker) {
    s.begun == s.cycles + (if InCycle(s.pc) then 1 else 0)
  }

  ghost predicate Accounted(s: Worker) {
    && |s.executions| == s.begun - (if s.pc.Doing? then 1 else 0)
    && (s.pc.Done? || s.pc.Reporting? ==> s.executions != [] && s.pc.execution == s.executions[|s.executions| - 1])
    && (s.pc.Reporting? || s.pc.CancelThenRunning? || s.pc.JustRunning? ==> s.handler)
    && (s.pc.RunningThenCancel? || s.pc.JustCancel? ==> !s.handler)
  }

  /** Execution i is told as report i; the last one may still be untold. */
  ghost predicate ReportedInOrder(s: Worker) {
    && |s.reports| == (if !s.handler then 0 else |s.executions| - (if s.pc.Done? || s.pc.Reporting? then 1 else 0))
    && (forall i :: 0 <= i < |s.reports| && i < |s.executions| ==> s.reports[i] == ReportOf(s.executions[i]))
  }

  ghost predicate Inv(s: Worker) {
    Exclusive(s) && NoLostWakeup(s) && EdgesCounted(s) && CyclesCounted(s) && Accounted(s) && ReportedInOrder(s)
  }

  lemma ExclusiveStep(s: Worker, a: Action)
    requires Exclusive(s) && Enabled(s, a)
    ensures Exclusive(Apply(s, a))
  {
  }

  lemma NoLostWakeupStep(s: Worker, a: Action)
    requires Exclusive(s) && NoLostWakeup(s) && Enabled(s, a)
    ensures NoLostWakeup(Apply(s, a))
  {
  }

  lemma EdgesStep(s: Worker, a: Action)
    requires NoLostWakeup(s) && EdgesCounted(s) && Enabled(s, a)
    ensures EdgesCounted(Apply(s, a))
  {
  }

  lemma CyclesStep(s: Worker, a: Action)
    requires CyclesCounted(s) && Enabled(s, a)
    ensures CyclesCounted(Apply(s, a))
  {
  }

  lemma AccountedStep(s: Worker, a: Action)
    requires Accounted(s) && Enabled(s, a)
    ensures Accounted(Apply(s, a))
  {
  }

  lemma ReportedStep(s: Worker, a: Action)
    requires Accounted(s) && ReportedInOrder(s) && Enabled(s, a)
    ensures ReportedInOrder(Apply(s, a))
  {
    if a.Tell? {
      assert |s.reports| == |s.executions| - 1;
    } else if a.Finish? {
      assert Apply(s, a).executions[..|s.executions|] == s.executions;
    }
  }

  lemma StepKeeps(s: Worker, a: Action)
    requires Inv(s) && Enabled(s, a)
    ensures Inv(Apply(s, a)) && Apply(s, a).handler == s.handler
  {
    ExclusiveStep(s, a);
    NoLostWakeupStep(s, a);
    EdgesStep(s, a);
    CyclesStep(s, a);
    AccountedStep(s, a);
    ReportedStep(s, a);
  }

  lemma {:induction false} RunKeeps(s: Worker, acts: seq<Action>)
    requires Inv(s) && Legal(s, acts)
    ensures Inv(After(s, acts)) && After(s, acts).handler == s.handler
    decreases |acts|
  {
    if acts != [] {
      StepKeeps(s, acts[0]);
      RunKeeps(Apply(s, acts[0]), acts[1..]);
    }
  }

  // ---- Theorems -------------------------------------------------------------------------------------

  /** In every run: rising edges of running_ are the completed cycles plus one if busy, so requests
      made while busy start nothing and executions never exceed requests; with a handler, report i is
      execution i's own result and error, and when the worker is not busy every execution begun has
      been reported; and with the lock free a waiting worker has neither been asked to run nor to stop. */
  lemma EveryRunIsAccounted(handler: bool, clients: nat, acts: seq<Action>)
    requires Legal(Init(handler, clients), acts)
    ensures var s := After(Init(handler, clients), acts);
            && s.edges == s.cycles + (if s.running then 1 else 0)
            && s.cycles <= s.begun <= s.edges <= s.requests
            && |s.reports| <= |s.executions| <= s.begun
            && (forall i :: 0 <= i < |s.reports| ==>
                  && s.reports[i].cancelled == s.executions[i].cancelled
                  && s.reports[i].result == s.executions[i].result
                  && (s.executions[i].thrown.None? ==> s.reports[i].error == 0)
                  && (forall code :: s.executions[i].thrown == Some(code) ==> s.reports[i].error == code))
            && (!s.running ==> s.begun == s.cycles == |s.executions|)
            && (!s.running && handler ==> |s.reports| == s.begun)
            && (s.owner.None? && s.pc.Parked? ==> !s.running && !s.stop)
  {
    RunKeeps(Init(handler, clients), acts);
  }

  /** How many calls of run_task_async in a run stored running_ while it was false. */
  ghost function IdleRequests(s: Worker, acts: seq<Action>): nat
    requires Legal(s, acts)
    decreases |acts|
  {
    if acts == [] then 0
    else
      (if acts[0].Store? && !s.clients[acts[0].c].close && !s.running then 1 else 0)
      + IdleRequests(Apply(s, acts[0]), acts[1..])
  }

  lemma {:induction false} EdgesAreIdleRequests(s: Worker, acts: seq<Action>)
    requires Legal(s, acts)
    ensures After(s, acts).edges == s.edges + IdleRequests(s, acts)
    decreases |acts|
  {
    if acts != [] {
      EdgesAreIdleRequests(Apply(s, acts[0]), acts[1..]);
    }
  }

  /** In every run the executions begun are the requests made while idle, except that the last of them
      is still to begin while the worker is busy outside a cycle; requests made while busy start none. */
  lemma ExecutionsAreIdleRequests(handler: bool, clients: nat, acts: seq<Action>)
    requires Legal(Init(handler, clients), acts)
    ensures var s := After(Init(handler, clients), acts);
            s.begun == IdleRequests(Init(handler, clients), acts) - if s.running && !InCycle(s.pc) then 1 else 0
  {
    EdgesAreIdleRequests(Init(handler, clients), acts);
    RunKeeps(Init(handler, clients), acts);
  }

  /** The worker is past its task and has still to clear the cancel flag. */
  predicate ClearPending(pc: Pc) {
    pc.Done? || pc.Reporting? || pc.CancelThenRunning? || pc.RunningThenCancel? || pc.JustCancel?
  }

  ghost predicate NoCancelNoFinish(acts: seq<Action>) {
    forall i :: 0 <= i < |acts| ==> !acts[i].Cancel? && !acts[i].Finish?
  }

  lemma CancelFlagStep(s: Worker, a: Action)
    requires Enabled(s, a) && !a.Cancel? && !a.Finish? && !ClearPending(s.pc)
    ensures Apply(s, a).cancel == s.cancel && !ClearPending(Apply(s, a).pc)
  {
  }

  lemma {:induction false} CancelFlagKept(s: Worker, acts: seq<Action>)
    requires Legal(s, acts) && NoCancelNoFinish(acts) && !ClearPending(s.pc)
    ensures After(s, acts).cancel == s.cancel && !ClearPending(After(s, acts).pc)
    decreases |acts|
  {
    if acts != [] {
      assert !acts[0].Finish? && !acts[0].Cancel?;
      CancelFlagStep(s, acts[0]);
      CancelFlagKept(Apply(s, acts[0]), acts[1..]);
    }
  }

  /** Where a cancel goes. Whatever else happens, the execution in progress - or else the next one -
      sees it exactly when, at the time of the cancel, the worker had no clearing of the flag still
      to do. So a cancel issued during an execution stays visible until that task returns, and one
      issued in the worker's clean-up is lost, even if the next run was requested before it. */
  lemma {:induction false} CancelSeenIffNoClearPending(s: Worker, acts: seq<Action>)
    requires s.cancel && Legal(s, acts) && NoCancelNoFinish(acts) && After(s, acts).pc.Doing?
    ensures After(s, acts).cancel <==> !ClearPending(s.pc)
    decreases |acts|
  {
    if !ClearPending(s.pc) {
      CancelFlagKept(s, acts);
    } else if acts[0].ClearCancel? {
      CancelFlagKept(Apply(s, acts[0]), acts[1..]);
    } else {
      assert !acts[0].Finish? && !acts[0].Cancel?;
      CancelSeenIffNoClearPending(Apply(s, acts[0]), acts[1..]);
    }
  }

  lemma Prepend(s: Worker, a: Action, acts: seq<Action>)
    requires Enabled(s, a) && Legal(Apply(s, a), acts)
    ensures Legal(s, [a] + acts) && After(s, [a] + acts) == After(Apply(s, a), acts)
  {
    assert ([a] + acts)[1..] == acts;
  }

  /** run_task_async by client 0, undisturbed. */
  function Request(rest: seq<Action>): seq<Action> {
    [CallRun(0)] + ([ClientLock(0)] + ([Store(0)] + ([Notify(0)] + ([ClientUnlock(0)] + rest))))
  }

  lemma RequestLeadsTo(s: Worker, rest: seq<Action>)
    requires s.owner.None? && !s.running && !s.pc.Parked? && |s.clients| > 0 && s.clients[0].Idle?
    requires Legal(s.(running := true, requests := s.requests + 1, edges := s.edges + 1), rest)
    ensures Legal(s, Request(rest))
    ensures After(s, Request(rest))
      == After(s.(running := true, requests := s.requests + 1, edges := s.edges + 1), rest)
  {
    var s1 := s.(clients := s.clients[0 := ClientWants(false)]);
    var s2 := s1.(owner := Some(ByClient(0)), clients := s.clients[0 := Locked(false)]);
    var s3 := s2.(running := true, requests := s.requests + 1, edges := s.edges + 1, clients := s.clients[0 := Stored]);
    var s4 := s3.(clients := s.clients[0 := Unlocking]);
    var s5 := s4.(owner := None, clients := s.clients);
    assert s.clients[0 := Unlocking][0 := Idle] == s.clients;
    assert s.clients[0 := Stored][0 := Unlocking] == s.clients[0 := Unlocking];
    assert s.clients[0 := Locked(false)][0 := Stored] == s.clients[0 := Stored];
    assert s.clients[0 := ClientWants(false)][0 := Locked(false)] == s.clients[0 := Locked(false)];
    assert Apply(s4, ClientUnlock(0)) == s5;
    Prepend(s4, ClientUnlock(0), rest);
    Prepend(s3, Notify(0), [ClientUnlock(0)] + rest);
    Prepend(s2, Store(0), [Notify(0)] + ([ClientUnlock(0)] + rest));
    Prepend(s1, ClientLock(0), [Store(0)] + ([Notify(0)] + ([ClientUnlock(0)] + rest)));
    Prepend(s, CallRun(0), [ClientLock(0)] + ([Store(0)] + ([Notify(0)] + ([ClientUnlock(0)] + rest))));
  }

  /** The worker, asked to run, from the start of sleep() into the task. */
  function WakeUp(rest: seq<Action>): seq<Action> {
    [Lock] + ([Check] + ([TestStop] + rest))
  }

  lemma WakeUpLeadsTo(s: Worker, rest: seq<Action>)
    requires s.pc.Wants? && s.owner.None? && s.running && !s.stop
    requires Legal(s.(pc := Doing, begun := s.begun + 1), rest)
    ensures Legal(s, WakeUp(rest)) && After(s, WakeUp(rest)) == After(s.(pc := Doing, begun := s.begun + 1), rest)
  {
    var s1 := s.(owner := Some(ByWorker), pc := Checking);
    var s2 := s.(pc := Awake);
    assert Apply(s, Lock) == s1 && Apply(s1, Check) == s2;
    Prepend(s2, TestStop, rest);
    Prepend(s1, Check, [TestStop] + rest);
    Prepend(s, Lock, [Check] + ([TestStop] + rest));
  }

  /** The worker from the end of its clean-up into the next execution. */
  const CLEAN_UP: seq<Action> := [ClearCancel] + WakeUp([])

  lemma CleanUpLeadsTo(s: Worker)
    requires s.pc.JustCancel? && s.owner.None? && s.running && !s.stop
    ensures Legal(s, CLEAN_UP)
    ensures After(s, CLEAN_UP) == s.(cancel := false, pc := Doing, begun := s.begun + 1)
  {
    WakeUpLeadsTo(s.(cancel := false, pc := Wants), []);
    Prepend(s, ClearCancel, WakeUp([]));
  }

  /** One execution without a handler, up to the clean-up. */
  function Execute(e: Execution, rest: seq<Action>): seq<Action> {
    [Finish(e)] + ([Branch] + ([ClearRunning] + rest))
  }

  lemma ExecutionLeadsTo(s: Worker, e: Execution, rest: seq<Action>)
    requires s.pc.Doing? && !s.handler && s.running
    requires Legal(s.(running := false, pc := JustCancel, executions := s.executions + [e], cycles := s.cycles + 1),
                   rest)
    ensures Legal(s, Execute(e, rest))
    ensures After(s, Execute(e, rest))
      == After(s.(running := false, pc := JustCancel, executions := s.executions + [e], cycles := s.cycles + 1), rest)
  {
    var s1 := s.(pc := Done(e), executions := s.executions + [e]);
    var s2 := s1.(pc := RunningThenCancel);
    Prepend(s2, ClearRunning, rest);
    Prepend(s1, Branch, [ClearRunning] + rest);
    Prepend(s, Finish(e), [Branch] + ([ClearRunning] + rest));
  }

  /** The worker that has made one execution `e` and announced itself idle, its clean-up not yet over. */
  function OnceRun(e: Execution): Worker {
    Worker(false, false, false, false, None, JustCancel, [Idle], 1, 1, 1, 1, [e], [])
  }

  /** The worker, asked to run by client 0, through one execution without a handler to its clean-up. */
  function OneCycle(e: Execution, rest: seq<Action>): seq<Action> {
    Request(WakeUp(Execute(e, rest)))
  }

  lemma OneCycleLeadsTo(e: Execution, rest: seq<Action>)
    requires Legal(OnceRun(e), rest)
    ensures Legal(Init(false, 1), OneCycle(e, rest))
    ensures After(Init(false, 1), OneCycle(e, rest)) == After(OnceRun(e), rest)
  {
    var first := Init(false, 1);
    var asked := first.(running := true, requests := 1, edges := 1);
    var doing := asked.(pc := Doing, begun := 1);
    assert first.clients == [Idle] && doing.executions + [e] == [e];
    assert doing.(running := false, pc := JustCancel, executions := [e], cycles := 1) == OnceRun(e);
    ExecutionLeadsTo(doing, e, rest);
    WakeUpLeadsTo(asked, Execute(e, rest));
    RequestLeadsTo(first, WakeUp(Execute(e, rest)));
  }

  /** Without a handler the worker announces itself idle before it clears the flag. A concrete run from
      the initial worker with one client: after its first execution a run is requested and then
      cancelled, and is executed with no cancellation pending. */
  lemma CancelOfRequestedRunCanBeLost(e: Execution)
    ensures var before := OneCycle(e, Request([Cancel] + []));
            && Legal(Init(false, 1), before)
            && var cancelled := After(Init(false, 1), before);
               && cancelled.running && cancelled.cancel && cancelled.begun == 1
               && Legal(cancelled, CLEAN_UP)
               && After(cancelled, CLEAN_UP).pc.Doing? && After(cancelled, CLEAN_UP).begun == 2
               && !After(cancelled, CLEAN_UP).cancel
  {
    var s := OnceRun(e);
    var requested := s.(running := true, requests := 2, edges := 2);
    Prepend(requested, Cancel, []);
    RequestLeadsTo(s, [Cancel] + []);
    OneCycleLeadsTo(e, Request([Cancel] + []));
    CleanUpLeadsTo(requested.(cancel := true));
  }

  // ---- The object -------------------------------------------------------------------------------------

  class BackGroundWorker {
    var running: bool
    var stop: bool
    var cancellationPending: bool
    ghost var world: Worker

    ghost predicate Valid()
      reads this
    {
      && Inv(world)
      && world.running == running && world.stop == stop && world.cancel == cancellationPending
    }

    constructor (ghost handler: bool, ghost clients: nat)
      ensures Valid() && world == Init(handler, clients)
    {
      running, stop, cancellationPending := false, false, false;
      world := Init(handler, clients);
    }

    /** `run_task_async` under its lock. */
    method RequestRun(ghost c: nat)
      requires Valid() && Enabled(world, Store(c)) && !world.clients[c].close
      modifies this
      ensures Valid() && world == Apply(old(world), Store(c))
      ensures running && stop == old(stop) && cancellationPending == old(cancellationPending)
    {
      running := true;
      StepKeeps(world, Store(c));
      world := Apply(world, Store(c));
    }

    /** The destructor under its lock. */
    method RequestStop(ghost c: nat)
      requires Valid() && Enabled(world, Store(c)) && world.clients[c].close
      modifies this
      ensures Valid() && world == Apply(old(world), Store(c))
      ensures stop && running == old(running) && cancellationPending == old(cancellationPending)
    {
      stop := true;
      StepKeeps(world, Store(c));
      world := Apply(world, Store(c));
    }

    method CancelAsync()
      requires Valid()
      modifies this
      ensures Valid() && world == Apply(old(world), Cancel)
      ensures cancellationPending && running == old(running) && stop == old(stop)
    {
      cancellationPending := true;
      StepKeeps(world, Cancel);
      world := Apply(world, Cancel);
    }

    /** The condition `sleep` waits for. */
    method MayWake() returns (awake: bool)
      requires Valid() && world.pc.Checking?
      modifies this`world
      ensures Valid() && world == Apply(old(world), Check)
      ensures awake <==> world.pc.Awake?
    {
      awake := running || stop;
      StepKeeps(world, Check);
      world := Apply(world, Check);
    }

    /** `on_task_completed` undisturbed: the execution is told once, as itself, if there is a handler;
        both flags end clear and the cycle is counted. */
    method OnTaskCompleted(hasHandler: bool, ghost execution: Execution)
      requires Valid() && world.pc == Done(execution) && hasHandler == world.handler
      modifies this
      ensures Valid() && world.pc.Wants? && world.cycles == old(world.cycles) + 1
      ensures !running && !cancellationPending && stop == old(stop)
      ensures !hasHandler ==> world.reports == old(world.reports)
      ensures hasHandler ==>
                && |world.reports| == |old(world.reports)| + 1
                && world.reports[..|old(world.reports)|] == old(world.reports)
                && var told := world.reports[|old(world.reports)|];
                   && told.cancelled == execution.cancelled && told.result == execution.result
                   && told.error == match execution.thrown case None => 0 case Some(code) => code
      ensures world.executions == old(world.executions) && world.begun == old(world.begun)
    {
      Step(Branch);
      if !hasHandler {
        running := false;
        Step(ClearRunning);
        cancellationPending := false;
        Step(ClearCancel);
        return;
      }
      Step(Tell);
      ClearAfterReport();
    }

    /** The tail of a reported execution. */
    method ClearAfterReport()
      requires Inv(world) && world.pc.CancelThenRunning?
      modifies this`running, this`cancellationPending, this`world
      ensures Inv(world)
      ensures !running && !cancellationPending
      ensures world == old(world).(cancel := false, running := false, cycles := old(world).cycles + 1, pc := Wants)
    {
      cancellationPending := false;
      Step(ClearCancel);
      running := false;
      Step(ClearRunning);
    }

    ghost method Step(a: Action)
      requires Inv(world) && Enabled(world, a)
      modifies this`world
      ensures Inv(world) && world == Apply(old(world), a)
    {
      StepKeeps(world, a);
      world := Apply(world, a);
    }
  }
}
