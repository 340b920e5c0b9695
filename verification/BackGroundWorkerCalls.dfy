/** What the calls on a background worker come to, and how its destructor ends it. */
module BackGroundWorkerCalls {
  import opened EventTypes
  import opened BackGroundWorkers

  predicate IsClientStep(a: Action) {
    a.CallRun? || a.CallClose? || a.ClientLock? || a.Store? || a.Notify? || a.ClientUnlock?
  }

  /** The call client `c` is in, or made last. */
  function Call(acts: seq<Action>, c: nat): Option<Action> {
    if acts == [] then None
    else
      var last := acts[|acts| - 1];
      if last in {CallRun(c), CallClose(c)} then Some(last) else Call(acts[..|acts| - 1], c)
  }

  /** The steps of client `c` since it made that call. */
  function Since(acts: seq<Action>, c: nat): seq<Action> {
    if acts == [] then []
    else
      var front, last := acts[..|acts| - 1], acts[|acts| - 1];
      if !IsClientStep(last) || last.c != c then Since(front, c)
      else if last.CallRun? || last.CallClose? then []
      else Since(front, c) + [last]
  }

  ghost predicate InCall(acts: seq<Action>, s: Worker, c: nat)
    requires c < |s.clients|
  {
    var call, steps := Call(acts, c), Since(acts, c);
    match s.clients[c]
    case Idle => call.Some? ==> steps == [ClientLock(c), Store(c), Notify(c), ClientUnlock(c)]
    case ClientWants(close) => call == Some(if close then CallClose(c) else CallRun(c)) && steps == []
    case Locked(close) => call == Some(if close then CallClose(c) else CallRun(c)) && steps == [ClientLock(c)]
    case Stored => call.Some? && steps == [ClientLock(c), Store(c)]
    case Unlocking => call.Some? && steps == [ClientLock(c), Store(c), Notify(c)]
  }

  ghost predicate Told(acts: seq<Action>, s: Worker) {
    forall c: nat :: c < |s.clients| ==> InCall(acts, s, c)
  }

  lemma Grow(acts: seq<Action>, a: Action, c: nat)
    ensures Call(acts + [a], c) == if a in {CallRun(c), CallClose(c)} then Some(a) else Call(acts, c)
    ensures Since(acts + [a], c)
      == if !IsClientStep(a) || a.c != c then Since(acts, c)
         else if a.CallRun? || a.CallClose? then [] else Since(acts, c) + [a]
  {
    assert (acts + [a])[..|acts|] == acts;
  }

  lemma ToldStep(acts: seq<Action>, s: Worker, a: Action)
    requires Told(acts, s) && Enabled(s, a)
    ensures Told(acts + [a], Apply(s, a)) && |Apply(s, a).clients| == |s.clients|
  {
    forall c: nat | c < |s.clients| ensures c < |Apply(s, a).clients| && InCall(acts + [a], Apply(s, a), c) {
      Grow(acts, a, c);
      assert InCall(acts, s, c);
    }
  }

  /** What holds of an initial record and is kept by every step holds of every run. */
  lemma {:induction false} RunInduction(
    holds: (seq<Action>, Worker) -> bool, done: seq<Action>, s: Worker, acts: seq<Action>)
    requires holds(done, s) && Legal(s, acts)
    requires forall d, t, a :: holds(d, t) && Enabled(t, a) ==> holds(d + [a], Apply(t, a))
    ensures holds(done + acts, After(s, acts))
    decreases |acts|
  {
    if acts == [] {
      assert done + acts == done;
    } else {
      RunInduction(holds, done + [acts[0]], Apply(s, acts[0]), acts[1..]);
      assert done + [acts[0]] + acts[1..] == done + acts;
    }
  }

  lemma EveryRunIsTold(handler: bool, clients: nat, acts: seq<Action>)
    requires Legal(Init(handler, clients), acts)
    ensures Told(acts, After(Init(handler, clients), acts)) && |After(Init(handler, clients), acts).clients| == clients
  {
    var holds := (d: seq<Action>, t: Worker) => Told(d, t) && |t.clients| == clients;
    forall d, t, a | holds(d, t) && Enabled(t, a) ensures holds(d + [a], Apply(t, a)) {
      ToldStep(d, t, a);
    }
    RunInduction(holds, [], Init(handler, clients), acts);
    assert [] + acts == acts;
  }

  // ---- Theorems -----------------------------------------------------------------------------------

  /** In every run the locked part of run_task_async raises running_ and leaves stop_ alone, that of the
      destructor the other way round; and a call that has returned has done it and notified. */
  lemma CallsAreWhole(handler: bool, clients: nat, acts: seq<Action>, c: nat)
    requires Legal(Init(handler, clients), acts) && c < clients
    ensures c < |After(Init(handler, clients), acts).clients|
    ensures var s := After(Init(handler, clients), acts);
            Enabled(s, Store(c)) ==>
              var after := Apply(s, Store(c));
              || (Call(acts, c) == Some(CallRun(c)) && after.running && after.stop == s.stop)
              || (Call(acts, c) == Some(CallClose(c)) && after.stop && after.running == s.running)
    ensures var s := After(Init(handler, clients), acts);
            s.clients[c].Idle? && Call(acts, c).Some? ==>
              Since(acts, c) == [ClientLock(c), Store(c), Notify(c), ClientUnlock(c)]
  {
    EveryRunIsTold(handler, clients, acts);
    assert InCall(acts, After(Init(handler, clients), acts), c);
  }

  /** Once stop_ is set no execution begins any more, in any run. */
  lemma {:induction false} NothingBeginsAfterStop(s: Worker, acts: seq<Action>)
    requires s.stop && Legal(s, acts)
    ensures After(s, acts).stop && After(s, acts).begun == s.begun
    decreases |acts|
  {
    if acts != [] {
      NothingBeginsAfterStop(Apply(s, acts[0]), acts[1..]);
    }
  }

  /** How far the worker is from its exit once stop_ is set. */
  function Distance(pc: Pc): nat {
    match pc
    case Exited => 0
    case Awake => 1
    case Checking => 2
    case Wants => 3
    case Woken => 3
    case Parked => 4
    case Parking => 5
    case JustRunning => 4
    case JustCancel => 4
    case CancelThenRunning => 5
    case RunningThenCancel => 5
    case Reporting(_) => 6
    case Done(_) => 7
    case Doing => 8
  }

  /** Once stop_ is set every worker step, spurious wakeups included, brings the worker nearer to its
      exit, and no step of a client takes it away from it. */
  lemma StopBringsExitNearer(s: Worker, a: Action)
    requires Inv(s) && s.stop && Enabled(s, a)
    ensures !IsClientStep(a) && !a.Cancel? ==> Distance(Apply(s, a).pc) < Distance(s.pc)
    ensures Distance(Apply(s, a).pc) <= Distance(s.pc)
  {
  }

  /** The worker's next step; a task may end in any way. */
  function NextOfWorker(pc: Pc): Option<Action> {
    match pc
    case Exited => None
    case Parked => None
    case Wants => Some(Lock)
    case Woken => Some(Lock)
    case Checking => Some(Check)
    case Parking => Some(Park)
    case Awake => Some(TestStop)
    case Doing => Some(Finish(Execution(false, 0, None)))
    case Done(_) => Some(Branch)
    case Reporting(_) => Some(Tell)
    case CancelThenRunning => Some(ClearCancel)
    case JustCancel => Some(ClearCancel)
    case JustRunning => Some(ClearRunning)
    case RunningThenCancel => Some(ClearRunning)
  }

  /** And it gets there; nor is a requested run left undone: asked to run or to stop, with no client
      inside the lock, the worker can step until it has exited, which it only does when stopped. */
  lemma AskedWorkerCanStep(s: Worker)
    requires Inv(s) && (s.stop || s.running)
    requires forall c :: 0 <= c < |s.clients| ==> s.clients[c].Idle? || s.clients[c].ClientWants?
    ensures (s.pc.Exited? && s.stop) || (NextOfWorker(s.pc).Some? && Enabled(s, NextOfWorker(s.pc).value))
  {
    assert s.owner.Some? ==> s.owner.value.ByWorker?;
  }

  /** No client is stuck: outside it can make either call; inside it has a step of its own, unless it
      wants the mutex that another thread holds; and anybody can cancel at any time. */
  lemma ClientsGoOn(s: Worker, c: nat)
    requires c < |s.clients|
    ensures s.clients[c].Idle? ==> Enabled(s, CallRun(c)) && Enabled(s, CallClose(c))
    ensures !s.clients[c].Idle? ==>
              (exists a :: IsClientStep(a) && a.c == c && Enabled(s, a)) || (s.clients[c].ClientWants? && s.owner.Some?)
    ensures Enabled(s, Cancel)
  {
    match s.clients[c]
    case ClientWants(_) => assert s.owner.None? ==> Enabled(s, ClientLock(c));
    case Locked(_) => assert Enabled(s, Store(c));
    case Stored => assert Enabled(s, Notify(c));
    case Unlocking => assert Enabled(s, ClientUnlock(c));
    case Idle =>
  }
}
