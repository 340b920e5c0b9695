/** What the calls on a pool come to, told from the calls' own arguments and the run's steps. */
module TaskPoolCalls {
  import opened EventTypes
  import opened TaskPools
  import opened TaskPoolLaws

  predicate IsClientStep(a: Action) {
    a.CallEnqueue? || a.CallClear? || a.ClientLock? || a.Push? || a.Notify? || a.ClearTasks? || a.ClientUnlock?
  }

  /** The call client `c` is in, or made last. */
  function Call(acts: seq<Action>, c: nat): Option<Action> {
    if acts == [] then None
    else
      var last := acts[|acts| - 1];
      if (last.CallEnqueue? || last.CallClear?) && last.c == c then Some(last) else Call(acts[..|acts| - 1], c)
  }

  /** The steps of client `c` since it made that call. */
  function Since(acts: seq<Action>, c: nat): seq<Action> {
    if acts == [] then []
    else
      var front, last := acts[..|acts| - 1], acts[|acts| - 1];
      if !IsClientStep(last) || last.c != c then Since(front, c)
      else if last.CallEnqueue? || last.CallClear? then []
      else Since(front, c) + [last]
  }

  /** The tasks given to the enqueue calls, in the order of their pushes. */
  function Pushed(acts: seq<Action>): seq<Task> {
    if acts == [] then []
    else
      var front, last := acts[..|acts| - 1], acts[|acts| - 1];
      Pushed(front)
      + if last.Push? && Call(front, last.c).Some? && Call(front, last.c).value.CallEnqueue?
        then [Call(front, last.c).value.task] else []
  }

  ghost predicate InCall(acts: seq<Action>, s: Pool, c: nat)
    requires c < |s.clients|
  {
    var call, steps := Call(acts, c), Since(acts, c);
    match s.clients[c]
    case Idle =>
      call.Some? ==> steps == if call.value.CallEnqueue? then [ClientLock(c), Push(c), Notify(c), ClientUnlock(c)]
                              else [ClientLock(c), ClearTasks(c), ClientUnlock(c)]
    case EnqueueWants(task) => call == Some(CallEnqueue(c, task)) && steps == []
    case EnqueueLocked(task) => call == Some(CallEnqueue(c, task)) && steps == [ClientLock(c)]
    case EnqueuePushed => call.Some? && call.value.CallEnqueue? && steps == [ClientLock(c), Push(c)]
    case ClearWants => call == Some(CallClear(c)) && steps == []
    case ClearLocked => call == Some(CallClear(c)) && steps == [ClientLock(c)]
    case Unlocking =>
      call.Some? && steps == if call.value.CallEnqueue? then [ClientLock(c), Push(c), Notify(c)]
                             else [ClientLock(c), ClearTasks(c)]
  }

  /** The mark of stop() is what had been pushed by then. */
  ghost predicate Marked(acts: seq<Action>, s: Pool) {
    forall k :: 0 <= k < |acts| && acts[k] == SetStop ==> !s.stopper.Running? && s.mark == |Pushed(acts[..k])|
  }

  ghost predicate Told(acts: seq<Action>, s: Pool) {
    s.enqueued == Pushed(acts) && Marked(acts, s) && forall c: nat :: c < |s.clients| ==> InCall(acts, s, c)
  }

  lemma Grow(acts: seq<Action>, a: Action, c: nat)
    ensures Call(acts + [a], c) == if (a.CallEnqueue? || a.CallClear?) && a.c == c then Some(a) else Call(acts, c)
    ensures Since(acts + [a], c)
      == if !IsClientStep(a) || a.c != c then Since(acts, c)
         else if a.CallEnqueue? || a.CallClear? then [] else Since(acts, c) + [a]
    ensures Pushed(acts + [a])
      == if a.Push? && Call(acts, a.c).Some? && Call(acts, a.c).value.CallEnqueue?
         then Pushed(acts) + [Call(acts, a.c).value.task] else Pushed(acts)
  {
    assert (acts + [a])[..|acts|] == acts;
  }

  lemma OthersKeepCall(acts: seq<Action>, s: Pool, a: Action, c: nat)
    requires Enabled(s, a) && c < |s.clients| && InCall(acts, s, c) && !(IsClientStep(a) && a.c == c)
    ensures c < |Apply(s, a).clients| && InCall(acts + [a], Apply(s, a), c)
  {
    Grow(acts, a, c);
    assert Apply(s, a).clients[c] == s.clients[c];
  }

  lemma OwnKeepsCall(acts: seq<Action>, s: Pool, a: Action)
    requires Enabled(s, a) && IsClientStep(a) && InCall(acts, s, a.c)
    ensures a.c < |Apply(s, a).clients| && InCall(acts + [a], Apply(s, a), a.c)
  {
    Grow(acts, a, a.c);
  }

  lemma MarkStep(acts: seq<Action>, s: Pool, a: Action)
    requires Marked(acts, s) && s.enqueued == Pushed(acts) && Enabled(s, a)
    ensures Marked(acts + [a], Apply(s, a))
  {
    var longer := acts + [a];
    forall k | 0 <= k < |longer| && longer[k] == SetStop
      ensures !Apply(s, a).stopper.Running? && Apply(s, a).mark == |Pushed(longer[..k])|
    {
      assert longer[..k] == acts[..k];
      if k == |acts| {
        assert acts[..k] == acts;
      }
    }
  }

  lemma ToldStep(acts: seq<Action>, s: Pool, a: Action)
    requires Told(acts, s) && Enabled(s, a)
    ensures Told(acts + [a], Apply(s, a)) && |Apply(s, a).clients| == |s.clients|
  {
    if a.Push? {
      Grow(acts, a, a.c);
      assert InCall(acts, s, a.c);
    } else {
      Grow(acts, a, 0);
    }
    forall c: nat | c < |s.clients| ensures c < |Apply(s, a).clients| && InCall(acts + [a], Apply(s, a), c) {
      assert InCall(acts, s, c);
      if IsClientStep(a) && a.c == c { OwnKeepsCall(acts, s, a); } else { OthersKeepCall(acts, s, a, c); }
    }
    MarkStep(acts, s, a);
  }

  /** What holds of an initial record and is kept by every step holds of every run. */
  lemma {:induction false} RunInduction(
    holds: (seq<Action>, Pool) -> bool, done: seq<Action>, s: Pool, acts: seq<Action>)
    requires holds(done, s) && Legal(s, acts)
    requires forall d, t, a :: holds(d, t) && Enabled(t, a) ==> holds(d + [a], Apply(t, a))
    ensures holds(done + acts, After(s, acts))
    decreases |acts|
  {
    if acts == [] {
      assert done + acts == done;
    } else {
      RunInduction(holds, done + [acts[0]], Apply(s, acts[0]), acts[1..]);
      assert done + [acts[0]] + acts[1..] == done + acts;
    }
  }

  lemma EveryRunIsTold(workers: nat, clients: nat, acts: seq<Action>)
    requires Legal(Init(workers, clients), acts)
    ensures Told(acts, After(Init(workers, clients), acts))
    ensures |After(Init(workers, clients), acts).clients| == clients
  {
    var holds := (d: seq<Action>, t: Pool) => Told(d, t) && |t.clients| == clients;
    forall d, t, a | holds(d, t) && Enabled(t, a) ensures holds(d + [a], Apply(t, a)) {
      ToldStep(d, t, a);
    }
    assert Told([], Init(workers, clients));
    RunInduction(holds, [], Init(workers, clients), acts);
    assert [] + acts == acts;
  }

  /** In every run the pushed tasks are exactly the callers' own, in the order of the pushes; and a call
      that has returned was whole: an enqueue pushed once under the lock and notified, a clear emptied
      the deque once under the lock. */
  lemma CallsAreWhole(workers: nat, clients: nat, acts: seq<Action>, c: nat)
    requires Legal(Init(workers, clients), acts) && c < clients
    ensures After(Init(workers, clients), acts).enqueued == Pushed(acts)
    ensures c < |After(Init(workers, clients), acts).clients|
    ensures After(Init(workers, clients), acts).clients[c].Idle? && Call(acts, c).Some? ==>
              Since(acts, c) == if Call(acts, c).value.CallEnqueue?
                                then [ClientLock(c), Push(c), Notify(c), ClientUnlock(c)]
                                else [ClientLock(c), ClearTasks(c), ClientUnlock(c)]
  {
    EveryRunIsTold(workers, clients, acts);
    assert InCall(acts, After(Init(workers, clients), acts), c);
  }

  /** So when stop() has joined a pool with workers, each task that an enqueue had pushed before stop_
      was set is either dropped by a clear or has been called exactly once, and completed. */
  lemma EnqueuedTasksAreCalled(workers: nat, clients: nat, acts: seq<Action>, k: nat, i: nat)
    requires Legal(Init(workers, clients), acts) && workers > 0
    requires After(Init(workers, clients), acts).stopper.Returned?
    requires k < |acts| && acts[k] == SetStop && i < |Pushed(acts[..k])|
    ensures var s := After(Init(workers, clients), acts);
            && i < |s.fates| && (s.fates[i].Cleared? || (s.fates[i].Completed? && i in s.begun))
            && i < |s.enqueued| && s.enqueued == Pushed(acts)
  {
    EveryRunIsTold(workers, clients, acts);
    StopDrains(workers, clients, acts);
    NothingLostNothingTwice(workers, clients, acts);
  }

  /** No caller is stuck: outside a client can make any call; inside it has a step of its own, unless it
      wants the mutex that another thread holds. */
  lemma CallersGoOn(s: Pool, c: nat)
    requires c < |s.clients|
    ensures match s.clients[c]
            case Idle => (forall task :: Enabled(s, CallEnqueue(c, task))) && Enabled(s, CallClear(c))
            case EnqueueWants(_) => Enabled(s, ClientLock(c)) || s.owner.Some?
            case ClearWants => Enabled(s, ClientLock(c)) || s.owner.Some?
            case EnqueueLocked(_) => Enabled(s, Push(c))
            case EnqueuePushed => Enabled(s, Notify(c))
            case ClearLocked => Enabled(s, ClearTasks(c))
            case Unlocking => Enabled(s, ClientUnlock(c))
  {
  }

  /** And stop() can go on until it has returned, unless it joins a live worker. */
  lemma StopGoesOn(s: Pool)
    requires Inv(s)
    ensures match s.stopper
            case Running => Enabled(s, SetStop)
            case Flagged => Enabled(s, StopNotify)
            case Joining(next) => Enabled(s, JoinNext) || (next < |s.workers| && !s.workers[next].Exited?)
            case Returned => forall w :: 0 <= w < |s.workers| ==> s.workers[w].Exited?
  {
  }
}
