/** What the calls on a timer come to, told from the calls' own arguments and the run's steps. */
module TimerCalls {
  import opened EventTypes
  import opened Timers

  /** The listeners that a run has added, in order. */
  function Added(acts: seq<Action>): seq<Listener> {
    if acts == [] then []
    else
      var last := acts[|acts| - 1];
      Added(acts[..|acts| - 1]) + if last.AddListener? then [last.f] else []
  }

  /** The controller's last call: start, stop or wait_for_stop. */
  function Call(acts: seq<Action>): Option<Action> {
    if acts == [] then None
    else
      var last := acts[|acts| - 1];
      if last.TestStart? || last.TestStop? then Some(last) else Call(acts[..|acts| - 1])
  }

  /** Thread `g` copied the listeners at step `k`. */
  ghost predicate CopiedAt(acts: seq<Action>, g: nat, k: int) {
    && 0 <= k < |acts| && acts[k] == Snapshot(g)
  }

  /** A thread past its copy has copied at some step, and its snapshot is what had been added by then. */
  ghost predicate Copied(acts: seq<Action>, s: Timer, g: nat) {
    if g < |s.threads| && !s.threads[g].pc.Fresh? then
      && (exists k :: CopiedAt(acts, g, k))
      && (forall k :: CopiedAt(acts, g, k) ==> s.threads[g].snapshot == Added(acts[..k]))
    else forall k :: !CopiedAt(acts, g, k)
  }

  /** The controller is at the place of its call. */
  ghost predicate InCall(acts: seq<Action>, s: Timer) {
    match s.controller
    case Idle =>
      (match Call(acts)
       case Some(TestStart) => s.active
       case Some(TestStop(wait)) => !s.active && (wait ==> !s.joinable)
       case _ => !s.active && s.threads == [])
    case StartJoin => Call(acts) == Some(TestStart)
    case StartSet => Call(acts) == Some(TestStart)
    case StartSpawn => Call(acts) == Some(TestStart) && s.active
    case StopStore(wait) => Call(acts) == Some(TestStop(wait))
    case StopJoin => Call(acts) == Some(TestStop(true))
  }

  ghost predicate Told(acts: seq<Action>, s: Timer) {
    s.listeners == Added(acts) && InCall(acts, s) && forall g: nat :: Copied(acts, s, g)
  }

  lemma Grow(acts: seq<Action>, a: Action)
    ensures Added(acts + [a]) == if a.AddListener? then Added(acts) + [a.f] else Added(acts)
    ensures Call(acts + [a]) == if a.TestStart? || a.TestStop? then Some(a) else Call(acts)
  {
    assert (acts + [a])[..|acts|] == acts;
  }

  lemma GrowCopy(acts: seq<Action>, a: Action, g: nat, k: int)
    ensures CopiedAt(acts + [a], g, k) <==> CopiedAt(acts, g, k) || (k == |acts| && a == Snapshot(g))
    ensures 0 <= k <= |acts| ==> (acts + [a])[..k] == acts[..k]
  {
  }

  lemma CallIsACall(acts: seq<Action>)
    ensures Call(acts).Some? ==> Call(acts).value.TestStart? || Call(acts).value.TestStop?
  {
  }

  lemma ControllerStep(acts: seq<Action>, s: Timer, a: Action)
    requires Inv(s) && InCall(acts, s) && Enabled(s, a)
    ensures InCall(acts + [a], Apply(s, a))
  {
    Grow(acts, a);
    CallIsACall(acts);
  }

  lemma OthersKeepCopies(acts: seq<Action>, s: Timer, a: Action, g: nat)
    requires Copied(acts, s, g) && Enabled(s, a) && a != Snapshot(g)
    ensures Copied(acts + [a], Apply(s, a), g)
  {
    forall k ensures CopiedAt(acts + [a], g, k) <==> CopiedAt(acts, g, k) { GrowCopy(acts, a, g, k); }
    forall k | CopiedAt(acts, g, k) ensures (acts + [a])[..k] == acts[..k] { GrowCopy(acts, a, g, k); }
    if k :| CopiedAt(acts, g, k) {
      assert CopiedAt(acts + [a], g, k);
    }
  }

  lemma SnapshotCopies(acts: seq<Action>, s: Timer, g: nat)
    requires Copied(acts, s, g) && s.listeners == Added(acts) && Enabled(s, Snapshot(g))
    ensures Copied(acts + [Snapshot(g)], Apply(s, Snapshot(g)), g)
  {
    forall k ensures CopiedAt(acts + [Snapshot(g)], g, k) <==> k == |acts| { GrowCopy(acts, Snapshot(g), g, k); }
    assert (acts + [Snapshot(g)])[..|acts|] == acts;
    assert CopiedAt(acts + [Snapshot(g)], g, |acts|);
  }

  lemma ToldStep(acts: seq<Action>, s: Timer, a: Action)
    requires Inv(s) && Told(acts, s) && Enabled(s, a)
    ensures Told(acts + [a], Apply(s, a)) && Inv(Apply(s, a))
  {
    ControllerStep(acts, s, a);
    Grow(acts, a);
    forall g: nat ensures Copied(acts + [a], Apply(s, a), g) {
      if a == Snapshot(g) { SnapshotCopies(acts, s, g); } else { OthersKeepCopies(acts, s, a, g); }
    }
    StepKeeps(s, a);
  }

  /** What holds of an initial record and is kept by every step holds of every run. */
  lemma {:induction false} RunInduction(
    holds: (seq<Action>, Timer) -> bool, done: seq<Action>, s: Timer, acts: seq<Action>)
    requires holds(done, s) && Legal(s, acts)
    requires forall d, t, a :: holds(d, t) && Enabled(t, a) ==> holds(d + [a], Apply(t, a))
    ensures holds(done + acts, After(s, acts))
    decreases |acts|
  {
    if acts == [] {
      assert done + acts == done;
    } else {
      RunInduction(holds, done + [acts[0]], Apply(s, acts[0]), acts[1..]);
      assert done + [acts[0]] + acts[1..] == done + acts;
    }
  }

  lemma EveryRunIsTold(acts: seq<Action>)
    requires Legal(Init(), acts)
    ensures Told(acts, After(Init(), acts)) && Inv(After(Init(), acts))
  {
    var holds := (d: seq<Action>, t: Timer) => Told(d, t) && Inv(t);
    forall d, t, a | holds(d, t) && Enabled(t, a) ensures holds(d + [a], Apply(t, a)) {
      ToldStep(d, t, a);
    }
    assert Told([], Init()) && Inv(Init());
    RunInduction(holds, [], Init(), acts);
    assert [] + acts == acts;
  }

  // ---- Theorems -----------------------------------------------------------------------------------

  /** In every run a thread that has copied the listeners did so at one step, has as snapshot exactly
      the listeners added before that step, in order, and has called a prefix of as many repetitions
      of them as it was admitted to rounds. */
  lemma ThreadsCallAddedListeners(acts: seq<Action>, g: nat)
    requires Legal(Init(), acts) && g < |After(Init(), acts).threads| && !After(Init(), acts).threads[g].pc.Fresh?
    ensures exists k :: 0 <= k < |acts| && acts[k] == Snapshot(g)
    ensures forall k :: 0 <= k < |acts| && acts[k] == Snapshot(g) ==>
              var thread := After(Init(), acts).threads[g];
              && thread.snapshot == Added(acts[..k])
              && thread.calls <= Repeat(Added(acts[..k]), thread.rounds)
  {
    EveryRunIsTold(acts);
    GenerationsDoNotMix(acts);
    assert Copied(acts, After(Init(), acts), g);
    var k :| CopiedAt(acts, g, k);
    assert 0 <= k < |acts| && acts[k] == Snapshot(g);
    forall k | 0 <= k < |acts| && acts[k] == Snapshot(g)
      ensures After(Init(), acts).threads[g].snapshot == Added(acts[..k])
    {
      assert CopiedAt(acts, g, k);
    }
  }

  /** So without auto-restart a start whose round is over has called every listener added before its
      thread copied the list, once each and in order, and nobody else. */
  lemma OneShotCallsEveryListener(acts: seq<Action>, g: nat, k: nat)
    requires Legal(Init(), acts) && NeverAutoRestart(acts)
    requires k < |acts| && acts[k] == Snapshot(g)
    ensures g < |After(Init(), acts).threads|
    ensures var thread := After(Init(), acts).threads[g];
            && thread.calls <= Added(acts[..k])
            && (thread.pc.Ended? && thread.rounds > 0 ==> thread.calls == Added(acts[..k]))
  {
    EveryRunIsTold(acts);
    assert CopiedAt(acts, g, k) && Copied(acts, After(Init(), acts), g);
    OneRoundPerStart(acts);
  }

  /** What a call has brought about when it has returned: after start the timer is active; after stop it
      is not; after wait_for_stop, besides, every thread it ever had has ended. */
  lemma CallsAreWhole(acts: seq<Action>)
    requires Legal(Init(), acts) && After(Init(), acts).controller.Idle?
    ensures var s := After(Init(), acts);
            match Call(acts)
            case Some(TestStart) => s.active
            case Some(TestStop(wait)) =>
              !s.active && (wait ==> forall g :: 0 <= g < |s.threads| ==> s.threads[g].pc.Ended?)
            case _ => !s.active && s.threads == []
  {
    EveryRunIsTold(acts);
  }

  /** With auto-restart on and no stop, a live thread goes on from round to round. */
  lemma {:induction false} AutoRestartKeepsRunning(s: Timer, acts: seq<Action>, g: nat)
    requires Inv(s) && Legal(s, acts) && NotCleared(acts) && s.active && s.restart
    requires s.controller.Idle? || s.controller.StartSpawn? || s.controller.StopStore?
    requires forall i :: 0 <= i < |acts| ==> acts[i] != SetRestart(false)
    requires g < |s.threads| && !s.threads[g].pc.Ended?
    ensures g < |After(s, acts).threads| && !After(s, acts).threads[g].pc.Ended?
    decreases |acts|
  {
    if acts != [] {
      assert !acts[0].ClearActive? && acts[0] != SetRestart(false);
      StepKeeps(s, acts[0]);
      AutoRestartKeepsRunning(Apply(s, acts[0]), acts[1..], g);
    }
  }

  /** Nobody is stuck: between two calls the controller can make any call; inside one it can go on,
      unless it joins a thread that is still live; and a live thread has a step of its own. */
  lemma CallsGoOn(s: Timer, g: nat)
    requires Inv(s)
    ensures s.controller.Idle? ==> Enabled(s, TestStart)
    ensures s.controller.Idle? ==> forall wait :: Enabled(s, TestStop(wait))
    ensures !s.controller.Idle? ==>
              || Enabled(s, JoinOld) || Enabled(s, SetActive) || Enabled(s, Spawn)
              || Enabled(s, ClearActive) || Enabled(s, JoinStopped)
              || ((s.controller.StartJoin? || s.controller.StopJoin?)
                  && s.threads != [] && !s.threads[|s.threads| - 1].pc.Ended?)
    ensures g < |s.threads| && !s.threads[g].pc.Ended? ==>
              || Enabled(s, Snapshot(g)) || Enabled(s, WakeUp(g)) || Enabled(s, Decide(g))
              || Enabled(s, CallNext(g)) || Enabled(s, EndRound(g))
    ensures forall on :: Enabled(s, SetRestart(on))
    ensures forall f :: Enabled(s, AddListener(f))
  {
  }
}
