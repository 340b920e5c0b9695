/** The timer of lib/Timer/Timer.cpp: one controller thread starts and stops it, each effective start
    spawns a timer thread; anyone may add listeners or switch auto-restart. Sleeping ends at any time. */
module Timers {
  type Listener = nat

  datatype Pc =
    | Fresh            // before copying the listeners
    | Sleeping
    | Deciding         // slept, about to test active_
    | Calling(i: nat)  // i listeners of this round called
    | Restarting       // round over, about to test restart_
    | Ended

  /** `rounds` counts the rounds admitted by the test of active_. */
  datatype Thread = Thread(pc: Pc, snapshot: seq<Listener>, rounds: nat, calls: seq<Listener>)

  datatype Controller =
    | Idle
    | StartJoin | StartSet | StartSpawn                // inside start(), past its test
    | StopStore(wait: bool) | StopJoin                 // inside stop() or wait_for_stop()

  /** `threads` lists every thread ever spawned; `joinable` says that thread_ still owns the last
      one. `raisedFor` is the index of the thread for which active_ was last set. `crashed` records
      an assignment over a joinable thread, which would terminate the process. */
  datatype Timer = Timer(active: bool, restart: bool, listeners: seq<Listener>,
                         controller: Controller, threads: seq<Thread>, joinable: bool,
                         raisedFor: nat, crashed: bool)

  function Init(): Timer {
    Timer(false, false, [], Idle, [], false, 0, false)
  }

  datatype Action =
    | TestStart | JoinOld | SetActive | Spawn
    | TestStop(wait: bool) | ClearActive | JoinStopped
    | SetRestart(on: bool) | AddListener(f: Listener)
    | Snapshot(g: nat) | WakeUp(g: nat) | Decide(g: nat) | CallNext(g: nat) | EndRound(g: nat)

  /** Whether `thread_.join()` returns at once, or is not called at all. */
  predicate CanJoin(s: Timer) {
    s.joinable && s.threads != [] ==> s.threads[|s.threads| - 1].pc.Ended?
  }

  predicate Enabled(s: Timer, a: Action) {
    match a
    case TestStart => s.controller.Idle?
    case JoinOld => s.controller.StartJoin? && CanJoin(s)
    case SetActive => s.controller.StartSet?
    case Spawn => s.controller.StartSpawn?
    case TestStop(_) => s.controller.Idle?
    case ClearActive => s.controller.StopStore?
    case JoinStopped => s.controller.StopJoin? && CanJoin(s)
    case SetRestart(_) => true
    case AddListener(_) => true
    case Snapshot(g) => g < |s.threads| && s.threads[g].pc.Fresh?
    case WakeUp(g) => g < |s.threads| && s.threads[g].pc.Sleeping?
    case Decide(g) => g < |s.threads| && s.threads[g].pc.Deciding?
    case CallNext(g) => g < |s.threads| && s.threads[g].pc.Calling? && s.threads[g].pc.i < |s.threads[g].snapshot|
    case EndRound(g) =>
      && g < |s.threads|
      && (s.threads[g].pc.Restarting? || (s.threads[g].pc.Calling? && |s.threads[g].snapshot| <= s.threads[g].pc.i))
  }

  /** The thread after it has called the next listener of its snapshot. */
  function Invoked(thread: Thread): Thread
    requires thread.pc.Calling? && thread.pc.i < |thread.snapshot|
  {
    thread.(pc := Calling(thread.pc.i + 1), calls := thread.calls + [thread.snapshot[thread.pc.i]])
  }

  function Apply(s: Timer, a: Action): Timer
    requires Enabled(s, a)
  {
    match a
    case TestStart => s.(controller := if s.active then Idle else StartJoin)
    case JoinOld => s.(controller := StartSet, joinable := false)
    case SetActive => s.(controller := StartSpawn, active := true, raisedFor := |s.threads|)
    case Spawn =>
      s.(controller := Idle, joinable := true, crashed := s.crashed || s.joinable,
         threads := s.threads + [Thread(Fresh, [], 0, [])])
    case TestStop(wait) => s.(controller := if s.active then StopStore(wait) else if wait then StopJoin else Idle)
    case ClearActive => s.(active := false, controller := if s.controller.wait then StopJoin else Idle)
    case JoinStopped => s.(controller := Idle, joinable := false)
    case SetRestart(on) => s.(restart := on)
    case AddListener(f) => s.(listeners := s.listeners + [f])
    case Snapshot(g) => s.(threads := s.threads[g := s.threads[g].(pc := Sleeping, snapshot := s.listeners)])
    case WakeUp(g) => s.(threads := s.threads[g := s.threads[g].(pc := Deciding)])
    case Decide(g) =>
      if s.active then
        s.(threads := s.threads[g := s.threads[g].(pc := Calling(0), rounds := s.threads[g].rounds + 1)])
      else s.(threads := s.threads[g := s.threads[g].(pc := Ended)])
    case CallNext(g) =>
      var thread := s.threads[g];
      s.(threads := s.threads[g := Invoked(thread)])
    case EndRound(g) =>
      if s.threads[g].pc.Calling? then s.(threads := s.threads[g := s.threads[g].(pc := Restarting)])
      else s.(threads := s.threads[g := s.threads[g].(pc := if s.restart then Sleeping else Ended)])
  }

  ghost predicate Legal(s: Timer, acts: seq<Action>)
    decreases |acts|
  {
    acts != [] ==> Enabled(s, acts[0]) && Legal(Apply(s, acts[0]), acts[1..])
  }

  ghost function After(s: Timer, acts: seq<Action>): Timer
    requires Legal(s, acts)
    decreases |acts|
  {
    if acts == [] then s else After(Apply(s, acts[0]), acts[1..])
  }

  // ---- Invariant ----------------------------------------------------------------------------------

  function Repeat(snapshot: seq<Listener>, n: nat): seq<Listener> {
    if n == 0 then [] else Repeat(snapshot, n - 1) + snapshot
  }

  /** Only the last thread can be live, and none once thread_ has been joined. */
  ghost predicate OneLive(s: Timer) {
    && (forall g :: 0 <= g < |s.threads| && !s.threads[g].pc.Ended? ==> g == |s.threads| - 1 && s.joinable)
    && (s.controller.StartSet? || s.controller.StartSpawn? ==> !s.joinable)
    && (s.controller.StartJoin? || s.controller.StartSet? || s.controller.StopJoin? ==> !s.active)
    && (s.controller.StopStore? || s.controller.StartSpawn? ==> s.active)
    && !s.crashed
  }

  /** The flag that is up was raised for the last thread, or for the one about to be spawned. */
  ghost predicate RaisedForLast(s: Timer) {
    s.active ==> s.raisedFor + 1 == |s.threads| + if s.controller.StartSpawn? then 1 else 0
  }

  /** A thread's calls are whole rounds of its snapshot, then the part of the current round. */
  ghost predicate CallsInOrder(thread: Thread) {
    match thread.pc
    case Fresh => thread.rounds == 0 && thread.calls == [] && thread.snapshot == []
    case Calling(i) =>
      && thread.rounds > 0 && i <= |thread.snapshot|
      && thread.calls == Repeat(thread.snapshot, thread.rounds - 1) + thread.snapshot[..i]
    case _ => thread.calls == Repeat(thread.snapshot, thread.rounds)
  }

  ghost predicate Inv(s: Timer) {
    OneLive(s) && RaisedForLast(s) && forall g :: 0 <= g < |s.threads| ==> CallsInOrder(s.threads[g])
  }

  /** A call extends the current round; a round with no listener left is whole. */
  lemma RoundGrows(thread: Thread)
    requires CallsInOrder(thread) && thread.pc.Calling?
    ensures thread.pc.i < |thread.snapshot| ==> CallsInOrder(Invoked(thread))
    ensures thread.pc.i == |thread.snapshot| ==> CallsInOrder(thread.(pc := Restarting))
  {
    assert thread.snapshot[..|thread.snapshot|] == thread.snapshot;
    if thread.pc.i < |thread.snapshot| {
      assert thread.snapshot[..thread.pc.i + 1] == thread.snapshot[..thread.pc.i] + [thread.snapshot[thread.pc.i]];
    }
  }

  lemma RoundStarts(thread: Thread)
    requires CallsInOrder(thread) && thread.pc.Deciding?
    ensures CallsInOrder(thread.(pc := Calling(0), rounds := thread.rounds + 1))
  {
  }

  lemma CallsStep(s: Timer, a: Action, g: nat)
    requires Enabled(s, a) && g < |Apply(s, a).threads|
    requires g < |s.threads| ==> CallsInOrder(s.threads[g])
    ensures CallsInOrder(Apply(s, a).threads[g])
  {
    match a
    case CallNext(h) => if g == h { RoundGrows(s.threads[g]); }
    case EndRound(h) => if g == h && s.threads[g].pc.Calling? { RoundGrows(s.threads[g]); }
    case Decide(h) => if g == h { RoundStarts(s.threads[g]); }
    case _ =>
  }

  lemma StepKeeps(s: Timer, a: Action)
    requires Inv(s) && Enabled(s, a)
    ensures Inv(Apply(s, a))
  {
    forall g | 0 <= g < |Apply(s, a).threads| ensures CallsInOrder(Apply(s, a).threads[g]) {
      CallsStep(s, a, g);
    }
  }

  lemma {:induction false} RunKeeps(s: Timer, acts: seq<Action>)
    requires Inv(s) && Legal(s, acts)
    ensures Inv(After(s, acts))
    ensures |s.threads| <= |After(s, acts).threads|
    decreases |acts|
  {
    if acts != [] {
      StepKeeps(s, acts[0]);
      RunKeeps(Apply(s, acts[0]), acts[1..]);
    }
  }

  // ---- Theorems -------------------------------------------------------------------------------------

  /** In every run at most one timer thread is live; a thread that finds the flag up finds the flag
      raised by its own start; thread_ is never overwritten while joinable; and each thread has
      called its snapshotted listeners in order, round after round. */
  lemma GenerationsDoNotMix(acts: seq<Action>)
    requires Legal(Init(), acts)
    ensures var s := After(Init(), acts);
            && (forall g, h | 0 <= g < |s.threads| && 0 <= h < |s.threads| ::
                  !s.threads[g].pc.Ended? && !s.threads[h].pc.Ended? ==> g == h)
            && (forall g :: Enabled(s, Decide(g)) && s.active ==> s.raisedFor == g)
            && !s.crashed
            && (forall g :: 0 <= g < |s.threads| ==>
                  s.threads[g].calls <= Repeat(s.threads[g].snapshot, s.threads[g].rounds))
  {
    RunKeeps(Init(), acts);
    var s := After(Init(), acts);
    forall g | 0 <= g < |s.threads|
      ensures s.threads[g].calls <= Repeat(s.threads[g].snapshot, s.threads[g].rounds)
    {
      assert CallsInOrder(s.threads[g]);
    }
  }

  ghost predicate NotRaised(acts: seq<Action>) {
    forall i :: 0 <= i < |acts| ==> !acts[i].SetActive?
  }

  /** With the flag down and until it is raised again, no thread is admitted to another round: all a
      thread can still do is finish the one round it was admitted to before. */
  lemma {:induction false} NoRoundAfterStop(s: Timer, acts: seq<Action>, g: nat)
    requires Inv(s) && Legal(s, acts) && NotRaised(acts) && !s.active && g < |s.threads|
    ensures g < |After(s, acts).threads|
    ensures !After(s, acts).active && |After(s, acts).threads| == |s.threads|
    ensures After(s, acts).threads[g].rounds == s.threads[g].rounds
    ensures !s.threads[g].pc.Fresh? ==> After(s, acts).threads[g].snapshot == s.threads[g].snapshot
    ensures After(s, acts).threads[g].calls <= Repeat(After(s, acts).threads[g].snapshot, s.threads[g].rounds)
    decreases |acts|
  {
    if acts != [] {
      assert !acts[0].SetActive?;
      StepKeeps(s, acts[0]);
      NoRoundAfterStop(Apply(s, acts[0]), acts[1..], g);
    } else {
      assert CallsInOrder(s.threads[g]);
    }
  }

  /** Once wait_for_stop has joined, nothing is called until the next start. */
  lemma SilenceAfterWait(s: Timer, acts: seq<Action>)
    requires Inv(s) && Enabled(s, JoinStopped)
    requires Legal(Apply(s, JoinStopped), acts) && NotRaised(acts)
    ensures After(Apply(s, JoinStopped), acts).threads == s.threads
    ensures forall g :: 0 <= g < |s.threads| ==> s.threads[g].pc.Ended?
  {
    StepKeeps(s, JoinStopped);
    AllEndedStays(Apply(s, JoinStopped), acts);
  }

  lemma {:induction false} AllEndedStays(s: Timer, acts: seq<Action>)
    requires Inv(s) && !s.active && (forall g :: 0 <= g < |s.threads| ==> s.threads[g].pc.Ended?)
    requires Legal(s, acts) && NotRaised(acts)
    ensures After(s, acts).threads == s.threads
    decreases |acts|
  {
    if acts != [] {
      assert !acts[0].SetActive?;
      StepKeeps(s, acts[0]);
      AllEndedStays(Apply(s, acts[0]), acts[1..]);
    }
  }

  ghost predicate NeverAutoRestart(acts: seq<Action>) {
    forall i :: 0 <= i < |acts| ==> acts[i] != SetRestart(true)
  }

  /** Without auto-restart a thread is admitted once, and then only ends. */
  ghost predicate OneShot(s: Timer) {
    && !s.restart
    && forall g :: 0 <= g < |s.threads| ==>
         s.threads[g].rounds <= match s.threads[g].pc
                                case Fresh => 0
                                case Sleeping => 0
                                case Deciding => 0
                                case _ => 1
  }

  lemma OneShotStep(s: Timer, a: Action)
    requires OneShot(s) && Enabled(s, a) && a != SetRestart(true)
    ensures OneShot(Apply(s, a))
  {
  }

  lemma {:induction false} OneShotKept(s: Timer, acts: seq<Action>)
    requires OneShot(s) && Legal(s, acts) && NeverAutoRestart(acts)
    ensures OneShot(After(s, acts))
    decreases |acts|
  {
    if acts != [] {
      assert acts[0] != SetRestart(true);
      OneShotStep(s, acts[0]);
      OneShotKept(Apply(s, acts[0]), acts[1..]);
    }
  }

  /** Without auto-restart each effective start yields at most one round: a thread's calls are a
      prefix of its snapshot, and all of it once it ended after being admitted. */
  lemma OneRoundPerStart(acts: seq<Action>)
    requires Legal(Init(), acts) && NeverAutoRestart(acts)
    ensures var s := After(Init(), acts);
            forall g :: 0 <= g < |s.threads| ==>
              && s.threads[g].rounds <= 1
              && s.threads[g].calls <= s.threads[g].snapshot
              && (s.threads[g].pc.Ended? ==>
                    s.threads[g].calls == if s.threads[g].rounds == 1 then s.threads[g].snapshot else [])
  {
    OneShotKept(Init(), acts);
    RunKeeps(Init(), acts);
    var s := After(Init(), acts);
    forall g | 0 <= g < |s.threads|
      ensures s.threads[g].rounds <= 1
      ensures s.threads[g].calls <= s.threads[g].snapshot
      ensures s.threads[g].pc.Ended? ==>
        s.threads[g].calls == if s.threads[g].rounds == 1 then s.threads[g].snapshot else []
    {
      assert CallsInOrder(s.threads[g]);
      assert Repeat(s.threads[g].snapshot, 0) == [];
      assert Repeat(s.threads[g].snapshot, 1) == s.threads[g].snapshot;
    }
  }

  ghost predicate NotCleared(acts: seq<Action>) {
    forall i :: 0 <= i < |acts| ==> !acts[i].ClearActive?
  }

  /** Some start took effect and no stop has cleared the flag since. */
  ghost predicate Uncleared(acts: seq<Action>) {
    exists i :: 0 <= i < |acts| && acts[i].SetActive? && NotCleared(acts[i + 1..])
  }

  lemma UnclearedByFirst(acts: seq<Action>)
    requires acts != []
    ensures NotCleared(acts) <==> !acts[0].ClearActive? && NotCleared(acts[1..])
    ensures Uncleared(acts) <==> Uncleared(acts[1..]) || (acts[0].SetActive? && NotCleared(acts[1..]))
  {
    var rest := acts[1..];
    assert forall i :: 0 < i < |acts| ==> acts[i] == rest[i - 1];
    assert forall i :: 0 <= i < |rest| ==> rest[i] == acts[i + 1];
    if Uncleared(rest) {
      var i :| 0 <= i < |rest| && rest[i].SetActive? && NotCleared(rest[i + 1..]);
      assert acts[i + 1].SetActive? && acts[i + 2..] == rest[i + 1..];
    }
    if Uncleared(acts) {
      var i :| 0 <= i < |acts| && acts[i].SetActive? && NotCleared(acts[i + 1..]);
      if i > 0 {
        assert rest[i - 1].SetActive? && rest[i..] == acts[i + 1..];
      }
    }
  }

  lemma {:induction false} FlagFollowsCalls(s: Timer, acts: seq<Action>)
    requires Legal(s, acts)
    ensures After(s, acts).active <==> Uncleared(acts) || (s.active && NotCleared(acts))
    decreases |acts|
  {
    if acts != [] {
      FlagFollowsCalls(Apply(s, acts[0]), acts[1..]);
      UnclearedByFirst(acts);
    }
  }

  /** A start() between two calls is without effect exactly when an earlier start took effect and no
      stop has cleared the flag since; whether the thread still runs makes no difference. */
  lemma StartIsIgnoredIffUncleared(acts: seq<Action>)
    requires Legal(Init(), acts) && After(Init(), acts).controller.Idle?
    ensures Apply(After(Init(), acts), TestStart) == After(Init(), acts) <==> Uncleared(acts)
  {
    FlagFollowsCalls(Init(), acts);
  }

  lemma Prepend(s: Timer, a: Action, acts: seq<Action>)
    requires Enabled(s, a) && Legal(Apply(s, a), acts)
    ensures Legal(s, [a] + acts) && After(s, [a] + acts) == After(Apply(s, a), acts)
  {
    assert ([a] + acts)[1..] == acts;
  }

  /** A one-shot start without listeners: its thread sleeps, makes its round and ends. */
  const ONE_SHOT: seq<Action> := [TestStart, JoinOld, SetActive, Spawn] + ONE_ROUND
  const ONE_ROUND: seq<Action> := [Snapshot(0), WakeUp(0), Decide(0), EndRound(0), EndRound(0)]

  lemma AdmittedRoundEnds(s: Timer)
    requires s.active && !s.restart && s.threads == [Thread(Deciding, [], 0, [])]
    ensures Legal(s, [Decide(0), EndRound(0), EndRound(0)])
    ensures After(s, [Decide(0), EndRound(0), EndRound(0)]) == s.(threads := [Thread(Ended, [], 1, [])])
  {
    var s1 := s.(threads := [Thread(Calling(0), [], 1, [])]);
    var s2 := s.(threads := [Thread(Restarting, [], 1, [])]);
    assert Apply(s, Decide(0)) == s1 && Apply(s1, EndRound(0)) == s2;
    Prepend(s2, EndRound(0), []);
    Prepend(s1, EndRound(0), [EndRound(0)]);
    Prepend(s, Decide(0), [EndRound(0), EndRound(0)]);
  }

  lemma RoundEnds(s: Timer)
    requires s.active && !s.restart && s.listeners == [] && s.threads == [Thread(Fresh, [], 0, [])]
    ensures Legal(s, ONE_ROUND) && After(s, ONE_ROUND) == s.(threads := [Thread(Ended, [], 1, [])])
  {
    var s1 := s.(threads := [Thread(Sleeping, [], 0, [])]);
    var s2 := s.(threads := [Thread(Deciding, [], 0, [])]);
    assert Apply(s, Snapshot(0)) == s1 && Apply(s1, WakeUp(0)) == s2;
    AdmittedRoundEnds(s2);
    Prepend(s1, WakeUp(0), [Decide(0), EndRound(0), EndRound(0)]);
    Prepend(s, Snapshot(0), [WakeUp(0), Decide(0), EndRound(0), EndRound(0)]);
  }

  /** A concrete run whose only thread has ended, and in which a second start() is nevertheless ignored. */
  lemma EndedTimerIgnoresStart()
    ensures Legal(Init(), ONE_SHOT)
    ensures var s := After(Init(), ONE_SHOT);
            s.controller.Idle? && s.active && s.threads == [Thread(Ended, [], 1, [])] && Apply(s, TestStart) == s
  {
    var s1 := Init().(controller := StartJoin);
    var s2 := Init().(controller := StartSet);
    var s3 := Init().(controller := StartSpawn, active := true);
    var s4 := Init().(active := true, joinable := true, threads := [Thread(Fresh, [], 0, [])]);
    assert Apply(Init(), TestStart) == s1 && Apply(s1, JoinOld) == s2;
    assert Apply(s2, SetActive) == s3 && Apply(s3, Spawn) == s4;
    RoundEnds(s4);
    Prepend(s3, Spawn, ONE_ROUND);
    Prepend(s2, SetActive, [Spawn] + ONE_ROUND);
    Prepend(s1, JoinOld, [SetActive] + ([Spawn] + ONE_ROUND));
    Prepend(Init(), TestStart, [JoinOld] + ([SetActive] + ([Spawn] + ONE_ROUND)));
    assert ONE_SHOT == [TestStart] + ([JoinOld] + ([SetActive] + ([Spawn] + ONE_ROUND)));
  }

  // ---- The object -------------------------------------------------------------------------------------

  class TimerObject {
    var active: bool
    var restart: bool
    var listeners: seq<Listener>
    var joinable: bool
    ghost var world: Timer

    ghost predicate Valid()
      reads this
    {
      && Inv(world) && world.active == active && world.restart == restart
      && world.listeners == listeners && world.joinable == joinable
    }

    constructor ()
      ensures Valid() && world == Init()
    {
      active, restart, listeners, joinable, world := false, false, [], false, Init();
    }

    ghost method Step(a: Action)
      requires Inv(world) && Enabled(world, a)
      modifies this`world
      ensures Inv(world) && world == Apply(old(world), a)
    {
      StepKeeps(world, a);
      world := Apply(world, a);
    }

    /** A new listener goes to the back; threads that have copied the list keep their copy. */
    method AddListenerTo(f: Listener)
      requires Valid()
      modifies this
      ensures Valid() && world == Apply(old(world), AddListener(f)) && listeners == old(listeners) + [f]
      ensures world.threads == old(world.threads)
    {
      listeners := listeners + [f];
      Step(AddListener(f));
    }

    /** `start()`: without effect if active; else, once the join it may need returns, one new thread
        after every earlier one has ended. */
    method Start()
      requires Valid() && world.controller.Idle? && (!active ==> CanJoin(world))
      modifies this
      ensures Valid() && world.controller.Idle? && active
      ensures old(active) ==> world == old(world)
      ensures !old(active) ==> world.threads == old(world.threads) + [Thread(Fresh, [], 0, [])]
      ensures !old(active) ==> forall g :: 0 <= g < |old(world.threads)| ==> old(world.threads[g].pc.Ended?)
      ensures restart == old(restart) && listeners == old(listeners)
    {
      Step(TestStart);
      if active {
        return;
      }
      if joinable {
        joinable := false;
      }
      Step(JoinOld);
      active := true;
      Step(SetActive);
      joinable := true;
      Step(Spawn);
    }

    /** `stop()`: the flag goes down, the threads are left alone. */
    method Stop()
      requires Valid() && world.controller.Idle?
      modifies this
      ensures Valid() && world.controller.Idle? && !active && world.threads == old(world.threads)
      ensures joinable == old(joinable) && restart == old(restart) && listeners == old(listeners)
    {
      Step(TestStop(false));
      if active {
        active := false;
        Step(ClearActive);
      }
    }

    /** One admitted round of thread `g`: every listener of its snapshot, in order, once. */
    method InvokeAll(g: nat, handlers: seq<Listener>)
      requires Valid() && g < |world.threads|
      requires world.threads[g].pc == Calling(0) && world.threads[g].snapshot == handlers
      modifies this`world
      ensures Valid() && world == CalledFirst(old(world), g, |handlers|)
      ensures CalledFirst(old(world), g, |handlers|).threads[g].calls == old(world.threads[g]).calls + handlers
    {
      assert handlers[..0] == [] && world.threads[g].calls + [] == world.threads[g].calls;
      assert world.threads[g := world.threads[g]] == world.threads;
      for k := 0 to |handlers|
        invariant Valid() && world == CalledFirst(old(world), g, k)
      {
        assert handlers[..k + 1] == handlers[..k] + [handlers[k]];
        assert old(world.threads[g]).calls + handlers[..k] + [handlers[k]]
            == old(world.threads[g]).calls + handlers[..k + 1];
        Step(CallNext(g));
      }
      assert handlers[..|handlers|] == handlers;
    }
  }

  /** The timer after thread `g`, at the start of a round, has called `k` listeners of its snapshot. */
  ghost function CalledFirst(s: Timer, g: nat, k: nat): Timer
    requires g < |s.threads| && k <= |s.threads[g].snapshot|
  {
    var thread := s.threads[g];
    s.(threads := s.threads[g := thread.(pc := Calling(k), calls := thread.calls + thread.snapshot[..k])])
  }
}
