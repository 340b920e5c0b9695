/** What every run of an event task guarantees, for any number of clients and any schedule. */
module EventTaskLaws {
  import opened EventTypes
  import opened StateMachines
  import opened MachineLaws
  import opened EventTasks

  ghost predicate Reached(env: Env, clients: nat, acts: seq<Action>, s: Actor) {
    Legal(env, Init(env, clients), acts) && s == After(env, Init(env, clients), acts)
  }

  // ---- Linearisation --------------------------------------------------------------------------

  /** Every interleaving is the sequential fold of the enqueue log: machine and stop flag are the
      fold of the handled prefix, the queue is the rest, and message i's promise holds the fold's
      output at i exactly when i has been answered. */
  lemma EveryRunIsTheFold(env: Env, clients: nat, acts: seq<Action>, s: Actor)
    requires Reached(env, clients, acts, s)
    ensures s.answered <= s.handled <= s.taken <= |s.log|
    ensures s.log == s.log[..s.taken] + s.queue
    ensures s.core == Fold(env, s.log[..s.handled])
    ensures forall i, t :: HasTicket(s.log, i, t) ==>
              && 0 <= t < |s.promises|
              && s.promises[t] == if i < s.answered then Ready(OutputAt(env, s.log, i)) else Pending
    ensures forall t :: 0 <= t < |s.promises| && s.promises[t].Ready? ==>
              exists i :: i < s.answered && HasTicket(s.log, i, t)
  {
    InitInv(env, clients);
    RunKeeps(env, Init(env, clients), acts);
  }

  /** The loop never sleeps on a message: with the mutex free, a waiting loop has an empty queue and
      has answered everything enqueued. */
  lemma LoopSleepsOnlyWhenDone(env: Env, clients: nat, acts: seq<Action>, s: Actor)
    requires Reached(env, clients, acts, s) && s.loop.Parked? && s.owner.None?
    ensures s.queue == [] && s.answered == |s.log|
  {
    InitInv(env, clients);
    RunKeeps(env, Init(env, clients), acts);
  }

  /** Two runs, however scheduled and with however many clients, that enqueued the same log agree:
      same machine after the same number of handled messages, same reply at every position. */
  lemma SameLogSameReplies(env: Env, n1: nat, n2: nat, acts1: seq<Action>, acts2: seq<Action>, s1: Actor, s2: Actor)
    requires Reached(env, n1, acts1, s1) && Reached(env, n2, acts2, s2)
    requires s1.log == s2.log
    ensures s1.handled == s2.handled ==> s1.core == s2.core
    ensures forall i, t1, t2 :: HasTicket(s1.log, i, t1) && HasTicket(s2.log, i, t2)
                                && 0 <= t1 < |s1.promises| && 0 <= t2 < |s2.promises|
                                && s1.promises[t1].Ready? && s2.promises[t2].Ready? ==>
              s1.promises[t1] == s2.promises[t2]
  {
    EveryRunIsTheFold(env, n1, acts1, s1);
    EveryRunIsTheFold(env, n2, acts2, s2);
  }

  // ---- The fold is the table's Mealy machine -----------------------------------------------------

  /** The state after `init` or `set_state` calls from outside; one with an unknown state throws. */
  function Arrived(table: Table, state: Option<State>, targets: seq<State>): Option<State>
    decreases |targets|
  {
    if targets == [] then state
    else Arrived(table, if targets[0] in table then Some(targets[0]) else state, targets[1..])
  }

  /** The state after a log, none before the first initialisation. Messages and the states entered
      from outside move it, internal messages do not. */
  function MealyState(env: Env, log: seq<Message>): Option<State> {
    if log == [] then if env.machine.bound then Some(env.machine.state) else None
    else
      var last := |log| - 1;
      var before := Arrived(env.machine.table, MealyState(env, log[..last]), env.entered(last));
      if log[last].internal || before.None? then before
      else Some(Mealy(env.machine.table, before.value, log[last].req, env.oracle, last).0)
  }

  /** The state in which message `i` finds the machine. */
  function StateAt(env: Env, log: seq<Message>, i: nat): Option<State>
    requires i <= |log|
  {
    Arrived(env.machine.table, MealyState(env, log[..i]), env.entered(i))
  }

  /** The table's answer to message `i`. */
  function MealyReply(env: Env, log: seq<Message>, i: nat): Reply
    requires i < |log|
  {
    var at := StateAt(env, log, i);
    if at.None? then Failure(NotInitialized)
    else Mealy(env.machine.table, at.value, log[i].req, env.oracle, i).1
  }

  /** Handlers that stay off the machine, a callback that does not throw, and a machine as its
      constructor leaves it: in a row of its table, or not initialised yet. */
  ghost predicate TableDriven(env: Env) {
    RowIsCurrent(env.machine) && Quiet(env.oracle) && Silent(env.machine.watcher)
  }

  /** The machine is in this state, or not initialised if there is none. */
  ghost predicate IsIn(m: Machine, state: Option<State>) {
    && (m.bound <==> state.Some?)
    && (m.bound ==> m.state == state.value)
  }

  lemma {:induction false} EnterArrives(m: Machine, state: Option<State>, targets: seq<State>)
    requires RowIsCurrent(m) && Silent(m.watcher) && IsIn(m, state)
    ensures var after := Enter(m, targets);
            && IsIn(after, Arrived(m.table, state, targets))
            && after.table == m.table && after.watcher == m.watcher && RowIsCurrent(after)
    decreases |targets|
  {
    if targets != [] {
      EnterArrives(SetState(m, targets[0]).0, if targets[0] in m.table then Some(targets[0]) else state, targets[1..]);
    }
  }

  /** One publish at a known state, initialised or not. */
  lemma PublishAt(env: Env, m: Machine, state: Option<State>, req: Request, turn: nat)
    requires RowIsCurrent(m) && Quiet(env.oracle) && Silent(m.watcher) && IsIn(m, state)
    ensures var (after, reply) := Publish(m, req.command, req, env.oracle, turn);
            && after.table == m.table && after.watcher == m.watcher && RowIsCurrent(after)
            && if state.None? then reply == Failure(NotInitialized) && after == m
               else var (next, output) := Mealy(m.table, state.value, req, env.oracle, turn);
                    reply == output && IsIn(after, Some(next))
  {
    if state.Some? {
      PublishIsMealy(m, req, env.oracle, turn);
    }
  }

  lemma {:induction false} FoldIsMealy(env: Env, log: seq<Message>)
    requires TableDriven(env)
    ensures var m := Fold(env, log).machine;
            && IsIn(m, MealyState(env, log))
            && m.table == env.machine.table && m.watcher == env.machine.watcher && RowIsCurrent(m)
  {
    if log != [] {
      var last := |log| - 1;
      FoldIsMealy(env, log[..last]);
      MessageIsMealy(env, log, last);
      assert log[..last + 1] == log;
    }
  }

  /** Message `i` finds the machine in its state and gets the table's answer. */
  lemma MessageIsMealy(env: Env, log: seq<Message>, i: nat)
    requires TableDriven(env) && i < |log|
    requires var m := Fold(env, log[..i]).machine;
             && IsIn(m, MealyState(env, log[..i]))
             && m.table == env.machine.table && m.watcher == env.machine.watcher && RowIsCurrent(m)
    ensures !log[i].internal ==> OutputAt(env, log, i) == MealyReply(env, log, i)
    ensures var m := Handle(env, Fold(env, log[..i]), log[i], i).0.machine;
            && IsIn(m, MealyState(env, log[..i + 1]))
            && m.table == env.machine.table && m.watcher == env.machine.watcher && RowIsCurrent(m)
  {
    var m := Fold(env, log[..i]).machine;
    assert log[..i + 1][..i] == log[..i];
    EnterArrives(m, MealyState(env, log[..i]), env.entered(i));
    PublishAt(env, Enter(m, env.entered(i)), StateAt(env, log, i), log[i].req, i);
  }

  /** Linearisation for a table-driven task: in every reachable state the machine is in the Mealy
      state of the handled prefix, and each answered external message was answered with the Mealy
      output at its position in the enqueue log. */
  lemma EveryRunIsTheMealyMachine(env: Env, clients: nat, acts: seq<Action>, s: Actor)
    requires TableDriven(env) && Reached(env, clients, acts, s)
    ensures s.handled <= |s.log| && IsIn(s.core.machine, MealyState(env, s.log[..s.handled]))
    ensures forall i, t :: HasTicket(s.log, i, t) && i < s.answered && !s.log[i].internal ==>
              && 0 <= t < |s.promises|
              && s.promises[t] == Ready(MealyReply(env, s.log, i))
    ensures env.machine.bound ==> forall i :: 0 <= i <= |s.log| ==> StateAt(env, s.log, i).Some?
  {
    EveryRunIsTheFold(env, clients, acts, s);
    FoldIsMealy(env, s.log[..s.handled]);
    if env.machine.bound {
      ArrivedStays(env.machine.table, MealyState(env, []), env.entered(0));
      forall i | 0 <= i <= |s.log| ensures StateAt(env, s.log, i).Some? {
        InitialisedStays(env, s.log, 0, i);
      }
    }
    forall i, t | HasTicket(s.log, i, t) && i < s.answered && !s.log[i].internal
      ensures s.promises[t] == Ready(MealyReply(env, s.log, i))
    {
      FoldIsMealy(env, s.log[..i]);
      MessageIsMealy(env, s.log, i);
    }
  }

  /** Until somebody initialises it, a blank machine stays uninitialised. */
  lemma {:induction false} BlankUntilEntered(env: Env, log: seq<Message>)
    requires !env.machine.bound && forall k :: 0 <= k < |log| ==> env.entered(k) == []
    ensures MealyState(env, log) == None
  {
    if log != [] {
      BlankUntilEntered(env, log[..|log| - 1]);
    }
  }

  lemma {:induction false} InitialisedStays(env: Env, log: seq<Message>, k: nat, i: nat)
    requires k <= i <= |log| && StateAt(env, log, k).Some?
    ensures StateAt(env, log, i).Some?
    decreases i
  {
    if k < i {
      InitialisedStays(env, log, k, i - 1);
      assert log[..i][..i - 1] == log[..i - 1];
      ArrivedStays(env.machine.table, MealyState(env, log[..i]), env.entered(i));
    }
  }

  lemma {:induction false} ArrivedStays(table: Table, state: Option<State>, targets: seq<State>)
    requires state.Some?
    ensures Arrived(table, state, targets).Some?
    decreases |targets|
  {
    if targets != [] {
      ArrivedStays(table, if targets[0] in table then Some(targets[0]) else state, targets[1..]);
    }
  }

  /** A task built with `on` calls, whose `start` initialises it after any number `k` of messages: the
      ones before are answered "not initialized" and move nothing; message `k` finds the initial state,
      and from there on every run is the Mealy machine of the first-wins table of the calls. */
  lemma EveryRunOfBuiltTaskIsTheMealyMachine(
    env: Env, clients: nat, acts: seq<Action>, s: Actor,
    calls: seq<Call>, table: Table, watcher: Watcher, initial: State, k: nat)
    requires FirstWins(table, calls) && (exists i :: 0 <= i < |calls| && calls[i].from == initial)
    requires env.machine == RunOps(BLANK, AddOps(calls), env.oracle).0.(watcher := watcher)
    requires Quiet(env.oracle) && Silent(watcher)
    requires (forall i :: 0 <= i < k ==> env.entered(i) == []) && env.entered(k) == [initial]
    requires Reached(env, clients, acts, s)
    ensures s.handled <= |s.log| && IsIn(s.core.machine, MealyState(env, s.log[..s.handled]))
    ensures s.handled <= k ==> !s.core.machine.bound
    ensures k <= |s.log| ==> StateAt(env, s.log, k) == Some(initial)
    ensures forall i, t :: HasTicket(s.log, i, t) && i < s.answered && !s.log[i].internal ==>
              && 0 <= t < |s.promises|
              && if i < k then s.promises[t] == Ready(Failure(NotInitialized))
                 else var at := StateAt(env, s.log, i);
                      && at.Some?
                      && s.promises[t] == Ready(Mealy(table, at.value, s.log[i].req, env.oracle, i).1)
  {
    AddOpsBuild(calls, env.oracle);
    BuiltTableIsFirstWins(calls);
    FirstWinsIsUnique(table, Build(calls), calls);
    EveryRunIsTheFold(env, clients, acts, s);
    EveryRunIsTheMealyMachine(env, clients, acts, s);
    if s.handled <= k {
      BlankUntilEntered(env, s.log[..s.handled]);
    }
    if k <= |s.log| {
      BlankUntilEntered(env, s.log[..k]);
      assert Arrived(table, None, [initial]) == Some(initial);
    }
    forall i | 0 <= i < |s.log|
      ensures if i < k then StateAt(env, s.log, i).None? else StateAt(env, s.log, i).Some?
    {
      if i < k {
        BlankUntilEntered(env, s.log[..i]);
      } else {
        InitialisedStays(env, s.log, k, i);
      }
    }
  }

  // ---- Replies --------------------------------------------------------------------------------

  /** A waiting caller can return exactly when its own message has been answered; then every
      message enqueued before it has been handled too, and it gets the fold's output at its own
      position. */
  lemma RpcIsABarrier(env: Env, clients: nat, acts: seq<Action>, s: Actor, c: nat)
    requires Reached(env, clients, acts, s)
    requires c < |s.clients| && s.clients[c].Waiting?
    ensures var pos, t := s.clients[c].pos, s.clients[c].ticket;
            && pos < |s.log| && t < |s.promises|
            && (Enabled(s, Return(c)) <==> pos < s.answered)
            && (Enabled(s, Return(c)) ==>
                  && pos < s.handled
                  && s.promises[t] == Ready(OutputAt(env, s.log, pos)))
  {
    InitInv(env, clients);
    RunKeeps(env, Init(env, clients), acts);
    assert HasTicket(s.log, s.clients[c].pos, s.clients[c].ticket);
  }

  lemma PromisesStep(env: Env, s: Actor, a: Action)
    requires Inv(env, s) && Enabled(s, a)
    ensures |s.promises| <= |Apply(env, s, a).promises|
    ensures forall t :: 0 <= t < |s.promises| && s.promises[t].Ready? ==> Apply(env, s, a).promises[t] == s.promises[t]
  {
  }

  /** A fulfilled promise never changes again and no promise is ever set twice, so the branch that
      stores an exception never meets a promise already satisfied. */
  lemma {:induction false} PromisesAreSetOnce(env: Env, s: Actor, acts: seq<Action>)
    requires Inv(env, s) && Legal(env, s, acts)
    ensures !After(env, s, acts).crashed
    ensures |s.promises| <= |After(env, s, acts).promises|
    ensures forall t :: 0 <= t < |s.promises| && s.promises[t].Ready? ==>
              After(env, s, acts).promises[t] == s.promises[t]
    decreases |acts|
  {
    if acts != [] {
      StepKeeps(env, s, acts[0]);
      PromisesStep(env, s, acts[0]);
      PromisesAreSetOnce(env, Apply(env, s, acts[0]), acts[1..]);
    }
  }

  /** Runs only extend the log. */
  lemma {:induction false} LogGrows(env: Env, s: Actor, acts: seq<Action>)
    requires Legal(env, s, acts)
    ensures s.log <= After(env, s, acts).log
    decreases |acts|
  {
    if acts != [] {
      LogGrows(env, Apply(env, s, acts[0]), acts[1..]);
    }
  }

  /** A timed-out RPC changes nothing but its caller: the request is still queued or in hand, and
      in every later run it is answered at its place, with the fold's output, without a crash. */
  lemma TimeoutIsHarmless(env: Env, s: Actor, c: nat, acts: seq<Action>)
    requires Inv(env, s) && Enabled(s, Timeout(c))
    requires Legal(env, Apply(env, s, Timeout(c)), acts)
    ensures var pos, t := s.clients[c].pos, s.clients[c].ticket;
            var end := After(env, Apply(env, s, Timeout(c)), acts);
            && Apply(env, s, Timeout(c)).(clients := s.clients) == s
            && s.answered <= pos < |s.log| && s.log <= end.log && !end.crashed && t < |end.promises|
            && end.promises[t] == if pos < end.answered then Ready(OutputAt(env, end.log, pos)) else Pending
  {
    var s' := Apply(env, s, Timeout(c));
    assert HasTicket(s.log, s.clients[c].pos, s.clients[c].ticket);
    StepKeeps(env, s, Timeout(c));
    RunKeeps(env, s', acts);
    LogGrows(env, s', acts);
    assert HasTicket(After(env, s', acts).log, s.clients[c].pos, s.clients[c].ticket);
  }

  // ---- The stop protocol ------------------------------------------------------------------------

  /** Only an internal Stop stops: an external command of the same number does not. */
  lemma {:induction false} FoldStopsAtInternalStop(env: Env, log: seq<Message>)
    ensures Fold(env, log).stopped <==> exists i :: 0 <= i < |log| && IsStop(log[i])
  {
    if log != [] {
      var front := log[..|log| - 1];
      FoldStopsAtInternalStop(env, front);
      assert forall i :: 0 <= i < |front| ==> front[i] == log[i];
      if i :| 0 <= i < |log| && IsStop(log[i]) {
        if i < |front| { assert IsStop(front[i]); }
      }
    }
  }

  ghost predicate IsFirstStop(log: seq<Message>, f: nat) {
    f < |log| && IsStop(log[f]) && forall i :: 0 <= i < f ==> !IsStop(log[i])
  }

  /** In every reachable state no message after the first internal Stop has been handled; once the
      loop has ended, the handled messages are exactly those up to that Stop, the promises fulfilled
      are exactly theirs, and `on_finish` has run exactly once. */
  lemma LoopEndsAtFirstStop(env: Env, clients: nat, acts: seq<Action>, s: Actor)
    requires Reached(env, clients, acts, s)
    ensures forall f :: 0 <= f && IsFirstStop(s.log, f) ==> s.handled <= f + 1
    ensures s.loop.Finished? ==>
              && s.handled > 0 && IsFirstStop(s.log, s.handled - 1) && s.answered == s.handled
              && (forall i, t :: HasTicket(s.log, i, t) && 0 <= t < |s.promises| ==>
                    (s.promises[t].Ready? <==> i < s.handled))
    ensures s.finishes == if s.loop.Finished? then 1 else 0
  {
    InitInv(env, clients);
    RunKeeps(env, Init(env, clients), acts);
  }

  /** The controller leaves `stop()` only after `on_finish`, and the Stop it sent is the very
      message that ended the loop. */
  lemma StopReturnsAfterFinish(env: Env, clients: nat, acts: seq<Action>, s: Actor)
    requires Reached(env, clients, acts, s)
    ensures s.joined ==> s.finishes == 1
    ensures forall c :: 0 <= c < |s.clients| && s.clients[c].Joining? ==>
              && s.clients[c].pos == s.handled - 1 && IsFirstStop(s.log, s.clients[c].pos)
              && (Enabled(s, Join(c)) ==> s.finishes == 1)
  {
    InitInv(env, clients);
    RunKeeps(env, Init(env, clients), acts);
  }

  // ---- Progress ---------------------------------------------------------------------------------

  /** The loop's next step, spurious wakeups apart; a loop that waits or has ended has none. */
  function NextOfLoop(loop: LoopPc): Option<Action> {
    match loop
    case AtGuard => Some(Guard)
    case Receiving => Some(LockLoop)
    case Checking => Some(Check)
    case Popping => Some(Pop)
    case Parking => Some(Park)
    case Handling(_) => Some(Process)
    case Answering(_, _) => Some(Answer)
    case Finishing => Some(Finish)
    case Parked => None
    case Finished => None
  }

  ghost predicate LoopCanStep(s: Actor) {
    NextOfLoop(s.loop).Some? && Enabled(s, NextOfLoop(s.loop).value)
  }

  function LoopRank(loop: LoopPc): nat {
    match loop
    case Handling(_) => 7
    case Answering(_, _) => 6
    case AtGuard => 5
    case Receiving => 4
    case Checking => 3
    case Popping => 2
    case Parking => 1
    case Finishing => 1
    case Parked => 0
    case Finished => 0
  }

  function LoopWork(s: Actor): nat {
    6 * |s.queue| + LoopRank(s.loop)
  }

  /** Some client is inside send and can go on. */
  ghost predicate SenderCanStep(s: Actor) {
    exists c :: 0 <= c < |s.clients| && (Enabled(s, Push(c)) || Enabled(s, Notify(c)) || Enabled(s, Unlock(c)))
  }

  lemma HolderCanSend(s: Actor)
    requires Exclusive(s) && s.owner.Some? && s.owner.value.ByClient?
    ensures SenderCanStep(s)
  {
    var c := s.owner.value.c;
    assert ClientHolds(s.clients[c]);
    assert Enabled(s, Push(c)) || Enabled(s, Notify(c)) || Enabled(s, Unlock(c));
  }

  lemma AnswerNeverBlocks(env: Env, s: Actor)
    requires Counted(env, s) && TicketsDistinct(s)
    ensures s.loop.Answering? ==> Enabled(s, Answer)
  {
    if s.loop.Answering? && s.loop.msg.ticket.Some? {
      assert HasTicket(s.log, s.answered, s.loop.msg.ticket.value);
    }
  }

  lemma StuckLoopIsDone(env: Env, s: Actor)
    requires Inv(env, s) && !LoopCanStep(s)
    ensures s.loop.Finished? || s.answered == |s.log| || SenderCanStep(s)
  {
    AnswerNeverBlocks(env, s);
    if s.owner.Some? && s.owner.value.ByClient? {
      HolderCanSend(s);
    }
  }

  lemma LoopStepLowersWork(env: Env, s: Actor)
    requires LoopCanStep(s)
    ensures LoopWork(Apply(env, s, NextOfLoop(s.loop).value)) < LoopWork(s)
  {
  }

  /** The loop works off its queue: each of its steps lowers a measure that only a push, a
      notification or a spurious wakeup raises; and it can only be stuck after it ended, with every
      message answered, or while a sender inside the queue can step. */
  lemma LoopMakesProgress(env: Env, s: Actor, a: Action)
    requires Inv(env, s)
    ensures Enabled(s, a) && !a.Push? && !a.Notify? && !a.SpuriousWake? ==>
              && LoopWork(Apply(env, s, a)) <= LoopWork(s)
              && (!IsClientStep(a) ==> LoopWork(Apply(env, s, a)) < LoopWork(s))
    ensures !LoopCanStep(s) ==> s.loop.Finished? || s.answered == |s.log| || SenderCanStep(s)
  {
    if Enabled(s, a) && !IsClientStep(a) && !a.SpuriousWake? {
      assert NextOfLoop(s.loop) == Some(a);
      LoopStepLowersWork(env, s);
    }
    if !LoopCanStep(s) {
      StuckLoopIsDone(env, s);
    }
  }

  // ---- Calls behind the Stop ----------------------------------------------------------------------

  /** When neither the loop nor a sender can go on, a waiting caller can return exactly when no
      internal Stop stands before its message: whoever is enqueued behind the Stop has no answer. */
  lemma WaitingReturnsIffNoStopBefore(env: Env, clients: nat, acts: seq<Action>, s: Actor, c: nat)
    requires Reached(env, clients, acts, s) && !LoopCanStep(s) && !SenderCanStep(s)
    requires c < |s.clients| && s.clients[c].Waiting?
    ensures s.clients[c].pos < |s.log|
    ensures Enabled(s, Return(c)) <==> forall i :: 0 <= i < s.clients[c].pos ==> !IsStop(s.log[i])
  {
    InitInv(env, clients);
    RunKeeps(env, Init(env, clients), acts);
    RpcIsABarrier(env, clients, acts, s, c);
    StuckLoopIsDone(env, s);
  }

  /** The caller of an RPC without timeout waits for its reply. */
  predicate WaitsForever(s: Actor, c: int) {
    0 <= c < |s.clients| && s.clients[c].Waiting? && s.clients[c].mode == Rpc(true)
  }

  /** Once the loop has ended nothing is handled any more: an RPC without timeout that is unanswered
      then waits in every later run. */
  lemma {:induction false} NothingHandledAfterFinish(env: Env, s: Actor, acts: seq<Action>)
    requires Inv(env, s) && Legal(env, s, acts) && s.loop.Finished?
    ensures var end := After(env, s, acts);
            && end.loop.Finished? && end.core == s.core && end.answered == s.answered && end.finishes == s.finishes
            && |end.clients| == |s.clients|
            && (forall c :: 0 <= c < |s.clients| && WaitsForever(s, c) && s.answered <= s.clients[c].pos ==>
                  end.clients[c] == s.clients[c])
            && (forall c :: 0 <= c < |end.clients| && end.clients[c].Waiting? && s.answered <= end.clients[c].pos ==>
                  !Enabled(end, Return(c)))
    decreases |acts|
  {
    forall c | 0 <= c < |s.clients| && s.clients[c].Waiting? && s.answered <= s.clients[c].pos
      ensures !Enabled(s, Return(c))
    {
      assert HasTicket(s.log, s.clients[c].pos, s.clients[c].ticket);
    }
    if acts != [] {
      StepKeeps(env, s, acts[0]);
      FinishedStep(env, s, acts[0]);
      NothingHandledAfterFinish(env, Apply(env, s, acts[0]), acts[1..]);
    }
  }

  lemma FinishedStep(env: Env, s: Actor, a: Action)
    requires s.loop.Finished? && Enabled(s, a)
    ensures var s' := Apply(env, s, a);
            && s'.loop.Finished? && s'.core == s.core && s'.answered == s.answered && s'.finishes == s.finishes
            && |s'.clients| == |s.clients|
            && forall c :: 0 <= c < |s.clients| && WaitsForever(s, c) && !Enabled(s, Return(c)) ==>
                 s'.clients[c] == s.clients[c]
  {
  }

  ghost predicate Leads(env: Env, s: Actor, acts: seq<Action>, end: Actor) {
    Legal(env, s, acts) && After(env, s, acts) == end
  }

  lemma Prepend(env: Env, s: Actor, a: Action, acts: seq<Action>, end: Actor)
    requires Enabled(s, a) && Leads(env, Apply(env, s, a), acts, end)
    ensures Leads(env, s, [a] + acts, end)
  {
    assert ([a] + acts)[1..] == acts;
  }

  lemma {:induction false} Chain(env: Env, s: Actor, acts: seq<Action>, mid: Actor, more: seq<Action>, end: Actor)
    requires Leads(env, s, acts, mid) && Leads(env, mid, more, end)
    ensures Leads(env, s, acts + more, end)
    decreases |acts|
  {
    if acts == [] {
      assert acts + more == more;
    } else {
      assert acts + more == [acts[0]] + (acts[1..] + more);
      Chain(env, Apply(env, s, acts[0]), acts[1..], mid, more, end);
      Prepend(env, s, acts[0], acts[1..] + more, end);
    }
  }

  /** A message that wants a reply goes through the free queue while the loop is not waiting. */
  function SendingSteps(c: nat): seq<Action> {
    [LockClient(c), Push(c), Notify(c), Unlock(c)]
  }

  lemma SendLeads(env: Env, s: Actor, c: nat)
    requires c < |s.clients| && s.clients[c].Sending? && s.owner.None? && !s.loop.Parked?
    requires s.clients[c].msg.ticket.Some?
    ensures var msg, mode := s.clients[c].msg, s.clients[c].mode;
            Leads(env, s, SendingSteps(c), s.(queue := s.queue + [msg], log := s.log + [msg],
                  clients := s.clients[c := Waiting(msg.ticket.value, |s.log|, mode)]))
  {
    var msg, mode := s.clients[c].msg, s.clients[c].mode;
    var s1 := s.(owner := Some(ByClient(c)), clients := s.clients[c := Pushing(msg, mode)]);
    var s2 := s1.(queue := s.queue + [msg], log := s.log + [msg],
                  clients := s.clients[c := Notifying(msg, mode, |s.log|)]);
    var s3 := s2.(clients := s.clients[c := Unlocking(msg, mode, |s.log|)]);
    var s4 := s3.(owner := None, clients := s.clients[c := Waiting(msg.ticket.value, |s.log|, mode)]);
    assert Apply(env, s, LockClient(c)) == s1;
    assert Apply(env, s1, Push(c)) == s2;
    assert Apply(env, s2, Notify(c)) == s3;
    assert Apply(env, s3, Unlock(c)) == s4;
    Prepend(env, s3, Unlock(c), [], s4);
    Prepend(env, s2, Notify(c), [Unlock(c)], s4);
    Prepend(env, s1, Push(c), [Notify(c), Unlock(c)], s4);
    Prepend(env, s, LockClient(c), [Push(c), Notify(c), Unlock(c)], s4);
  }

  const RECEIVING: seq<Action> := [Guard, LockLoop, Check, Pop]
  const ENDING: seq<Action> := [Process, Answer, Guard, Finish]

  /** The loop, at its guard with a message queued and the mutex free, takes the message. */
  lemma ReceiveLeads(env: Env, s: Actor)
    requires s.loop.AtGuard? && s.owner.None? && s.queue != [] && !s.core.stopped
    ensures Leads(env, s, RECEIVING, s.(loop := Handling(s.queue[0]), queue := s.queue[1..], taken := s.taken + 1))
  {
    var s1 := s.(loop := Receiving);
    var s2 := s.(loop := Checking, owner := Some(ByLoop));
    var s3 := s2.(loop := Popping);
    var s4 := s.(loop := Handling(s.queue[0]), queue := s.queue[1..], taken := s.taken + 1);
    assert Apply(env, s, Guard) == s1;
    assert Apply(env, s1, LockLoop) == s2;
    assert Apply(env, s2, Check) == s3;
    assert Apply(env, s3, Pop) == s4;
    Prepend(env, s3, Pop, [], s4);
    Prepend(env, s2, Check, [Pop], s4);
    Prepend(env, s1, LockLoop, [Check, Pop], s4);
    Prepend(env, s, Guard, [LockLoop, Check, Pop], s4);
  }

  /** What handling a Stop with a pending promise makes of the state. */
  ghost function Stopped(env: Env, s: Actor): Actor
    requires s.loop.Handling? && s.loop.msg.ticket.Some? && s.loop.msg.ticket.value < |s.promises|
  {
    var (core, reply) := Handle(env, s.core, s.loop.msg, s.handled);
    s.(core := core, handled := s.handled + 1, answered := s.answered + 1,
       promises := s.promises[s.loop.msg.ticket.value := Ready(reply)], loop := Finished, finishes := s.finishes + 1)
  }

  lemma EndLeads(env: Env, s: Actor)
    requires s.loop.AtGuard? && s.core.stopped
    ensures Leads(env, s, [Guard, Finish], s.(loop := Finished, finishes := s.finishes + 1))
  {
    var s1 := s.(loop := Finishing);
    var s2 := s.(loop := Finished, finishes := s.finishes + 1);
    assert Apply(env, s, Guard) == s1;
    assert Apply(env, s1, Finish) == s2;
    Prepend(env, s1, Finish, [], s2);
    Prepend(env, s, Guard, [Finish], s2);
  }

  lemma StopLeads(env: Env, s: Actor)
    requires s.loop.Handling? && IsStop(s.loop.msg) && s.loop.msg.ticket.Some?
    requires s.loop.msg.ticket.value < |s.promises| && s.promises[s.loop.msg.ticket.value].Pending?
    ensures Leads(env, s, ENDING, Stopped(env, s))
  {
    var (core, reply) := Handle(env, s.core, s.loop.msg, s.handled);
    var s1 := s.(core := core, loop := Answering(s.loop.msg, reply), handled := s.handled + 1);
    var s2 := s1.(loop := AtGuard, answered := s.answered + 1,
                  promises := s.promises[s.loop.msg.ticket.value := Ready(reply)]);
    assert Apply(env, s, Process) == s1;
    assert Apply(env, s1, Answer) == s2;
    EndLeads(env, s2);
    Prepend(env, s1, Answer, [Guard, Finish], Stopped(env, s));
    Prepend(env, s, Process, [Answer, Guard, Finish], Stopped(env, s));
  }

  const STOP_MESSAGE := Message(true, Request("", STOP, 0), Some(0))

  /** Client 0 calls stop() and client 1 an RPC without timeout; the Stop is enqueued first. */
  function StopOvertakes(req: Request): seq<Action> {
    [Begin(0, StopCall, req)] + ([Begin(1, Rpc(true), req)] + (SendingSteps(0) + SendingSteps(1)))
  }

  function Overtaken(env: Env, req: Request): Actor {
    var log := [STOP_MESSAGE, Message(false, req, Some(1))];
    Init(env, 2).(queue := log, log := log, promises := [Pending, Pending],
                  clients := [Waiting(0, 0, StopCall), Waiting(1, 1, Rpc(true))])
  }

  lemma StopOvertakesLeads(env: Env, req: Request)
    ensures Leads(env, Init(env, 2), StopOvertakes(req), Overtaken(env, req))
  {
    var rpc := Message(false, req, Some(1));
    var s0 := Init(env, 2);
    var s1 := s0.(clients := [Sending(STOP_MESSAGE, StopCall), Idle], promises := [Pending]);
    var s2 := s1.(clients := [Sending(STOP_MESSAGE, StopCall), Sending(rpc, Rpc(true))],
                  promises := [Pending, Pending]);
    var s3 := s2.(clients := [Waiting(0, 0, StopCall), Sending(rpc, Rpc(true))],
                  queue := [STOP_MESSAGE], log := [STOP_MESSAGE]);
    var s4 := Overtaken(env, req);
    assert Apply(env, s0, Begin(0, StopCall, req)) == s1;
    assert Apply(env, s1, Begin(1, Rpc(true), req)) == s2;
    SendLeads(env, s2, 0);
    SendLeads(env, s3, 1);
    assert Leads(env, s2, SendingSteps(0), s3);
    assert Leads(env, s3, SendingSteps(1), s4);
    Chain(env, s2, SendingSteps(0), s3, SendingSteps(1), s4);
    Prepend(env, s1, Begin(1, Rpc(true), req), SendingSteps(0) + SendingSteps(1), s4);
    Prepend(env, s0, Begin(0, StopCall, req),
            [Begin(1, Rpc(true), req)] + (SendingSteps(0) + SendingSteps(1)), s4);
  }

  /** Then the loop handles the Stop and ends. */
  function BehindStop(req: Request): seq<Action> {
    StopOvertakes(req) + RECEIVING + ENDING
  }

  lemma BehindStopLeads(env: Env, req: Request) returns (s: Actor)
    ensures Leads(env, Init(env, 2), BehindStop(req), s)
    ensures s.loop.Finished? && s.answered == 1 && s.clients == [Waiting(0, 0, StopCall), Waiting(1, 1, Rpc(true))]
  {
    StopOvertakesLeads(env, req);
    var s1 := Overtaken(env, req);
    ReceiveLeads(env, s1);
    var s2 := s1.(loop := Handling(s1.queue[0]), queue := s1.queue[1..], taken := s1.taken + 1);
    StopLeads(env, s2);
    Chain(env, Init(env, 2), StopOvertakes(req), s1, RECEIVING, s2);
    s := Stopped(env, s2);
    Chain(env, Init(env, 2), StopOvertakes(req) + RECEIVING, s2, ENDING, s);
  }

  /** A concrete run of every task with two clients: one stops it, the other's RPC without timeout is
      enqueued behind the Stop, and no continuation lets that caller return. */
  lemma RpcBehindStopHangs(env: Env, req: Request, more: seq<Action>)
    ensures Legal(env, Init(env, 2), BehindStop(req))
    ensures var s := After(env, Init(env, 2), BehindStop(req));
            && WaitsForever(s, 1)
            && (Legal(env, s, more) ==>
                  WaitsForever(After(env, s, more), 1) && !Enabled(After(env, s, more), Return(1)))
  {
    var s := BehindStopLeads(env, req);
    InitInv(env, 2);
    RunKeeps(env, Init(env, 2), BehindStop(req));
    if Legal(env, s, more) {
      NothingHandledAfterFinish(env, s, more);
      assert WaitsForever(s, 1);
    }
  }
}
