/** What the calls of a task's clients come to, told from the calls' own arguments: `send_event`,
    `rpc_event`, `start` and `stop`, from the call to its return. */
module EventTaskCalls {
  import opened EventTypes
  import opened StateMachines
  import opened MachineLaws
  import opened EventTasks
  import opened EventTaskLaws

  /** Client `c` made a call; a run is the record of its calls. */
  datatype ClientCall = ClientCall(c: nat, mode: Mode, req: Request)

  function CallsOf(acts: seq<Action>, c: nat): seq<ClientCall> {
    if acts == [] then []
    else
      var last := acts[|acts| - 1];
      CallsOf(acts[..|acts| - 1], c) + if last.Begin? && last.c == c then [ClientCall(c, last.mode, last.req)] else []
  }

  /** The call a client is in, or made last. */
  function Current(acts: seq<Action>, c: nat): Option<ClientCall> {
    if acts == [] then None
    else
      var last := acts[|acts| - 1];
      if last.Begin? && last.c == c then Some(ClientCall(c, last.mode, last.req)) else Current(acts[..|acts| - 1], c)
  }

  /** The calls in the order in which they pushed their messages. */
  function Pushed(acts: seq<Action>): seq<ClientCall> {
    if acts == [] then []
    else
      var front, last := acts[..|acts| - 1], acts[|acts| - 1];
      Pushed(front) + if last.Push? && Current(front, last.c).Some? then [Current(front, last.c).value] else []
  }

  function By(calls: seq<ClientCall>, c: nat): seq<ClientCall> {
    if calls == [] then []
    else
      var last := calls[|calls| - 1];
      By(calls[..|calls| - 1], c) + if last.c == c then [last] else []
  }

  /** How many of a run's calls want a reply. */
  function Promised(acts: seq<Action>): nat {
    if acts == [] then 0
    else
      var last := acts[|acts| - 1];
      Promised(acts[..|acts| - 1]) + if last.Begin? && !last.mode.Fire? then 1 else 0
  }

  /** The message that a call puts into the queue. */
  predicate Carries(msg: Message, call: ClientCall) {
    match call.mode
    case Fire => !msg.internal && msg.req == call.req && msg.ticket.None?
    case Rpc(_) => !msg.internal && msg.req == call.req && msg.ticket.Some?
    case StartCall => msg.internal && msg.req.command == 0 && msg.ticket.Some?
    case StopCall => msg.internal && msg.req.command == 1 && msg.ticket.Some?
  }

  /** Where the last message that client `c` pushed stands in the log. */
  function LastPushed(acts: seq<Action>, c: nat): Option<nat> {
    if acts == [] then None
    else
      var front, last := acts[..|acts| - 1], acts[|acts| - 1];
      if last == Push(c) && Current(front, c).Some? then Some(|Pushed(front)|) else LastPushed(front, c)
  }

  /** Message `i` is the last one that client `c` pushed. */
  ghost predicate IsLastOf(acts: seq<Action>, c: nat, i: int) {
    && 0 <= i < |Pushed(acts)| && Pushed(acts)[i].c == c
    && forall k :: i < k < |Pushed(acts)| ==> Pushed(acts)[k].c != c
  }

  /** The client's last call timed out. */
  predicate TimedOut(acts: seq<Action>, c: nat) {
    acts != [] &&
    var last := acts[|acts| - 1];
    if last.Timeout? && last.c == c then true
    else if last.Begin? && last.c == c then false
    else TimedOut(acts[..|acts| - 1], c)
  }

  // ---- Invariant ----------------------------------------------------------------------------------

  /** Every log entry carries the call that pushed it. */
  ghost predicate Logged(acts: seq<Action>, s: Actor) {
    && |Pushed(acts)| == |s.log| && |s.promises| == Promised(acts)
    && forall i :: 0 <= i < |s.log| ==> Carries(s.log[i], Pushed(acts)[i])
  }

  /** A client's calls are pushed in its own order, each once, all but the one not yet pushed. */
  ghost predicate InOrder(acts: seq<Action>, s: Actor, c: nat)
    requires c < |s.clients|
  {
    if Unsent(s.clients[c])
    then Current(acts, c).Some? && By(Pushed(acts), c) + [Current(acts, c).value] == CallsOf(acts, c)
    else By(Pushed(acts), c) == CallsOf(acts, c)
  }

  /** A client inside a call is at the place of that call. */
  ghost predicate InCall(acts: seq<Action>, s: Actor, c: nat)
    requires c < |s.clients|
  {
    var call := Current(acts, c);
    match s.clients[c]
    case Idle => call.Some? ==> Ended(acts, s, c, call.value)
    case Sending(msg, mode) => call.Some? && mode == call.value.mode && Carries(msg, call.value)
    case Pushing(msg, mode) => call.Some? && mode == call.value.mode && Carries(msg, call.value)
    case Notifying(msg, mode, pos) =>
      call.Some? && mode == call.value.mode && Carries(msg, call.value) && LastPushed(acts, c) == Some(pos)
    case Unlocking(msg, mode, pos) =>
      call.Some? && mode == call.value.mode && Carries(msg, call.value) && LastPushed(acts, c) == Some(pos)
    case Waiting(_, pos, mode) =>
      call.Some? && mode == call.value.mode && LastPushed(acts, c) == Some(pos)
    case Joining(pos) => call.Some? && call.value.mode.StopCall?
  }

  ghost predicate LastAnswered(acts: seq<Action>, s: Actor, c: nat) {
    LastPushed(acts, c).Some? && LastPushed(acts, c).value < s.answered
  }

  /** What has happened once a call has returned. */
  ghost predicate Ended(acts: seq<Action>, s: Actor, c: nat, call: ClientCall) {
    match call.mode
    case Fire => true
    case Rpc(forever) => (!forever && TimedOut(acts, c)) || LastAnswered(acts, s, c)
    case StartCall => LastAnswered(acts, s, c)
    case StopCall => s.joined
  }

  ghost predicate Told(acts: seq<Action>, s: Actor) {
    && Logged(acts, s)
    && forall c: nat :: c < |s.clients| ==> InOrder(acts, s, c) && InCall(acts, s, c)
  }

  // ---- Preservation -----------------------------------------------------------------------------

  /** What one more step does to the record. */
  lemma Grow(acts: seq<Action>, a: Action, c: nat)
    ensures CallsOf(acts + [a], c)
      == if a.Begin? && a.c == c then CallsOf(acts, c) + [ClientCall(c, a.mode, a.req)] else CallsOf(acts, c)
    ensures Pushed(acts + [a])
      == if a.Push? && Current(acts, a.c).Some? then Pushed(acts) + [Current(acts, a.c).value] else Pushed(acts)
    ensures Current(acts + [a], c)
      == if a.Begin? && a.c == c then Some(ClientCall(c, a.mode, a.req)) else Current(acts, c)
    ensures LastPushed(acts + [a], c)
      == if a == Push(c) && Current(acts, c).Some? then Some(|Pushed(acts)|) else LastPushed(acts, c)
    ensures TimedOut(acts + [a], c)
      <==> if a.Timeout? && a.c == c then true else if a.Begin? && a.c == c then false else TimedOut(acts, c)
    ensures Promised(acts + [a]) == Promised(acts) + if a.Begin? && !a.mode.Fire? then 1 else 0
  {
    assert (acts + [a])[..|acts|] == acts;
  }

  lemma ByGrows(calls: seq<ClientCall>, call: ClientCall, c: nat)
    ensures By(calls + [call], c) == if call.c == c then By(calls, c) + [call] else By(calls, c)
  {
    assert (calls + [call])[..|calls|] == calls;
  }

  lemma {:induction false} CurrentIsOwn(acts: seq<Action>, c: nat)
    ensures Current(acts, c).Some? ==> Current(acts, c).value.c == c
  {
    if acts != [] {
      CurrentIsOwn(acts[..|acts| - 1], c);
    }
  }

  lemma LoggedStep(env: Env, acts: seq<Action>, s: Actor, a: Action)
    requires Told(acts, s) && Enabled(s, a)
    ensures Logged(acts + [a], Apply(env, s, a))
  {
    Grow(acts, a, 0);
    if a.Push? {
      assert InCall(acts, s, a.c);
      assert Apply(env, s, a).log == s.log + [s.clients[a.c].msg];
    } else {
      assert Apply(env, s, a).log == s.log;
    }
  }

  /** Another thread's step leaves a client where it is. */
  lemma OthersLeaveClient(env: Env, s: Actor, a: Action, c: nat)
    requires Enabled(s, a) && c < |s.clients| && !(IsClientStep(a) && a.c == c)
    ensures Apply(env, s, a).clients[c] == s.clients[c]
  {
  }

  lemma AnsweredOnlyGrows(env: Env, s: Actor, a: Action)
    requires Enabled(s, a)
    ensures s.answered <= Apply(env, s, a).answered && (s.joined ==> Apply(env, s, a).joined)
    ensures |Apply(env, s, a).clients| == |s.clients|
  {
  }

  lemma PushOrder(env: Env, acts: seq<Action>, s: Actor, p: nat, c: nat)
    requires Enabled(s, Push(p)) && Current(acts, p).Some? && c < |s.clients| && InOrder(acts, s, c)
    ensures c < |Apply(env, s, Push(p)).clients| && InOrder(acts + [Push(p)], Apply(env, s, Push(p)), c)
  {
    Grow(acts, Push(p), c);
    CurrentIsOwn(acts, p);
    ByGrows(Pushed(acts), Current(acts, p).value, c);
  }

  lemma BeginOrder(env: Env, acts: seq<Action>, s: Actor, a: Action)
    requires Enabled(s, a) && a.Begin? && InOrder(acts, s, a.c)
    ensures InOrder(acts + [a], Apply(env, s, a), a.c)
  {
    Grow(acts, a, a.c);
    assert Apply(env, s, a).clients[a.c].Sending?;
  }

  lemma OwnOrder(env: Env, acts: seq<Action>, s: Actor, a: Action)
    requires Enabled(s, a) && IsClientStep(a) && !a.Push? && !a.Begin? && InOrder(acts, s, a.c)
    ensures InOrder(acts + [a], Apply(env, s, a), a.c)
  {
    Grow(acts, a, a.c);
    assert Unsent(Apply(env, s, a).clients[a.c]) <==> Unsent(s.clients[a.c]);
  }

  lemma OthersOrder(env: Env, acts: seq<Action>, s: Actor, a: Action, c: nat)
    requires Enabled(s, a) && !a.Push? && c < |s.clients| && !(IsClientStep(a) && a.c == c) && InOrder(acts, s, c)
    ensures c < |Apply(env, s, a).clients| && InOrder(acts + [a], Apply(env, s, a), c)
  {
    Grow(acts, a, c);
    AnsweredOnlyGrows(env, s, a);
    OthersLeaveClient(env, s, a, c);
  }

  lemma InOrderStep(env: Env, acts: seq<Action>, s: Actor, a: Action, c: nat)
    requires Told(acts, s) && Enabled(s, a) && c < |s.clients|
    ensures c < |Apply(env, s, a).clients| && InOrder(acts + [a], Apply(env, s, a), c)
  {
    assert InOrder(acts, s, c);
    if a.Push? {
      assert InCall(acts, s, a.c);
      PushOrder(env, acts, s, a.c, c);
    } else if IsClientStep(a) && a.c == c {
      AnsweredOnlyGrows(env, s, a);
      if a.Begin? { BeginOrder(env, acts, s, a); } else { OwnOrder(env, acts, s, a); }
    } else {
      OthersOrder(env, acts, s, a, c);
    }
  }

  lemma OthersKeepCall(env: Env, acts: seq<Action>, s: Actor, a: Action, c: nat)
    requires Enabled(s, a) && c < |s.clients| && !(IsClientStep(a) && a.c == c) && InCall(acts, s, c)
    ensures c < |Apply(env, s, a).clients| && InCall(acts + [a], Apply(env, s, a), c)
  {
    Grow(acts, a, c);
    OthersLeaveClient(env, s, a, c);
    AnsweredOnlyGrows(env, s, a);
  }

  lemma PushKeepsCall(env: Env, acts: seq<Action>, s: Actor, c: nat)
    requires Enabled(s, Push(c)) && Logged(acts, s) && InCall(acts, s, c)
    ensures InCall(acts + [Push(c)], Apply(env, s, Push(c)), c)
  {
    Grow(acts, Push(c), c);
  }

  lemma ReturnKeepsCall(env: Env, acts: seq<Action>, s: Actor, c: nat)
    requires Enabled(s, Return(c)) && InCall(acts, s, c)
    requires s.clients[c].pos < s.answered
    ensures InCall(acts + [Return(c)], Apply(env, s, Return(c)), c)
  {
    Grow(acts, Return(c), c);
  }

  lemma SentKeepsCall(env: Env, acts: seq<Action>, s: Actor, a: Action)
    requires (a.Notify? || a.Unlock?) && Enabled(s, a) && InCall(acts, s, a.c)
    ensures InCall(acts + [a], Apply(env, s, a), a.c)
  {
    Grow(acts, a, a.c);
  }

  lemma BeginKeepsCall(env: Env, acts: seq<Action>, s: Actor, a: Action)
    requires (a.Begin? || a.LockClient?) && Enabled(s, a) && InCall(acts, s, a.c)
    ensures InCall(acts + [a], Apply(env, s, a), a.c)
  {
    Grow(acts, a, a.c);
  }

  lemma TimeoutKeepsCall(env: Env, acts: seq<Action>, s: Actor, c: nat)
    requires Enabled(s, Timeout(c)) && InCall(acts, s, c)
    ensures InCall(acts + [Timeout(c)], Apply(env, s, Timeout(c)), c)
  {
    Grow(acts, Timeout(c), c);
    assert Apply(env, s, Timeout(c)).clients[c] == Idle;
  }

  lemma JoinKeepsCall(env: Env, acts: seq<Action>, s: Actor, c: nat)
    requires Enabled(s, Join(c)) && InCall(acts, s, c)
    ensures InCall(acts + [Join(c)], Apply(env, s, Join(c)), c)
  {
    Grow(acts, Join(c), c);
    assert Apply(env, s, Join(c)).clients[c] == Idle;
  }

  lemma ReturnMeansAnswered(env: Env, s: Actor, c: nat)
    requires ClientsKnown(s) && Fulfilled(env, s) && Enabled(s, Return(c))
    ensures s.clients[c].pos < s.answered
  {
    assert HasTicket(s.log, s.clients[c].pos, s.clients[c].ticket);
  }

  lemma CallStep(env: Env, acts: seq<Action>, s: Actor, a: Action, c: nat)
    requires Inv(env, s) && Told(acts, s) && Enabled(s, a) && c < |s.clients|
    ensures c < |Apply(env, s, a).clients| && InCall(acts + [a], Apply(env, s, a), c)
  {
    AnsweredOnlyGrows(env, s, a);
    assert InCall(acts, s, c);
    if !IsClientStep(a) || a.c != c {
      OthersKeepCall(env, acts, s, a, c);
    } else if a.Push? {
      PushKeepsCall(env, acts, s, c);
    } else if a.Return? {
      ReturnMeansAnswered(env, s, c);
      ReturnKeepsCall(env, acts, s, c);
    } else if a.Notify? || a.Unlock? {
      SentKeepsCall(env, acts, s, a);
    } else if a.Begin? || a.LockClient? {
      BeginKeepsCall(env, acts, s, a);
    } else if a.Timeout? {
      TimeoutKeepsCall(env, acts, s, c);
    } else {
      JoinKeepsCall(env, acts, s, c);
    }
  }

  lemma ToldStep(env: Env, acts: seq<Action>, s: Actor, a: Action)
    requires Inv(env, s) && Told(acts, s) && Enabled(s, a)
    ensures Told(acts + [a], Apply(env, s, a))
  {
    LoggedStep(env, acts, s, a);
    AnsweredOnlyGrows(env, s, a);
    forall c: nat | c < |s.clients|
      ensures InOrder(acts + [a], Apply(env, s, a), c) && InCall(acts + [a], Apply(env, s, a), c)
    {
      InOrderStep(env, acts, s, a, c);
      CallStep(env, acts, s, a, c);
    }
  }

  lemma InitIsTold(env: Env, clients: nat)
    ensures Told([], Init(env, clients)) && |Init(env, clients).clients| == clients
  {
  }

  lemma NextIsTold(env: Env, acts: seq<Action>, s: Actor, a: Action)
    requires Inv(env, s) && Told(acts, s) && Enabled(s, a)
    ensures Told(acts + [a], Apply(env, s, a)) && Inv(env, Apply(env, s, a))
    ensures |Apply(env, s, a).clients| == |s.clients|
  {
    ToldStep(env, acts, s, a);
    StepKeeps(env, s, a);
    AnsweredOnlyGrows(env, s, a);
  }

  /** What holds of an initial record and is kept by every step holds of every run. */
  lemma {:induction false} RunInduction(
    env: Env, holds: (seq<Action>, Actor) -> bool, done: seq<Action>, s: Actor, acts: seq<Action>)
    requires holds(done, s) && Legal(env, s, acts)
    requires forall d, t, a :: holds(d, t) && Enabled(t, a) ==> holds(d + [a], Apply(env, t, a))
    ensures holds(done + acts, After(env, s, acts))
    decreases |acts|
  {
    if acts == [] {
      assert done + acts == done;
    } else {
      RunInduction(env, holds, done + [acts[0]], Apply(env, s, acts[0]), acts[1..]);
      assert done + [acts[0]] + acts[1..] == done + acts;
    }
  }

  lemma EveryRunIsTold(env: Env, clients: nat, acts: seq<Action>)
    requires Legal(env, Init(env, clients), acts)
    ensures Told(acts, After(env, Init(env, clients), acts)) && Inv(env, After(env, Init(env, clients), acts))
    ensures |After(env, Init(env, clients), acts).clients| == clients
  {
    var holds := (d: seq<Action>, t: Actor) => Told(d, t) && Inv(env, t) && |t.clients| == clients;
    InitInv(env, clients);
    InitIsTold(env, clients);
    forall d, t, a | holds(d, t) && Enabled(t, a) ensures holds(d + [a], Apply(env, t, a)) {
      NextIsTold(env, d, t, a);
    }
    RunInduction(env, holds, [], Init(env, clients), acts);
    assert [] + acts == acts;
  }

  // ---- Theorems -----------------------------------------------------------------------------------

  /** Every message in the log comes from its own call and carries what that call was given: an event
      is external, with the caller's request, and wants a reply exactly if it is an RPC; `start` and
      `stop` send the internal commands 0 and 1. Each client's calls stand in the log in the order it
      made them, each once, except one that has not been pushed yet; and there are as many promises as
      calls that want a reply. */
  lemma EveryMessageIsItsCall(env: Env, clients: nat, acts: seq<Action>, s: Actor)
    requires Reached(env, clients, acts, s)
    ensures |Pushed(acts)| == |s.log| && |s.promises| == Promised(acts)
    ensures forall i :: 0 <= i < |s.log| ==>
              var msg, call := s.log[i], Pushed(acts)[i];
              match call.mode
              case Fire => !msg.internal && msg.req == call.req && msg.ticket.None?
              case Rpc(_) => !msg.internal && msg.req == call.req && msg.ticket.Some?
              case StartCall => msg.internal && msg.req.command == 0 && msg.ticket.Some?
              case StopCall => msg.internal && msg.req.command == 1 && msg.ticket.Some?
    ensures forall c: nat :: c < clients ==>
              c < |s.clients|
              && CallsOf(acts, c) == By(Pushed(acts), c) + if Unsent(s.clients[c]) && Current(acts, c).Some?
                                                           then [Current(acts, c).value] else []
  {
    EveryRunIsTold(env, clients, acts);
    forall c: nat | c < clients
      ensures CallsOf(acts, c) == By(Pushed(acts), c) + if Unsent(s.clients[c]) && Current(acts, c).Some?
                                                        then [Current(acts, c).value] else []
    {
      assert InOrder(acts, s, c);
    }
  }

  lemma {:induction false} LastPushedMeans(acts: seq<Action>, c: nat)
    ensures LastPushed(acts, c).Some? ==> IsLastOf(acts, c, LastPushed(acts, c).value)
  {
    if acts != [] {
      var front, last := acts[..|acts| - 1], acts[|acts| - 1];
      LastPushedMeans(front, c);
      if last.Push? {
        CurrentIsOwn(front, last.c);
      }
    }
  }

  /** What has happened when a client's last call has returned: an RPC was answered or, if it had a
      time-out, may have timed out; `start` was answered; `stop` has joined the thread, after `on_finish`. */
  lemma ReturnedCallsAreDone(env: Env, clients: nat, acts: seq<Action>, s: Actor, c: nat)
    requires Reached(env, clients, acts, s) && c < clients
    requires c < |s.clients| && s.clients[c].Idle? && Current(acts, c).Some?
    ensures var call := Current(acts, c).value;
            match call.mode
            case Fire => true
            case Rpc(forever) => (!forever && TimedOut(acts, c)) || exists i :: i < s.answered && IsLastOf(acts, c, i)
            case StartCall => exists i :: i < s.answered && IsLastOf(acts, c, i)
            case StopCall => s.joined && s.loop.Finished? && s.finishes == 1
  {
    EveryRunIsTold(env, clients, acts);
    assert InCall(acts, s, c);
    LastPushedMeans(acts, c);
  }

  /** For a table-driven task every event moves the machine by one Mealy step on the caller's own
      request, found in the state left by the messages before it, and an RPC's promise gets that
      step's output; `start` and `stop` move nothing. */
  lemma EventIsOneMealyStep(env: Env, clients: nat, acts: seq<Action>, s: Actor, i: nat)
    requires TableDriven(env) && Reached(env, clients, acts, s) && i < s.handled
    ensures i < |s.log| && i < |Pushed(acts)|
    ensures var call, at, next := Pushed(acts)[i], StateAt(env, s.log, i), MealyState(env, s.log[..i + 1]);
            if call.mode.StartCall? || call.mode.StopCall? || at.None? then next == at
            else next == Some(Mealy(env.machine.table, at.value, call.req, env.oracle, i).0)
    ensures var call, at := Pushed(acts)[i], StateAt(env, s.log, i);
            i < s.answered && call.mode.Rpc? ==>
              && s.log[i].ticket.Some? && s.log[i].ticket.value < |s.promises|
              && s.promises[s.log[i].ticket.value]
                 == Ready(if at.None? then Failure(NotInitialized)
                          else Mealy(env.machine.table, at.value, call.req, env.oracle, i).1)
  {
    EveryMessageIsItsCall(env, clients, acts, s);
    EveryRunIsTheMealyMachine(env, clients, acts, s);
    assert s.log[..i + 1][..i] == s.log[..i];
    if s.log[i].ticket.Some? {
      assert HasTicket(s.log, i, s.log[i].ticket.value);
    }
  }

  /** An answered `stop` was told a value; an answered `start` a value, or exactly what `on_start` threw. */
  lemma InternalCallsAreAnswered(env: Env, clients: nat, acts: seq<Action>, s: Actor, i: nat)
    requires Reached(env, clients, acts, s) && i < s.answered
    ensures i < |s.log| && i < |Pushed(acts)|
    ensures !Pushed(acts)[i].mode.Fire? ==> s.log[i].ticket.Some? && s.log[i].ticket.value < |s.promises|
    ensures Pushed(acts)[i].mode.StopCall? ==> s.promises[s.log[i].ticket.value] == Ready(Value(true))
    ensures Pushed(acts)[i].mode.StartCall? ==>
              s.promises[s.log[i].ticket.value]
              == match env.onStart(i)
                 case None => Ready(Value(true))
                 case Some(fault) => Ready(Failure(Escaped(fault)))
  {
    EveryMessageIsItsCall(env, clients, acts, s);
    EveryRunIsTheFold(env, clients, acts, s);
    if s.log[i].ticket.Some? {
      assert HasTicket(s.log, i, s.log[i].ticket.value);
    }
  }

  /** Only a call of `stop` stops the loop: no event does, whatever its command. */
  lemma OnlyStopStops(env: Env, clients: nat, acts: seq<Action>, s: Actor)
    requires Reached(env, clients, acts, s)
    ensures s.handled <= |Pushed(acts)|
    ensures s.core.stopped <==> exists i :: 0 <= i < s.handled && Pushed(acts)[i].mode.StopCall?
  {
    EveryMessageIsItsCall(env, clients, acts, s);
    EveryRunIsTheFold(env, clients, acts, s);
    var front := s.log[..s.handled];
    FoldStopsAtInternalStop(env, front);
    forall i | 0 <= i < s.handled ensures IsStop(front[i]) <==> Pushed(acts)[i].mode.StopCall? {
      assert front[i] == s.log[i];
    }
    if i :| 0 <= i < s.handled && Pushed(acts)[i].mode.StopCall? {
      assert IsStop(front[i]);
    }
  }

  /** No caller is stuck: outside a client can call (a second stop apart); inside it has a step of its own,
      unless it wants the mutex that another thread holds, waits for an answer that has not been given,
      or joins a loop that has not ended; and a waiting RPC with a time-out can time out. */
  lemma CallersGoOn(env: Env, s: Actor, c: nat)
    requires Inv(env, s) && c < |s.clients|
    ensures s.clients[c].Idle? ==> forall mode: Mode, req ::
              mode.StopCall? || Enabled(s, Begin(c, mode, req))
    ensures s.clients[c].Idle? && !s.joined && !StopInProgress(s) ==> forall req :: Enabled(s, Begin(c, StopCall, req))
    ensures match s.clients[c]
            case Idle => true
            case Sending(_, _) => Enabled(s, LockClient(c)) || s.owner.Some?
            case Pushing(_, _) => Enabled(s, Push(c))
            case Notifying(_, _, _) => Enabled(s, Notify(c))
            case Unlocking(_, _, _) => Enabled(s, Unlock(c))
            case Waiting(_, pos, mode) =>
              && (Enabled(s, Return(c)) <==> pos < s.answered)
              && (Enabled(s, Timeout(c)) <==> mode == Rpc(false) && s.answered <= pos)
            case Joining(_) => Enabled(s, Join(c)) <==> s.loop.Finished?
  {
    if s.clients[c].Waiting? {
      assert HasTicket(s.log, s.clients[c].pos, s.clients[c].ticket);
    }
  }
}
