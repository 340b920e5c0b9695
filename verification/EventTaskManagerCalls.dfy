/** What the calls on a manager come to, told from the calls' own arguments and the run's steps. */
module EventTaskManagerCalls {
  import opened EventTypes
  import opened EventTaskManagers

  /** The call thread `t` is in, or made last. */
  function Call(acts: seq<Action>, t: nat): Option<Action> {
    if acts == [] then None
    else
      var last := acts[|acts| - 1];
      if (last.CallChange? || last.CallSend?) && last.t == t then Some(last) else Call(acts[..|acts| - 1], t)
  }

  /** The steps of thread `t` since it made that call. */
  function Since(acts: seq<Action>, t: nat): seq<Action> {
    if acts == [] then []
    else
      var front, last := acts[..|acts| - 1], acts[|acts| - 1];
      if last.t != t then Since(front, t)
      else if last.CallChange? || last.CallSend? then []
      else Since(front, t) + [last]
  }

  /** The event that a step stands for: the change, or the request and its name, of the thread's call. */
  function EventOf(acts: seq<Action>, a: Action): seq<Event> {
    match (a, Call(acts, a.t))
    case (Write(_), Some(CallChange(_, change))) => [Changed(change)]
    case (Route(_), Some(CallSend(_, name, req, _))) => [Sent(name, req)]
    case _ => []
  }

  function TookEffect(acts: seq<Action>): seq<Event> {
    if acts == [] then []
    else TookEffect(acts[..|acts| - 1]) + EventOf(acts[..|acts| - 1], acts[|acts| - 1])
  }

  /** Whether the name of thread `t`'s call meant a task when the thread looked it up. */
  function Found(acts: seq<Action>, t: nat): bool {
    if acts == [] then false
    else
      var front, last := acts[..|acts| - 1], acts[|acts| - 1];
      if last != Route(t) then Found(front, t)
      else Call(front, t).Some? && Call(front, t).value.CallSend?
           && Binding(TookEffect(front), Call(front, t).value.name).Some?
  }

  /** The steps of a whole call. An RPC waits for its reply if its name was found. */
  function WholeCall(call: Action, found: bool): seq<Action> {
    if call.CallChange? then [LockExclusive(call.t), Write(call.t), Unlock(call.t)]
    else if call.CallSend? && call.rpc && found
    then [LockShared(call.t), Route(call.t), ReplyOrTimeout(call.t), Unlock(call.t)]
    else [LockShared(call.t), Route(call.t), Unlock(call.t)]
  }

  ghost predicate InCall(acts: seq<Action>, s: Manager, t: nat)
    requires t < |s.pcs|
  {
    var call, steps := Call(acts, t), Since(acts, t);
    match s.pcs[t]
    case Outside => call.Some? ==> call.value.t == t && steps == WholeCall(call.value, Found(acts, t))
    case WriteEnter(change) => call == Some(CallChange(t, change)) && steps == []
    case Writing(change) => call == Some(CallChange(t, change)) && steps == [LockExclusive(t)]
    case Written => call.Some? && call.value.CallChange? && call.value.t == t && steps == [LockExclusive(t), Write(t)]
    case ReadEnter(name, req, rpc) => call == Some(CallSend(t, name, req, rpc)) && steps == []
    case Finding(name, req, rpc) => call == Some(CallSend(t, name, req, rpc)) && steps == [LockShared(t)]
    case AwaitingReply =>
      && call.Some? && call.value.CallSend? && call.value.t == t && call.value.rpc && Found(acts, t)
      && steps == [LockShared(t), Route(t)]
    case ReadDone(found) =>
      && call.Some? && call.value.CallSend? && call.value.t == t && found == Found(acts, t)
      && steps + [Unlock(t)] == WholeCall(call.value, found)
  }

  ghost predicate Told(acts: seq<Action>, s: Manager) {
    s.log == TookEffect(acts) && forall t: nat :: t < |s.pcs| ==> InCall(acts, s, t)
  }

  lemma Grow(acts: seq<Action>, a: Action, t: nat)
    ensures Call(acts + [a], t) == if (a.CallChange? || a.CallSend?) && a.t == t then Some(a) else Call(acts, t)
    ensures Since(acts + [a], t)
      == if a.t != t then Since(acts, t) else if a.CallChange? || a.CallSend? then [] else Since(acts, t) + [a]
    ensures TookEffect(acts + [a]) == TookEffect(acts) + EventOf(acts, a)
    ensures Found(acts + [a], t)
      == if a != Route(t) then Found(acts, t)
         else Call(acts, t).Some? && Call(acts, t).value.CallSend?
              && Binding(TookEffect(acts), Call(acts, t).value.name).Some?
  {
    assert (acts + [a])[..|acts|] == acts;
  }

  lemma OthersKeepCall(acts: seq<Action>, s: Manager, a: Action, t: nat)
    requires Enabled(s, a) && t < |s.pcs| && InCall(acts, s, t) && a.t != t
    ensures t < |Apply(s, a).pcs| && InCall(acts + [a], Apply(s, a), t)
  {
    Grow(acts, a, t);
    assert Apply(s, a).pcs[t] == s.pcs[t];
  }

  lemma RouteKeepsCall(acts: seq<Action>, s: Manager, t: nat)
    requires Enabled(s, Route(t)) && InCall(acts, s, t) && TableIsBinding(s) && s.log == TookEffect(acts)
    ensures t < |Apply(s, Route(t)).pcs| && InCall(acts + [Route(t)], Apply(s, Route(t)), t)
  {
    Grow(acts, Route(t), t);
    assert Binding(s.log, s.pcs[t].name).Some? <==> s.pcs[t].name in s.tasks;
  }

  lemma WriterKeepsCall(acts: seq<Action>, s: Manager, a: Action)
    requires Enabled(s, a) && InCall(acts, s, a.t) && (a.CallChange? || a.LockExclusive? || a.Write?)
    ensures a.t < |Apply(s, a).pcs| && InCall(acts + [a], Apply(s, a), a.t)
  {
    Grow(acts, a, a.t);
  }

  lemma ReaderKeepsCall(acts: seq<Action>, s: Manager, a: Action)
    requires Enabled(s, a) && InCall(acts, s, a.t) && (a.CallSend? || a.LockShared? || a.ReplyOrTimeout?)
    ensures a.t < |Apply(s, a).pcs| && InCall(acts + [a], Apply(s, a), a.t)
  {
    Grow(acts, a, a.t);
  }

  lemma UnlockKeepsCall(acts: seq<Action>, s: Manager, t: nat)
    requires Enabled(s, Unlock(t)) && InCall(acts, s, t)
    ensures t < |Apply(s, Unlock(t)).pcs| && InCall(acts + [Unlock(t)], Apply(s, Unlock(t)), t)
  {
    Grow(acts, Unlock(t), t);
  }

  lemma OwnKeepsCall(acts: seq<Action>, s: Manager, a: Action)
    requires Enabled(s, a) && InCall(acts, s, a.t) && TableIsBinding(s) && s.log == TookEffect(acts)
    ensures a.t < |Apply(s, a).pcs| && InCall(acts + [a], Apply(s, a), a.t)
  {
    match a
    case Route(t) => RouteKeepsCall(acts, s, t);
    case Unlock(t) => UnlockKeepsCall(acts, s, t);
    case CallChange(_, _) => WriterKeepsCall(acts, s, a);
    case LockExclusive(_) => WriterKeepsCall(acts, s, a);
    case Write(_) => WriterKeepsCall(acts, s, a);
    case _ => ReaderKeepsCall(acts, s, a);
  }

  lemma LogStep(acts: seq<Action>, s: Manager, a: Action)
    requires Enabled(s, a) && InCall(acts, s, a.t) && s.log == TookEffect(acts)
    ensures Apply(s, a).log == TookEffect(acts + [a])
  {
    Grow(acts, a, a.t);
  }

  lemma ToldStep(acts: seq<Action>, s: Manager, a: Action)
    requires Inv(s) && Told(acts, s) && Enabled(s, a)
    ensures Told(acts + [a], Apply(s, a)) && Inv(Apply(s, a)) && |Apply(s, a).pcs| == |s.pcs|
  {
    assert InCall(acts, s, a.t);
    LogStep(acts, s, a);
    forall t: nat | t < |s.pcs| ensures t < |Apply(s, a).pcs| && InCall(acts + [a], Apply(s, a), t) {
      assert InCall(acts, s, t);
      if a.t == t { OwnKeepsCall(acts, s, a); } else { OthersKeepCall(acts, s, a, t); }
    }
    StepKeeps(s, a);
  }

  /** What holds of an initial record and is kept by every step holds of every run. */
  lemma {:induction false} RunInduction(
    holds: (seq<Action>, Manager) -> bool, done: seq<Action>, s: Manager, acts: seq<Action>)
    requires holds(done, s) && Legal(s, acts)
    requires forall d, t, a :: holds(d, t) && Enabled(t, a) ==> holds(d + [a], Apply(t, a))
    ensures holds(done + acts, After(s, acts))
    decreases |acts|
  {
    if acts == [] {
      assert done + acts == done;
    } else {
      RunInduction(holds, done + [acts[0]], Apply(s, acts[0]), acts[1..]);
      assert done + [acts[0]] + acts[1..] == done + acts;
    }
  }

  lemma EveryRunIsTold(threads: nat, acts: seq<Action>)
    requires Legal(Init(threads), acts)
    ensures Told(acts, After(Init(threads), acts)) && Inv(After(Init(threads), acts))
    ensures |After(Init(threads), acts).pcs| == threads
  {
    var holds := (d: seq<Action>, t: Manager) => Told(d, t) && Inv(t) && |t.pcs| == threads;
    forall d, t, a | holds(d, t) && Enabled(t, a) ensures holds(d + [a], Apply(t, a)) {
      ToldStep(d, t, a);
    }
    assert Told([], Init(threads)) && Inv(Init(threads));
    RunInduction(holds, [], Init(threads), acts);
    assert [] + acts == acts;
  }

  lemma {:induction false} LastStep(s: Manager, acts: seq<Action>, a: Action)
    requires Legal(s, acts + [a])
    ensures Legal(s, acts) && Enabled(After(s, acts), a) && After(s, acts + [a]) == Apply(After(s, acts), a)
    decreases |acts|
  {
    if acts == [] {
      assert (acts + [a])[1..] == [];
    } else {
      assert (acts + [a])[1..] == acts[1..] + [a];
      LastStep(Apply(s, acts[0]), acts[1..], a);
    }
  }

  // ---- Theorems -----------------------------------------------------------------------------------

  /** In every run each task has received exactly the callers' own requests, in the order in which they
      took effect, of those calls whose name meant it by the registrations that had taken effect. */
  lemma RoutingIsProjectionOfCalls(threads: nat, acts: seq<Action>, task: TaskId)
    requires Legal(Init(threads), acts)
    ensures Received(After(Init(threads), acts).delivered, task) == Projection(TookEffect(acts), task)
  {
    EveryRunIsTold(threads, acts);
    RoutingIsProjection(threads, acts);
  }

  /** A call that has returned was whole: a registration wrote once under the exclusive lock; a send
      looked its name up once under the shared lock; an RPC whose name was found has besides had its
      reply or time-out before it gave the lock up. */
  lemma CallsAreWhole(threads: nat, acts: seq<Action>, t: nat)
    requires Legal(Init(threads), acts) && t < threads
    requires t < |After(Init(threads), acts).pcs| && After(Init(threads), acts).pcs[t].Outside? && Call(acts, t).Some?
    ensures var call := Call(acts, t).value;
            if call.CallChange? then Since(acts, t) == [LockExclusive(t), Write(t), Unlock(t)]
            else Since(acts, t) == if call.CallSend? && call.rpc && Found(acts, t)
                                   then [LockShared(t), Route(t), ReplyOrTimeout(t), Unlock(t)]
                                   else [LockShared(t), Route(t), Unlock(t)]
  {
    EveryRunIsTold(threads, acts);
    assert InCall(acts, After(Init(threads), acts), t);
  }

  /** A send or RPC reports an unknown name exactly if its name meant no task when it looked it up. */
  lemma ReturnsWhatItFound(threads: nat, acts: seq<Action>, t: nat)
    requires Legal(Init(threads), acts + [Unlock(t)]) && Call(acts, t).Some? && Call(acts, t).value.CallSend?
    ensures Legal(Init(threads), acts)
    ensures After(Init(threads), acts + [Unlock(t)]).results
      == After(Init(threads), acts).results + [Return(t, Found(acts, t))]
  {
    LastStep(Init(threads), acts, Unlock(t));
    EveryRunIsTold(threads, acts);
    assert InCall(acts, After(Init(threads), acts), t);
  }

  lemma {:induction false} Outstanding(s: Manager, acts: seq<Action>, t: nat)
    requires Legal(s, acts) && t < |s.pcs| && s.pcs[t].AwaitingReply? && ReplyOrTimeout(t) !in acts
    ensures StaysOutstanding(s, acts, t)
    decreases |acts|
  {
    if acts != [] {
      assert acts[0] in acts && forall a :: a in acts[1..] ==> a in acts;
      Outstanding(Apply(s, acts[0]), acts[1..], t);
    }
  }

  /** From the moment an RPC of thread `t` was routed to a task, and until its reply or time-out, the table
      does not change and no thread can take the exclusive lock, whatever else the run does. */
  lemma NoChangeWhileUnanswered(threads: nat, acts: seq<Action>, more: seq<Action>, t: nat, u: nat)
    requires Legal(Init(threads), acts) && t < threads
    requires Call(acts, t).Some? && Call(acts, t).value.CallSend? && Call(acts, t).value.rpc
    requires Since(acts, t) == [LockShared(t), Route(t)] && Found(acts, t)
    requires Legal(After(Init(threads), acts), more) && ReplyOrTimeout(t) !in more
    ensures var s, end := After(Init(threads), acts), After(After(Init(threads), acts), more);
            end.tasks == s.tasks && !Enabled(end, LockExclusive(u)) && !Enabled(end, Write(u))
  {
    EveryRunIsTold(threads, acts);
    var s := After(Init(threads), acts);
    assert InCall(acts, s, t);
    assert s.pcs[t].ReadDone? ==> [LockShared(t), Route(t)] + [Unlock(t)]
                                  != [LockShared(t), Route(t), ReplyOrTimeout(t), Unlock(t)];
    Outstanding(s, more, t);
    NoChangeDuringRpc(s, more, t, u);
  }

  /** Nobody is stuck: outside a thread can make any call; inside it has a step of its own, unless a
      writer has to wait for a lock holder or a reader for a writer; an RPC can always end. */
  lemma ThreadsGoOn(s: Manager, t: nat)
    requires t < |s.pcs|
    ensures s.pcs[t].Outside? ==> forall change :: Enabled(s, CallChange(t, change))
    ensures s.pcs[t].Outside? ==> forall name, req, rpc :: Enabled(s, CallSend(t, name, req, rpc))
    ensures s.pcs[t].WriteEnter? ==>
              (Enabled(s, LockExclusive(t)) <==>
                 forall u :: 0 <= u < |s.pcs| ==> !HoldsShared(s.pcs[u]) && !HoldsExclusive(s.pcs[u]))
    ensures s.pcs[t].ReadEnter? ==>
              (Enabled(s, LockShared(t)) <==> forall u :: 0 <= u < |s.pcs| ==> !HoldsExclusive(s.pcs[u]))
    ensures HoldsShared(s.pcs[t]) || HoldsExclusive(s.pcs[t]) ==> exists a: Action :: a.t == t && Enabled(s, a)
  {
    match s.pcs[t]
    case Writing(_) => assert Enabled(s, Write(t));
    case Written => assert Enabled(s, Unlock(t));
    case Finding(_, _, _) => assert Enabled(s, Route(t));
    case AwaitingReply => assert Enabled(s, ReplyOrTimeout(t));
    case ReadDone(_) => assert Enabled(s, Unlock(t));
    case _ =>
  }
}
