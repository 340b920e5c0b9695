/** The name router of include/Task/EventTaskManager.hpp: registrations under an exclusive lock, sends
    and RPCs under a shared one that an RPC keeps until its reply. */
module EventTaskManagers {
  import opened EventTypes

  type Name = string
  type TaskId = nat

  datatype Change = Bind(name: Name, task: TaskId) | Unbind(name: Name)

  /** What took effect, in order. A send is recorded even if its name was unknown. */
  datatype Event = Changed(change: Change) | Sent(name: Name, req: Request)

  datatype Delivery = Delivery(task: TaskId, req: Request)

  datatype Pc =
    | Outside
    | WriteEnter(change: Change) | Writing(change: Change) | Written
    | ReadEnter(name: Name, req: Request, rpc: bool)
    | Finding(name: Name, req: Request, rpc: bool)   // shared lock held, before find_or_throw
    | AwaitingReply                                  // RPC enqueued on the task, shared lock held
    | ReadDone(found: bool)                          // shared lock held, about to unlock

  predicate HoldsShared(pc: Pc) {
    pc.Finding? || pc.AwaitingReply? || pc.ReadDone?
  }

  predicate HoldsExclusive(pc: Pc) {
    pc.Writing? || pc.Written?
  }

  /** A send or RPC by thread `t` has ended; if its name was unknown, with the exception. */
  datatype Return = Return(t: nat, found: bool)

  datatype Manager = Manager(tasks: map<Name, TaskId>, pcs: seq<Pc>, log: seq<Event>, delivered: seq<Delivery>,
                             results: seq<Return>)

  function Init(threads: nat): Manager {
    Manager(map[], seq(threads, _ => Outside), [], [], [])
  }

  datatype Action =
    | CallChange(t: nat, change: Change) | CallSend(t: nat, name: Name, req: Request, rpc: bool)
    | LockExclusive(t: nat) | LockShared(t: nat) | Unlock(t: nat)
    | Write(t: nat) | Route(t: nat) | ReplyOrTimeout(t: nat)

  predicate Enabled(s: Manager, a: Action) {
    && a.t < |s.pcs|
    && var pc := s.pcs[a.t];
       match a
       case CallChange(_, _) => pc.Outside?
       case CallSend(_, _, _, _) => pc.Outside?
       case LockExclusive(_) =>
         pc.WriteEnter? && forall u :: 0 <= u < |s.pcs| ==> !HoldsShared(s.pcs[u]) && !HoldsExclusive(s.pcs[u])
       case LockShared(_) => pc.ReadEnter? && forall u :: 0 <= u < |s.pcs| ==> !HoldsExclusive(s.pcs[u])
       case Unlock(_) => pc.Written? || pc.ReadDone?
       case Write(_) => pc.Writing?
       case Route(_) => pc.Finding?
       case ReplyOrTimeout(_) => pc.AwaitingReply?
  }

  function ApplyChange(tasks: map<Name, TaskId>, change: Change): map<Name, TaskId> {
    match change
    case Bind(name, task) => tasks[name := task]
    case Unbind(name) => tasks - {name}
  }

  function Apply(s: Manager, a: Action): Manager
    requires Enabled(s, a)
  {
    var t, pc := a.t, s.pcs[a.t];
    match a
    case CallChange(_, change) => s.(pcs := s.pcs[t := WriteEnter(change)])
    case CallSend(_, name, req, rpc) => s.(pcs := s.pcs[t := ReadEnter(name, req, rpc)])
    case LockExclusive(_) => s.(pcs := s.pcs[t := Writing(pc.change)])
    case LockShared(_) => s.(pcs := s.pcs[t := Finding(pc.name, pc.req, pc.rpc)])
    case Unlock(_) =>
      s.(pcs := s.pcs[t := Outside],
         results := if pc.ReadDone? then s.results + [Return(t, pc.found)] else s.results)
    case Write(_) =>
      s.(tasks := ApplyChange(s.tasks, pc.change), log := s.log + [Changed(pc.change)], pcs := s.pcs[t := Written])
    case Route(_) =>
      var sent := s.(log := s.log + [Sent(pc.name, pc.req)]);
      if pc.name !in s.tasks then sent.(pcs := s.pcs[t := ReadDone(false)])
      else sent.(delivered := s.delivered + [Delivery(s.tasks[pc.name], pc.req)],
                 pcs := s.pcs[t := if pc.rpc then AwaitingReply else ReadDone(true)])
    case ReplyOrTimeout(_) => s.(pcs := s.pcs[t := ReadDone(true)])
  }

  ghost predicate Legal(s: Manager, acts: seq<Action>)
    decreases |acts|
  {
    acts != [] ==> Enabled(s, acts[0]) && Legal(Apply(s, acts[0]), acts[1..])
  }

  ghost function After(s: Manager, acts: seq<Action>): Manager
    requires Legal(s, acts)
    decreases |acts|
  {
    if acts == [] then s else After(Apply(s, acts[0]), acts[1..])
  }

  // ---- The meaning of a log ----------------------------------------------------------------------

  /** The task a name means after a log: what the last change of that name said. */
  function Binding(log: seq<Event>, name: Name): Option<TaskId> {
    if log == [] then None
    else
      match log[|log| - 1]
      case Changed(Bind(n, task)) => if n == name then Some(task) else Binding(log[..|log| - 1], name)
      case Changed(Unbind(n)) => if n == name then None else Binding(log[..|log| - 1], name)
      case Sent(_, _) => Binding(log[..|log| - 1], name)
  }

  ghost predicate Names(event: Event, name: Name) {
    event.Changed? && event.change.name == name
  }

  /** Event `j` gave the name to the task and no later change named it. */
  ghost predicate IsLastChange(log: seq<Event>, name: Name, task: TaskId, j: int) {
    && 0 <= j < |log| && log[j] == Changed(Bind(name, task))
    && forall k :: j < k < |log| ==> !Names(log[k], name)
  }

  /** A name means a task exactly when some registration gave it and no later change named it. */
  lemma {:induction false} BindingIsTheLastChange(log: seq<Event>, name: Name, task: TaskId)
    ensures Binding(log, name) == Some(task) <==> exists j :: IsLastChange(log, name, task, j)
  {
    if log != [] {
      var front, last := log[..|log| - 1], log[|log| - 1];
      BindingIsTheLastChange(front, name, task);
      if Names(last, name) {
        assert last == Changed(Bind(name, task)) ==> IsLastChange(log, name, task, |log| - 1);
      } else {
        assert forall j :: 0 <= j < |front| ==> front[j] == log[j];
        if j :| IsLastChange(log, name, task, j) {
          assert IsLastChange(front, name, task, j);
        }
        if j :| IsLastChange(front, name, task, j) {
          assert IsLastChange(log, name, task, j);
        }
      }
    }
  }

  /** The projection of a log on a task: the sends whose name meant it at that point, in order. */
  function Projection(log: seq<Event>, task: TaskId): seq<Request> {
    if log == [] then []
    else
      var front, last := log[..|log| - 1], log[|log| - 1];
      Projection(front, task) + if last.Sent? && Binding(front, last.name) == Some(task) then [last.req] else []
  }

  function Received(delivered: seq<Delivery>, task: TaskId): seq<Request> {
    if delivered == [] then []
    else
      var front, last := delivered[..|delivered| - 1], delivered[|delivered| - 1];
      Received(front, task) + if last.task == task then [last.req] else []
  }

  // ---- Invariant ----------------------------------------------------------------------------------

  ghost predicate Locked(s: Manager) {
    forall t, u :: 0 <= t < |s.pcs| && 0 <= u < |s.pcs| && HoldsExclusive(s.pcs[t]) ==>
      !HoldsShared(s.pcs[u]) && (HoldsExclusive(s.pcs[u]) ==> t == u)
  }

  ghost predicate TableIsBinding(s: Manager) {
    forall name :: Binding(s.log, name) == if name in s.tasks then Some(s.tasks[name]) else None
  }

  ghost predicate Inv(s: Manager) {
    Locked(s) && TableIsBinding(s) && forall task :: Received(s.delivered, task) == Projection(s.log, task)
  }

  /** What one more event does to bindings and projections. */
  lemma Appended(log: seq<Event>, event: Event)
    ensures forall name :: Binding(log + [event], name)
              == if !Names(event, name) then Binding(log, name)
                 else if event.change.Bind? then Some(event.change.task) else None
    ensures forall task: TaskId :: Projection(log + [event], task)
              == Projection(log, task)
                 + if event.Sent? && Binding(log, event.name) == Some(task) then [event.req] else []
  {
    assert (log + [event])[..|log|] == log;
  }

  lemma WriteStep(s: Manager, t: nat)
    requires Inv(s) && Enabled(s, Write(t))
    ensures TableIsBinding(Apply(s, Write(t)))
    ensures forall task :: Projection(Apply(s, Write(t)).log, task) == Projection(s.log, task)
  {
    Appended(s.log, Changed(s.pcs[t].change));
    forall task ensures Projection(Apply(s, Write(t)).log, task) == Projection(s.log, task) {
      assert Projection(s.log, task) + [] == Projection(s.log, task);
    }
  }

  lemma Delivered(delivered: seq<Delivery>, more: Delivery, task: TaskId)
    ensures Received(delivered + [more], task)
      == Received(delivered, task) + if more.task == task then [more.req] else []
  {
    assert (delivered + [more])[..|delivered|] == delivered;
  }

  lemma RouteBindings(s: Manager, t: nat)
    requires TableIsBinding(s) && Enabled(s, Route(t))
    ensures TableIsBinding(Apply(s, Route(t)))
  {
    Appended(s.log, Sent(s.pcs[t].name, s.pcs[t].req));
  }

  lemma RouteTask(s: Manager, t: nat, task: TaskId)
    requires Inv(s) && Enabled(s, Route(t))
    ensures Received(Apply(s, Route(t)).delivered, task) == Projection(Apply(s, Route(t)).log, task)
  {
    var name, req := s.pcs[t].name, s.pcs[t].req;
    Appended(s.log, Sent(name, req));
    assert Binding(s.log, name) == if name in s.tasks then Some(s.tasks[name]) else None;
    assert Received(s.delivered, task) == Projection(s.log, task);
    if name in s.tasks {
      Delivered(s.delivered, Delivery(s.tasks[name], req), task);
    }
  }

  lemma RouteStep(s: Manager, t: nat)
    requires Inv(s) && Enabled(s, Route(t))
    ensures TableIsBinding(Apply(s, Route(t)))
    ensures forall task :: Received(Apply(s, Route(t)).delivered, task) == Projection(Apply(s, Route(t)).log, task)
  {
    RouteBindings(s, t);
    forall task ensures Received(Apply(s, Route(t)).delivered, task) == Projection(Apply(s, Route(t)).log, task) {
      RouteTask(s, t, task);
    }
  }

  lemma LockedStep(s: Manager, a: Action)
    requires Locked(s) && Enabled(s, a)
    ensures Locked(Apply(s, a))
  {
  }

  lemma StepKeeps(s: Manager, a: Action)
    requires Inv(s) && Enabled(s, a)
    ensures Inv(Apply(s, a))
  {
    LockedStep(s, a);
    if a.Write? {
      WriteStep(s, a.t);
    } else if a.Route? {
      RouteStep(s, a.t);
    }
  }

  lemma {:induction false} RunKeeps(s: Manager, acts: seq<Action>)
    requires Inv(s) && Legal(s, acts)
    ensures Inv(After(s, acts))
    decreases |acts|
  {
    if acts != [] {
      StepKeeps(s, acts[0]);
      RunKeeps(Apply(s, acts[0]), acts[1..]);
    }
  }

  // ---- Theorems -------------------------------------------------------------------------------------

  /** Routing is a projection: in every run each task has received exactly the sends whose name meant
      it when they took effect, in order; the table is the bindings the log gives; and no thread
      holds the exclusive lock while another is inside a send or an RPC. */
  lemma RoutingIsProjection(threads: nat, acts: seq<Action>)
    requires Legal(Init(threads), acts)
    ensures var s := After(Init(threads), acts);
            && (forall task :: Received(s.delivered, task) == Projection(s.log, task))
            && (forall name, task :: (name in s.tasks && s.tasks[name] == task) <==> Binding(s.log, name) == Some(task))
            && (forall t, u :: 0 <= t < |s.pcs| && 0 <= u < |s.pcs| ==>
                  HoldsExclusive(s.pcs[t]) ==> !HoldsShared(s.pcs[u]))
  {
    RunKeeps(Init(threads), acts);
    var s := After(Init(threads), acts);
    forall name, task ensures (name in s.tasks && s.tasks[name] == task) <==> Binding(s.log, name) == Some(task) {
      assert Binding(s.log, name) == if name in s.tasks then Some(s.tasks[name]) else None;
    }
  }

  /** Rebinding affects only later sends: what a task received from a log is a prefix of what it
      receives from any longer log. */
  lemma {:induction false} LaterEventsOnlyAppend(log: seq<Event>, more: seq<Event>, task: TaskId)
    ensures Projection(log, task) <= Projection(log + more, task)
  {
    if more == [] {
      assert log + more == log;
    } else {
      var front := more[..|more| - 1];
      LaterEventsOnlyAppend(log, front, task);
      assert (log + more)[..|log + more| - 1] == log + front;
    }
  }

  ghost predicate StaysOutstanding(s: Manager, acts: seq<Action>, t: nat)
    requires Legal(s, acts)
    decreases |acts|
  {
    && t < |s.pcs| && s.pcs[t].AwaitingReply?
    && (acts != [] ==> StaysOutstanding(Apply(s, acts[0]), acts[1..], t))
  }

  /** No registration changes while an RPC routed through the manager is outstanding: through any run
      in which the RPC stays unanswered the table is constant, and no thread can even take the
      exclusive lock - a handler that registers on its own manager waits for ever. */
  lemma {:induction false} NoChangeDuringRpc(s: Manager, acts: seq<Action>, t: nat, u: nat)
    requires Inv(s) && Legal(s, acts) && StaysOutstanding(s, acts, t)
    ensures After(s, acts).tasks == s.tasks
    ensures !Enabled(After(s, acts), LockExclusive(u)) && !Enabled(After(s, acts), Write(u))
    decreases |acts|
  {
    assert HoldsShared(s.pcs[t]);
    if acts != [] {
      StepKeeps(s, acts[0]);
      NoChangeDuringRpc(Apply(s, acts[0]), acts[1..], t, u);
    }
  }

  // ---- The object -------------------------------------------------------------------------------------

  class EventTaskManager {
    var tasks: map<Name, TaskId>
    ghost var world: Manager

    ghost predicate Valid()
      reads this
    {
      Inv(world) && world.tasks == tasks
    }

    constructor (ghost threads: nat)
      ensures Valid() && world == Init(threads)
    {
      tasks, world := map[], Init(threads);
    }

    /** `register_task` past its null test, or `unregister_task`, under the exclusive lock. */
    method Change(ghost t: nat, change: Change)
      requires Valid() && Enabled(world, Write(t)) && world.pcs[t].change == change
      modifies this
      ensures Valid() && world == Apply(old(world), Write(t))
      ensures change.Bind? ==> change.name in tasks && tasks[change.name] == change.task
      ensures change.Unbind? ==> change.name !in tasks
      ensures forall name :: name != change.name ==>
                (name in tasks <==> name in old(tasks)) && (name in tasks ==> tasks[name] == old(tasks)[name])
      ensures forall u :: 0 <= u < |world.pcs| ==> !world.pcs[u].AwaitingReply?
    {
      assert HoldsExclusive(world.pcs[t]);
      match change {
        case Bind(name, task) => tasks := tasks[name := task];
        case Unbind(name) => tasks := tasks - {name};
      }
      StepKeeps(world, Write(t));
      world := Apply(world, Write(t));
      assert HoldsExclusive(world.pcs[t]);
      assert forall u :: 0 <= u < |world.pcs| && world.pcs[u].AwaitingReply? ==> HoldsShared(world.pcs[u]);
    }

    /** `find_or_throw` and the send, under the shared lock: the request reaches the task its name
        means by the log so far, and an unknown name is reported and delivers nothing. */
    method FindAndSend(ghost t: nat, name: Name, req: Request) returns (target: Option<TaskId>)
      requires Valid() && Enabled(world, Route(t)) && world.pcs[t].name == name && world.pcs[t].req == req
      modifies this`world
      ensures Valid() && world == Apply(old(world), Route(t))
      ensures target == Binding(old(world).log, name)
      ensures world.delivered == old(world).delivered + if target.Some? then [Delivery(target.value, req)] else []
    {
      assert Binding(world.log, name) == if name in world.tasks then Some(world.tasks[name]) else None;
      target := if name in tasks then Some(tasks[name]) else None;
      StepKeeps(world, Route(t));
      world := Apply(world, Route(t));
    }
  }
}
