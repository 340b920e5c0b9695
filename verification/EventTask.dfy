/** The actor of include/Task/EventTaskBase.hpp over its locking queue: any number of clients send
    fire-and-forget and RPC messages, one loop thread receives and handles them. */
module EventTasks {
  import opened EventTypes
  import opened StateMachines
  import opened MachineLaws

  const START: Command := 0
  const STOP: Command := 1

  /** `ticket` names the promise shared by message and sender, if a reply is wanted. */
  datatype Message = Message(internal: bool, req: Request, ticket: Option<nat>)

  predicate IsStop(msg: Message) {
    msg.internal && msg.req.command == STOP
  }

  /** The machine as constructed, and all user code: handlers, `on_start`, and the states that other
      threads make the machine enter (`init` in the builder's `start`, `set_state`) before each turn. */
  datatype Env = Env(machine: Machine, oracle: Oracle, onStart: nat -> Option<Fault>, entered: nat -> seq<State>)

  datatype Core = Core(machine: Machine, stopped: bool)

  /** One turn of the loop body: the state it leaves and the value or exception it replies. */
  function Handle(env: Env, before: Core, msg: Message, turn: nat): (Core, Reply) {
    var core := before.(machine := Enter(before.machine, env.entered(turn)));
    if !msg.internal then
      var (machine, reply) := Publish(core.machine, msg.req.command, msg.req, env.oracle, turn);
      (core.(machine := machine), reply)
    else if msg.req.command == START then
      match env.onStart(turn)
      case None => (core, Value(true))
      case Some(fault) => (core, Failure(Escaped(fault)))
    else if msg.req.command == STOP then (core.(stopped := true), Value(true))
    else (core, Value(true))
  }

  /** The sequential meaning of a message log. */
  function Fold(env: Env, log: seq<Message>): Core {
    if log == [] then Core(env.machine, false)
    else Handle(env, Fold(env, log[..|log| - 1]), log[|log| - 1], |log| - 1).0
  }

  /** The reply the sequential meaning gives to the message at a position. */
  function OutputAt(env: Env, log: seq<Message>, i: nat): Reply
    requires i < |log|
  {
    Handle(env, Fold(env, log[..i]), log[i], i).1
  }

  // ---- The concurrent system ------------------------------------------------------------------

  datatype Promise = Pending | Ready(reply: Reply)

  datatype LoopPc =
    | AtGuard                                   // before `while (!stopped_)`
    | Receiving                                 // inside `receive()`, wants the mutex
    | Checking                                  // holds it, about to evaluate the predicate
    | Popping                                   // predicate true, holds it
    | Parking                                   // predicate false, holds it, about to wait
    | Parked                                    // waiting
    | Handling(msg: Message)                    // message popped, not yet processed
    | Answering(msg: Message, reply: Reply)     // processed, promise not yet set
    | Finishing                                 // loop left, before `on_finish_()`
    | Finished

  datatype Mode = Fire | Rpc(forever: bool) | StartCall | StopCall

  /** `pos` is where the client's message stands in the log. */
  datatype ClientPc =
    | Idle
    | Sending(msg: Message, mode: Mode)                // inside `send()`, wants the mutex
    | Pushing(msg: Message, mode: Mode)                // holds it, before the push
    | Notifying(msg: Message, mode: Mode, pos: nat)    // pushed, holds it, before the notification
    | Unlocking(msg: Message, mode: Mode, pos: nat)    // notified, holds it
    | Waiting(ticket: nat, pos: nat, mode: Mode)
    | Joining(pos: nat)

  datatype Holder = ByLoop | ByClient(c: nat)

  /** `log` records every enqueued message; `taken`, `handled` and `answered` count the messages
      popped, processed and replied to. `crashed` records a promise set twice. */
  datatype Actor = Actor(
    queue: seq<Message>, owner: Option<Holder>, core: Core, loop: LoopPc, promises: seq<Promise>,
    clients: seq<ClientPc>, joined: bool, crashed: bool, finishes: nat,
    log: seq<Message>, taken: nat, handled: nat, answered: nat)

  function Init(env: Env, clients: nat): Actor {
    Actor([], None, Core(env.machine, false), AtGuard, [], seq(clients, i => Idle), false, false, 0, [], 0, 0, 0)
  }

  datatype Action =
    | Begin(c: nat, mode: Mode, req: Request)   // construct the Sender and its message
    | LockClient(c: nat) | Push(c: nat) | Notify(c: nat) | Unlock(c: nat)
    | Return(c: nat)                            // `future.get()`
    | Timeout(c: nat)
    | Join(c: nat)                              // `thread_.join()` in stop()
    | Guard | LockLoop | Check | Park | SpuriousWake | Pop | Process | Answer | Finish

  predicate StopInProgress(s: Actor) {
    exists c :: 0 <= c < |s.clients| && (s.clients[c].Joining? || (!s.clients[c].Idle? && s.clients[c].mode.StopCall?))
  }

  predicate Enabled(s: Actor, a: Action) {
    match a
    case Begin(c, mode, _) =>
      c < |s.clients| && s.clients[c].Idle? && (mode.StopCall? ==> !s.joined && !StopInProgress(s))
    case LockClient(c) => c < |s.clients| && s.clients[c].Sending? && s.owner.None?
    case Push(c) => c < |s.clients| && s.clients[c].Pushing?
    case Notify(c) => c < |s.clients| && s.clients[c].Notifying?
    case Unlock(c) => c < |s.clients| && s.clients[c].Unlocking?
    case Return(c) =>
      && c < |s.clients| && s.clients[c].Waiting?
      && s.clients[c].ticket < |s.promises| && s.promises[s.clients[c].ticket].Ready?
    case Timeout(c) =>
      && c < |s.clients| && s.clients[c].Waiting? && s.clients[c].mode == Rpc(false)
      && s.clients[c].ticket < |s.promises| && s.promises[s.clients[c].ticket].Pending?
    case Join(c) => c < |s.clients| && s.clients[c].Joining? && s.loop.Finished?
    case Guard => s.loop.AtGuard?
    case LockLoop => s.loop.Receiving? && s.owner.None?
    case Check => s.loop.Checking?
    case Park => s.loop.Parking?
    case SpuriousWake => s.loop.Parked?
    case Pop => s.loop.Popping? && s.queue != []
    case Process => s.loop.Handling?
    case Answer => s.loop.Answering? && (s.loop.msg.ticket.Some? ==> s.loop.msg.ticket.value < |s.promises|)
    case Finish => s.loop.Finishing?
  }

  /** The message a call constructs. */
  function MessageOf(mode: Mode, req: Request, ticket: nat): Message {
    match mode
    case Fire => Message(false, req, None)
    case Rpc(_) => Message(false, req, Some(ticket))
    case StartCall => Message(true, Request("", START, 0), Some(ticket))
    case StopCall => Message(true, Request("", STOP, 0), Some(ticket))
  }

  function Apply(env: Env, s: Actor, a: Action): Actor
    requires Enabled(s, a)
  {
    match a
    case Begin(c, mode, req) =>
      s.(clients := s.clients[c := Sending(MessageOf(mode, req, |s.promises|), mode)],
         promises := if mode.Fire? then s.promises else s.promises + [Pending])
    case LockClient(c) =>
      s.(owner := Some(ByClient(c)), clients := s.clients[c := Pushing(s.clients[c].msg, s.clients[c].mode)])
    case Push(c) =>
      var msg := s.clients[c].msg;
      s.(queue := s.queue + [msg], log := s.log + [msg],
         clients := s.clients[c := Notifying(msg, s.clients[c].mode, |s.log|)])
    case Notify(c) =>
      s.(loop := if s.loop.Parked? then Receiving else s.loop,
         clients := s.clients[c := Unlocking(s.clients[c].msg, s.clients[c].mode, s.clients[c].pos)])
    case Unlock(c) =>
      var msg := s.clients[c].msg;
      s.(owner := None,
         clients := s.clients[c := if msg.ticket.None? then Idle
                                   else Waiting(msg.ticket.value, s.clients[c].pos, s.clients[c].mode)])
    case Return(c) =>
      s.(clients := s.clients[c := if s.clients[c].mode.StopCall? then Joining(s.clients[c].pos) else Idle])
    case Timeout(c) => s.(clients := s.clients[c := Idle])
    case Join(c) => s.(clients := s.clients[c := Idle], joined := true)
    case Guard => s.(loop := if s.core.stopped then Finishing else Receiving)
    case LockLoop => s.(owner := Some(ByLoop), loop := Checking)
    case Check => s.(loop := if s.queue != [] then Popping else Parking)
    case Park => s.(owner := None, loop := Parked)
    case SpuriousWake => s.(loop := Receiving)
    case Pop => s.(owner := None, loop := Handling(s.queue[0]), queue := s.queue[1..], taken := s.taken + 1)
    case Process =>
      var (core, reply) := Handle(env, s.core, s.loop.msg, s.handled);
      s.(core := core, loop := Answering(s.loop.msg, reply), handled := s.handled + 1)
    case Answer =>
      var done := s.(loop := AtGuard, answered := s.answered + 1);
      (match s.loop.msg.ticket
       case None => done
       case Some(t) =>
         if s.promises[t].Pending? then done.(promises := s.promises[t := Ready(s.loop.reply)])
         else done.(crashed := true))
    case Finish => s.(loop := Finished, finishes := s.finishes + 1)
  }

  ghost predicate Legal(env: Env, s: Actor, acts: seq<Action>)
    decreases |acts|
  {
    acts != [] ==> Enabled(s, acts[0]) && Legal(env, Apply(env, s, acts[0]), acts[1..])
  }

  /** The state a schedule leads to. */
  ghost function After(env: Env, s: Actor, acts: seq<Action>): Actor
    requires Legal(env, s, acts)
    decreases |acts|
  {
    if acts == [] then s else After(env, Apply(env, s, acts[0]), acts[1..])
  }

  // ---- The invariant --------------------------------------------------------------------------

  predicate InReceive(loop: LoopPc) {
    loop.Receiving? || loop.Checking? || loop.Popping? || loop.Parking? || loop.Parked?
  }

  predicate LoopHolds(loop: LoopPc) {
    loop.Checking? || loop.Popping? || loop.Parking?
  }

  predicate ClientHolds(client: ClientPc) {
    client.Pushing? || client.Notifying? || client.Unlocking?
  }

  /** The mutex is held by exactly the thread that is inside. */
  ghost predicate Exclusive(s: Actor) {
    && (LoopHolds(s.loop) <==> s.owner == Some(ByLoop))
    && (forall c :: 0 <= c < |s.clients| ==> (ClientHolds(s.clients[c]) <==> s.owner == Some(ByClient(c))))
    && (s.owner.Some? && s.owner.value.ByClient? ==> s.owner.value.c < |s.clients|)
  }

  /** What the check saw still holds under the mutex, and the loop waits on a non-empty queue only
      while the sender that filled it has still to notify. */
  ghost predicate NoLostWakeup(s: Actor) {
    && (s.loop.Popping? ==> s.queue != [])
    && (s.loop.Parking? ==> s.queue == [])
    && (s.loop.Parked? && s.queue != [] ==>
          && s.owner.Some? && s.owner.value.ByClient? && s.owner.value.c < |s.clients|
          && s.clients[s.owner.value.c].Notifying?)
  }

  predicate Unsent(client: ClientPc) {
    client.Sending? || client.Pushing?
  }

  /** The queue is the unpopped rest of the log and the loop is at most one message ahead. */
  ghost predicate Counted(env: Env, s: Actor) {
    && s.answered <= s.handled <= s.taken <= |s.log|
    && s.queue == s.log[s.taken..]
    && match s.loop
       case Handling(msg) => s.taken == s.handled + 1 == s.answered + 1 && msg == s.log[s.handled]
       case Answering(msg, reply) =>
         && s.taken == s.handled == s.answered + 1
         && msg == s.log[s.answered] && reply == OutputAt(env, s.log, s.answered)
       case _ => s.taken == s.handled == s.answered
  }

  ghost predicate Folded(env: Env, s: Actor) {
    s.handled <= |s.log| && s.core == Fold(env, s.log[..s.handled])
  }

  ghost predicate HasTicket(log: seq<Message>, i: int, t: int) {
    0 <= i < |log| && log[i].ticket.Some? && log[i].ticket.value == t
  }

  /** No two messages, sent or about to be sent, share a promise. */
  ghost predicate TicketsDistinct(s: Actor) {
    && (forall i, j, t :: HasTicket(s.log, i, t) && HasTicket(s.log, j, t) ==> i == j)
    && (forall i, t :: HasTicket(s.log, i, t) ==> t < |s.promises|)
    && (forall c :: 0 <= c < |s.clients| && Unsent(s.clients[c]) && s.clients[c].msg.ticket.Some? ==>
          var t := s.clients[c].msg.ticket.value;
          && t < |s.promises|
          && (forall i :: !HasTicket(s.log, i, t))
          && (forall d :: 0 <= d < |s.clients| && d != c && Unsent(s.clients[d]) ==>
                s.clients[d].msg.ticket != Some(t)))
  }

  /** A promise is fulfilled exactly when its message was answered, with the fold's output. */
  ghost predicate Fulfilled(env: Env, s: Actor) {
    && (forall i, t :: HasTicket(s.log, i, t) && 0 <= t < |s.promises| ==>
          s.promises[t] == if i < s.answered then Ready(OutputAt(env, s.log, i)) else Pending)
    && (forall t :: 0 <= t < |s.promises| && s.promises[t].Ready? ==>
          exists i :: i < s.answered && HasTicket(s.log, i, t))
    && !s.crashed
  }

  /** Only the last handled message can be an internal Stop, and it is what ends the loop. */
  ghost predicate StopLast(s: Actor) {
    && s.handled <= |s.log|
    && (forall i :: 0 <= i < s.handled - 1 ==> !IsStop(s.log[i]))
    && (s.core.stopped <==> s.handled > 0 && IsStop(s.log[s.handled - 1]))
    && (InReceive(s.loop) || s.loop.Handling? ==> !s.core.stopped)
    && (s.loop.Finishing? || s.loop.Finished? ==> s.core.stopped)
    && s.finishes == (if s.loop.Finished? then 1 else 0)
  }

  ghost predicate ClientsKnown(s: Actor) {
    && (s.joined ==> s.loop.Finished?)
    && (forall c :: 0 <= c < |s.clients| ==>
          match s.clients[c]
          case Idle => true
          case Sending(msg, mode) => mode.StopCall? ==> IsStop(msg)
          case Pushing(msg, mode) => mode.StopCall? ==> IsStop(msg)
          case Notifying(msg, mode, pos) => pos < |s.log| && s.log[pos] == msg && (mode.StopCall? ==> IsStop(msg))
          case Unlocking(msg, mode, pos) => pos < |s.log| && s.log[pos] == msg && (mode.StopCall? ==> IsStop(msg))
          case Waiting(t, pos, mode) => HasTicket(s.log, pos, t) && (mode.StopCall? ==> IsStop(s.log[pos]))
          case Joining(pos) => pos < s.answered && pos < |s.log| && IsStop(s.log[pos]))
  }

  ghost predicate Inv(env: Env, s: Actor) {
    && Exclusive(s) && NoLostWakeup(s)
    && Counted(env, s) && Folded(env, s) && TicketsDistinct(s) && Fulfilled(env, s) && StopLast(s) && ClientsKnown(s)
  }

  // ---- Preservation -----------------------------------------------------------------------------

  lemma AppendKeepsOutputs(env: Env, log: seq<Message>, msg: Message)
    ensures forall i :: 0 <= i <= |log| ==> (log + [msg])[..i] == log[..i]
    ensures forall i :: 0 <= i < |log| ==> OutputAt(env, log + [msg], i) == OutputAt(env, log, i)
  {
    forall i | 0 <= i < |log| ensures OutputAt(env, log + [msg], i) == OutputAt(env, log, i) {
      assert (log + [msg])[..i] == log[..i];
    }
  }

  predicate IsClientStep(a: Action) {
    a.Begin? || a.LockClient? || a.Push? || a.Notify? || a.Unlock? || a.Return? || a.Timeout? || a.Join?
  }

  lemma ClientExclusive(env: Env, s: Actor, a: Action)
    requires Exclusive(s) && Enabled(s, a) && IsClientStep(a)
    ensures Exclusive(Apply(env, s, a))
  {
  }

  lemma LoopExclusive(env: Env, s: Actor, a: Action)
    requires Exclusive(s) && Enabled(s, a) && !IsClientStep(a)
    ensures Exclusive(Apply(env, s, a))
  {
    assert Apply(env, s, a).clients == s.clients;
  }

  lemma NoLostWakeupStep(env: Env, s: Actor, a: Action)
    requires Exclusive(s) && NoLostWakeup(s) && Enabled(s, a)
    ensures NoLostWakeup(Apply(env, s, a))
  {
  }

  lemma LockStep(env: Env, s: Actor, a: Action)
    requires Exclusive(s) && NoLostWakeup(s) && Enabled(s, a)
    ensures Exclusive(Apply(env, s, a)) && NoLostWakeup(Apply(env, s, a))
  {
    if IsClientStep(a) { ClientExclusive(env, s, a); } else { LoopExclusive(env, s, a); }
    NoLostWakeupStep(env, s, a);
  }

  lemma BeginKeeps(env: Env, s: Actor, c: nat, mode: Mode, req: Request)
    requires Inv(env, s) && Enabled(s, Begin(c, mode, req))
    ensures Inv(env, Apply(env, s, Begin(c, mode, req)))
  {
    var s' := Apply(env, s, Begin(c, mode, req));
    LockStep(env, s, Begin(c, mode, req));
    assert Counted(env, s') && Folded(env, s') && StopLast(s');
    assert TicketsDistinct(s');
  }

  lemma PushKeepsTickets(env: Env, s: Actor, c: nat)
    requires Inv(env, s) && Enabled(s, Push(c))
    ensures TicketsDistinct(Apply(env, s, Push(c))) && ClientsKnown(Apply(env, s, Push(c)))
  {
    var msg, s' := s.clients[c].msg, Apply(env, s, Push(c));
    assert forall i, t ::
      HasTicket(s'.log, i, t) <==> HasTicket(s.log, i, t) || (i == |s.log| && HasTicket([msg], 0, t));
  }

  lemma PushKeepsCounts(env: Env, s: Actor, c: nat)
    requires Counted(env, s) && Folded(env, s) && StopLast(s) && Enabled(s, Push(c))
    ensures var s' := Apply(env, s, Push(c)); Counted(env, s') && Folded(env, s') && StopLast(s')
  {
    var msg, s' := s.clients[c].msg, Apply(env, s, Push(c));
    AppendKeepsOutputs(env, s.log, msg);
    assert s'.log[s.taken..] == s.log[s.taken..] + [msg];
  }

  lemma PushKeepsReplies(env: Env, s: Actor, c: nat)
    requires Counted(env, s) && TicketsDistinct(s) && Fulfilled(env, s) && Enabled(s, Push(c))
    ensures Fulfilled(env, Apply(env, s, Push(c)))
  {
    var msg, s' := s.clients[c].msg, Apply(env, s, Push(c));
    AppendKeepsOutputs(env, s.log, msg);
    assert forall i, t ::
      HasTicket(s'.log, i, t) <==> HasTicket(s.log, i, t) || (i == |s.log| && HasTicket([msg], 0, t));
  }

  lemma PushKeeps(env: Env, s: Actor, c: nat)
    requires Inv(env, s) && Enabled(s, Push(c))
    ensures Inv(env, Apply(env, s, Push(c)))
  {
    LockStep(env, s, Push(c));
    PushKeepsTickets(env, s, c);
    PushKeepsCounts(env, s, c);
    PushKeepsReplies(env, s, c);
  }

  lemma ProcessKeeps(env: Env, s: Actor)
    requires Inv(env, s) && Enabled(s, Process)
    ensures Inv(env, Apply(env, s, Process))
  {
    LockStep(env, s, Process);
    assert s.log[..s.handled + 1][..s.handled] == s.log[..s.handled];
  }

  lemma AnswerFulfils(env: Env, s: Actor)
    requires Counted(env, s) && TicketsDistinct(s) && Fulfilled(env, s) && Enabled(s, Answer)
    ensures Fulfilled(env, Apply(env, s, Answer)) && TicketsDistinct(Apply(env, s, Answer))
  {
    if s.loop.msg.ticket.Some? {
      assert HasTicket(s.log, s.answered, s.loop.msg.ticket.value);
    }
  }

  lemma AnswerCounts(env: Env, s: Actor)
    requires Counted(env, s) && Folded(env, s) && StopLast(s) && Enabled(s, Answer)
    ensures var s' := Apply(env, s, Answer); Counted(env, s') && Folded(env, s') && StopLast(s')
  {
    var s' := Apply(env, s, Answer);
    assert s'.log == s.log && s'.core == s.core && s'.queue == s.queue && s'.loop == AtGuard;
  }

  lemma AnswerClients(env: Env, s: Actor)
    requires Counted(env, s) && StopLast(s) && ClientsKnown(s) && Enabled(s, Answer)
    ensures ClientsKnown(Apply(env, s, Answer))
  {
    assert Apply(env, s, Answer).clients == s.clients && Apply(env, s, Answer).log == s.log;
  }

  lemma AnswerKeeps(env: Env, s: Actor)
    requires Inv(env, s) && Enabled(s, Answer)
    ensures Inv(env, Apply(env, s, Answer))
  {
    LockStep(env, s, Answer);
    AnswerClients(env, s);
    AnswerFulfils(env, s);
    AnswerCounts(env, s);
  }

  /** Steps of a client that leave queue, log and promises alone. */
  predicate IsClientMove(a: Action) {
    IsClientStep(a) && !a.Begin? && !a.Push?
  }

  lemma ClientMoveTickets(env: Env, s: Actor, a: Action)
    requires IsClientMove(a) && TicketsDistinct(s) && Enabled(s, a)
    ensures TicketsDistinct(Apply(env, s, a))
  {
  }

  lemma ClientMoveClients(env: Env, s: Actor, a: Action)
    requires IsClientMove(a) && Fulfilled(env, s) && Counted(env, s) && ClientsKnown(s) && Enabled(s, a)
    ensures ClientsKnown(Apply(env, s, a))
  {
    if a.Return? {
      assert HasTicket(s.log, s.clients[a.c].pos, s.clients[a.c].ticket);
    }
  }

  lemma ClientMoveReplies(env: Env, s: Actor, a: Action)
    requires IsClientMove(a) && Counted(env, s) && Folded(env, s) && Fulfilled(env, s) && StopLast(s) && Enabled(s, a)
    ensures var s' := Apply(env, s, a); Counted(env, s') && Folded(env, s') && Fulfilled(env, s') && StopLast(s')
  {
    var s' := Apply(env, s, a);
    assert s'.log == s.log && s'.promises == s.promises && s'.answered == s.answered && s'.crashed == s.crashed;
    assert Fulfilled(env, s');
  }

  lemma ClientMoveKeeps(env: Env, s: Actor, a: Action)
    requires IsClientMove(a) && Inv(env, s) && Enabled(s, a)
    ensures Inv(env, Apply(env, s, a))
  {
    LockStep(env, s, a);
    ClientMoveTickets(env, s, a);
    ClientMoveClients(env, s, a);
    ClientMoveReplies(env, s, a);
  }

  /** Steps of the loop that neither process nor answer. */
  predicate IsLoopMove(a: Action) {
    a.Guard? || a.LockLoop? || a.Check? || a.Park? || a.SpuriousWake? || a.Pop? || a.Finish?
  }

  lemma LoopMoveKeeps(env: Env, s: Actor, a: Action)
    requires IsLoopMove(a) && Inv(env, s) && Enabled(s, a)
    ensures Inv(env, Apply(env, s, a))
  {
    LockStep(env, s, a);
    assert Counted(env, Apply(env, s, a));
  }

  lemma StepKeeps(env: Env, s: Actor, a: Action)
    requires Inv(env, s) && Enabled(s, a)
    ensures Inv(env, Apply(env, s, a))
  {
    if IsClientMove(a) {
      ClientMoveKeeps(env, s, a);
    } else if IsLoopMove(a) {
      LoopMoveKeeps(env, s, a);
    } else {
      match a
      case Begin(c, mode, req) => BeginKeeps(env, s, c, mode, req);
      case Push(c) => PushKeeps(env, s, c);
      case Process => ProcessKeeps(env, s);
      case Answer => AnswerKeeps(env, s);
    }
  }

  lemma InitInv(env: Env, clients: nat)
    ensures Inv(env, Init(env, clients))
  {
  }

  lemma {:induction false} RunKeeps(env: Env, s: Actor, acts: seq<Action>)
    requires Inv(env, s) && Legal(env, s, acts)
    ensures Inv(env, After(env, s, acts))
    decreases |acts|
  {
    if acts != [] {
      StepKeeps(env, s, acts[0]);
      RunKeeps(env, Apply(env, s, acts[0]), acts[1..]);
    }
  }
}
