/** The object of include/Task/EventTaskBase.hpp seen from its own loop thread: `main_loop` pops the
    shared queue, updates `stopped_` and sets promises. */
module EventTaskObjects {
  import opened EventTypes
  import opened StateMachines
  import opened EventTasks
  import opened StateMachineObjects

  /** No state is entered from outside while the loop works. */
  const NobodyEnters: nat -> seq<State> := (turn: nat) => []

  class EventTask {
    const aggregator: StateMachine
    const onStart: nat -> Option<Fault>
    const oracle: Oracle
    var queue: seq<Message>
    var promises: seq<Promise>
    var stopped: bool
    var turn: nat
    var finishes: nat
    ghost var history: seq<Message>  // every message handled so far
    ghost const env: Env

    ghost predicate Valid()
      reads this, aggregator, aggregator.table.Values
    {
      && aggregator.Valid()
      && turn == |history|
      && env.oracle == oracle && env.onStart == onStart && env.entered == NobodyEnters
      && Core(aggregator.View(), stopped) == Fold(env, history)
      && TicketsBelow(history, |promises|) && TicketsBelow(queue, |promises|)
      && promises == Settled(env, history, |promises|)
    }

    constructor (aggregator: StateMachine, oracle: Oracle, onStart: nat -> Option<Fault>)
      requires aggregator.Valid()
      ensures Valid()
      ensures this.aggregator == aggregator && env == Env(aggregator.View(), oracle, onStart, NobodyEnters)
      ensures queue == [] && promises == [] && history == [] && !stopped && finishes == 0
    {
      this.aggregator, this.oracle, this.onStart := aggregator, oracle, onStart;
      queue, promises, stopped, turn, finishes, history := [], [], false, 0, 0, [];
      env := Env(aggregator.View(), oracle, onStart, NobodyEnters);
    }

    /** A Sender: the promise is made with the message, then the message goes to the back. */
    method Send(internal: bool, req: Request, needReply: bool) returns (ticket: Option<nat>)
      requires Valid()
      modifies this`queue, this`promises
      ensures Valid()
      ensures ticket == if needReply then Some(|old(promises)|) else None
      ensures promises == old(promises) + if needReply then [Pending] else []
      ensures queue == old(queue) + [Message(internal, req, ticket)]
    {
      ticket := None;
      if needReply {
        ticket := Some(|promises|);
        promises := promises + [Pending];
      }
      queue := queue + [Message(internal, req, ticket)];
      SettledGrows(env, history, |old(promises)|, |promises|);
    }

    method ProcessInternalCommand(req: Request) returns (fault: Option<Fault>)
      modifies this`stopped
      ensures stopped == (old(stopped) || req.command == STOP)
      ensures fault == if req.command == START then onStart(turn) else None
    {
      fault := None;
      if req.command == START {
        fault := onStart(turn);
      } else if req.command == STOP {
        stopped := true;
      }
    }

    /** The loop until it ends or blocks on an empty queue. It handles the queue in order up to and
        including the first Stop, leaves the rest, and settles the handled messages' promises. */
    method MainLoop() returns (blocked: bool)
      requires Valid()
      modifies this`queue, this`promises, this`stopped, this`turn, this`finishes, this`history
      modifies aggregator, aggregator.table.Values
      ensures Valid()
      ensures var n := ToHandle(old(stopped), old(queue));
              history == old(history) + old(queue)[..n] && queue == old(queue)[n..]
      ensures var n := ToHandle(old(stopped), old(queue));
              && (old(stopped) ==> n == 0)
              && (forall i :: 0 <= i < n - 1 ==> !IsStop(old(queue)[i]))
              && (stopped && !old(stopped) ==> n > 0 && IsStop(old(queue)[n - 1]))
      ensures blocked <==> !stopped
      ensures blocked ==> queue == []
      ensures |promises| == |old(promises)|
      ensures finishes == old(finishes) + if blocked then 0 else 1
    {
      ghost var n := 0;
      while !stopped && queue != []
        invariant Valid()
        invariant fresh(aggregator.table.Values - old(aggregator.table.Values))
        invariant n <= |old(queue)| && history == old(history) + old(queue)[..n] && queue == old(queue)[n..]
        invariant n + ToHandle(stopped, queue) == ToHandle(old(stopped), old(queue))
        invariant stopped ==> old(stopped) || (n > 0 && IsStop(old(queue)[n - 1]))
        invariant finishes == old(finishes) && |promises| == |old(promises)|
        decreases |queue|
      {
        Turn();
        assert old(queue)[..n + 1] == old(queue)[..n] + [old(queue)[n]];
        n := n + 1;
      }
      ToHandleMeans(old(stopped), old(queue));
      blocked := !stopped;
      if stopped {
        finishes := finishes + 1;
      }
    }

    /** The `try` body: run the command or publish the event. */
    method Process(content: Message) returns (reply: Reply)
      requires Valid()
      modifies this`stopped, aggregator, aggregator.table.Values
      ensures aggregator.Valid() && fresh(aggregator.table.Values - old(aggregator.table.Values))
      ensures (Core(aggregator.View(), stopped), reply) == Handle(env, Fold(env, history), content, turn)
    {
      reply := Value(true);
      if content.internal {
        var fault := ProcessInternalCommand(content.req);
        if fault.Some? {
          reply := Failure(Escaped(fault.value));
        }
      } else {
        reply := aggregator.Publish(content.req.command, content.req, oracle, turn);
      }
    }

    /** The message has been processed to this reply and is not yet recorded as handled. */
    ghost predicate Processed(content: Message, reply: Reply)
      reads this, aggregator, aggregator.table.Values
    {
      && aggregator.Valid()
      && turn == |history|
      && env.oracle == oracle && env.onStart == onStart && env.entered == NobodyEnters
      && (Core(aggregator.View(), stopped), reply) == Handle(env, Fold(env, history), content, turn)
      && TicketsBelow(history, |promises|) && TicketsBelow([content] + queue, |promises|)
      && promises == Settled(env, history, |promises|)
    }

    /** The end of a turn: the message counts as handled and its promise, if any, gets the reply. */
    method SetReply(content: Message, reply: Reply)
      requires Processed(content, reply)
      modifies this`promises, this`turn, this`history
      ensures Valid()
      ensures history == old(history) + [content]
      ensures |promises| == |old(promises)|
    {
      assert forall i :: 0 <= i < |queue| ==> ([content] + queue)[i + 1] == queue[i];
      assert ([content] + queue)[0] == content;
      Extend(env, history, content, |promises|);
      turn := turn + 1;
      history := history + [content];
      if content.ticket.Some? {
        promises := promises[content.ticket.value := Ready(reply)];
      }
    }

    /** One turn of the loop body: pop, process, settle the message's promise. */
    method Turn()
      requires Valid() && queue != []
      modifies this`queue, this`promises, this`stopped, this`turn, this`history
      modifies aggregator, aggregator.table.Values
      ensures Valid() && fresh(aggregator.table.Values - old(aggregator.table.Values))
      ensures history == old(history) + [old(queue)[0]] && queue == old(queue)[1..]
      ensures stopped == (old(stopped) || IsStop(old(queue)[0]))
      ensures !old(stopped) ==> ToHandle(false, old(queue)) == 1 + ToHandle(stopped, queue)
      ensures |promises| == |old(promises)|
    {
      ToHandleStep(queue);
      var content := queue[0];
      queue := queue[1..];
      assert [content] + queue == old(queue);
      var reply := Process(content);
      SetReply(content, reply);
    }
  }

  /** How many queued messages a running loop handles: up to and including the first Stop. */
  function UpToStop(queue: seq<Message>): (n: nat)
    ensures n <= |queue|
  {
    if queue == [] then 0 else if IsStop(queue[0]) then 1 else 1 + UpToStop(queue[1..])
  }

  function ToHandle(stopped: bool, queue: seq<Message>): (n: nat)
    ensures n <= |queue|
  {
    if stopped then 0 else UpToStop(queue)
  }

  lemma ToHandleStep(queue: seq<Message>)
    requires queue != []
    ensures ToHandle(false, queue) == 1 + ToHandle(IsStop(queue[0]), queue[1..])
  {
  }

  /** Only the last message handled can be a Stop, and without one the whole queue is handled. */
  lemma {:induction false} UpToStopMeans(queue: seq<Message>)
    ensures forall i :: 0 <= i < UpToStop(queue) - 1 ==> !IsStop(queue[i])
    ensures UpToStop(queue) < |queue| ==> UpToStop(queue) > 0 && IsStop(queue[UpToStop(queue) - 1])
    ensures UpToStop(queue) == |queue| <==> forall i :: 0 <= i < |queue| - 1 ==> !IsStop(queue[i])
  {
    if queue != [] && !IsStop(queue[0]) {
      UpToStopMeans(queue[1..]);
      if UpToStop(queue) < |queue| {
        assert IsStop(queue[UpToStop(queue) - 1]);
      }
    }
  }

  lemma ToHandleMeans(stopped: bool, queue: seq<Message>)
    ensures stopped ==> ToHandle(stopped, queue) == 0
    ensures forall i :: 0 <= i < ToHandle(stopped, queue) - 1 ==> !IsStop(queue[i])
  {
    UpToStopMeans(queue);
  }

  ghost predicate TicketsBelow(log: seq<Message>, n: nat) {
    forall i :: 0 <= i < |log| && log[i].ticket.Some? ==> log[i].ticket.value < n
  }

  /** `n` promises, those of the handled messages fulfilled with the fold's outputs. */
  ghost function Settled(env: Env, history: seq<Message>, n: nat): (promises: seq<Promise>)
    ensures |promises| == n
  {
    if history == [] then seq(n, _ => Pending)
    else
      var last := |history| - 1;
      var before := Settled(env, history[..last], n);
      if history[last].ticket.Some? && history[last].ticket.value < n
      then before[history[last].ticket.value := Ready(OutputAt(env, history, last))]
      else before
  }

  /** What one more handled message adds to the fold and to the promises. */
  lemma Extend(env: Env, history: seq<Message>, msg: Message, n: nat)
    requires TicketsBelow(history, n) && TicketsBelow([msg], n)
    ensures var (core, reply) := Handle(env, Fold(env, history), msg, |history|);
            && Fold(env, history + [msg]) == core
            && Settled(env, history + [msg], n)
               == if msg.ticket.Some? then Settled(env, history, n)[msg.ticket.value := Ready(reply)]
                  else Settled(env, history, n)
    ensures TicketsBelow(history + [msg], n)
  {
    assert (history + [msg])[..|history|] == history;
    assert [msg][0] == msg;
  }

  lemma {:induction false} SettledGrows(env: Env, history: seq<Message>, n: nat, more: nat)
    requires TicketsBelow(history, n) && n <= more
    ensures Settled(env, history, more) == Settled(env, history, n) + seq(more - n, _ => Pending)
  {
    if history != [] {
      SettledGrows(env, history[..|history| - 1], n, more);
    }
  }

  /** When the handled messages have promises of their own, each of those holds the fold's output
      at its message's place, and every other promise is pending. */
  lemma {:induction false} SettledMeans(env: Env, history: seq<Message>, n: nat)
    requires TicketsBelow(history, n)
    requires forall i, j, t :: HasTicket(history, i, t) && HasTicket(history, j, t) ==> i == j
    ensures forall i, t :: HasTicket(history, i, t) ==>
              0 <= t < n && Settled(env, history, n)[t] == Ready(OutputAt(env, history, i))
    ensures forall t :: 0 <= t < n && (forall i :: !HasTicket(history, i, t)) ==> Settled(env, history, n)[t] == Pending
  {
    if history != [] {
      var last := |history| - 1;
      var front := history[..last];
      assert forall i, t :: HasTicket(front, i, t) <==> HasTicket(history, i, t) && i < last;
      SettledMeans(env, front, n);
      assert history == front + [history[last]];
      AppendKeepsOutputs(env, front, history[last]);
      var before, after := Settled(env, front, n), Settled(env, history, n);
      var own := history[last].ticket;
      assert own.Some? ==> HasTicket(history, last, own.value);
      forall i, t | HasTicket(history, i, t)
        ensures 0 <= t < n && after[t] == Ready(OutputAt(env, history, i))
      {
        if i < last {
          assert HasTicket(front, i, t);
          assert before[t] == Ready(OutputAt(env, front, i));
        }
      }
    }
  }
}
