/** The table-driven machine as a value: what each operation of `StateMachine` and
    `MessageEventAggregator` does to table, current state, row pointer and callback log. */
module StateMachines {
  import opened EventTypes

  datatype Entry = Entry(handler: HandlerId, next: State)
  type Row = map<Command, Entry>
  type Table = map<State, Row>

  /** `bound` says that the row pointer is non-null; `log` lists the callback's calls. */
  datatype Machine = Machine(table: Table, state: State, bound: bool, watcher: Watcher, log: seq<(State, State)>)

  const BLANK := Machine(map[], UNDEFINED_STATE, false, NoWatcher, [])

  /** `std::map::emplace`: the first registration of a command wins. */
  function AddEntry(row: Row, command: Command, entry: Entry): Row {
    if command in row then row else row[command := entry]
  }

  function RowOf(table: Table, state: State): Row {
    if state in table then table[state] else map[]
  }

  function AddTo(table: Table, from: State, command: Command, entry: Entry): Table {
    table[from := AddEntry(RowOf(table, from), command, entry)]
  }

  /** The target is stored before the callback runs, and the callback runs inside the `try`
      that turns every `std::out_of_range` into "State not found". */
  function SetState(m: Machine, target: State): (Machine, Option<Error>) {
    if target !in m.table then (m, Some(StateNotFound))
    else
      var stored := m.(state := target, bound := true);
      match m.watcher
      case NoWatcher => (stored, None)
      case Watcher(reaction) =>
        var called := stored.(log := m.log + [(m.state, target)]);
        match reaction(m.state, target)
        case None => (called, None)
        case Some(OutOfRangeFault) => (called, Some(StateNotFound))
        case Some(fault) => (called, Some(Escaped(fault)))
  }

  /** `init` and `set_state` calls from outside, one after the other; what one throws goes to its caller. */
  function Enter(m: Machine, targets: seq<State>): Machine
    decreases |targets|
  {
    if targets == [] then m else Enter(SetState(m, targets[0]).0, targets[1..])
  }

  /** The calls a handler makes; the first one that throws ends the handler. */
  function RunActs(m: Machine, acts: seq<Act>): (Machine, Option<Error>)
    decreases |acts|
  {
    if acts == [] then (m, None)
    else
      match acts[0]
      case Goto(target) =>
        var (next, error) := SetState(m, target);
        if error.Some? then (next, error) else RunActs(next, acts[1..])
      case Register(from, command, handler, next) =>
        RunActs(m.(table := AddTo(m.table, from, command, Entry(handler, next))), acts[1..])
  }

  /** A handler run under `MessageEventAggregator::publish`, whose `try` covers the handler too:
      an `out_of_range` the handler throws comes out as "Event not found". */
  function RunHandler(m: Machine, script: Script): (Machine, Reply) {
    var (after, error) := RunActs(m, script.acts);
    if error.Some? then (after, Failure(error.value))
    else
      match script.end
      case Returns(ok) => (after, Value(ok))
      case Raises(OutOfRangeFault) => (after, Failure(EventNotFound))
      case Raises(fault) => (after, Failure(Escaped(fault)))
  }

  function Publish(m: Machine, command: Command, req: Request, oracle: Oracle, turn: nat): (Machine, Reply) {
    if !m.bound then (m, Failure(NotInitialized))
    else
      var row := RowOf(m.table, m.state);
      if command !in row then (m, Failure(EventNotFound))
      else
        var (after, reply) := RunHandler(m, oracle(row[command].handler, req, turn));
        if reply != Value(true) then (after, reply)
        else
          var rowAfter := RowOf(after.table, m.state);
          if command !in rowAfter then (after, Failure(EventNotFound))
          else
            var next := rowAfter[command].next;
            if next != KEEP_STATE && after.state != next then
              var (moved, error) := SetState(after, next);
              (moved, if error.Some? then Failure(error.value) else Value(true))
            else (after, Value(true))
  }

  // ---- Whole runs -------------------------------------------------------------------------

  datatype Op =
    | DoPublish(command: Command, req: Request)
    | DoSetState(target: State)
    | DoAdd(from: State, command: Command, handler: HandlerId, next: State)
    | DoWatch(watcher: Watcher)

  function Step(m: Machine, op: Op, oracle: Oracle, turn: nat): (Machine, Reply) {
    match op
    case DoPublish(command, req) => Publish(m, command, req, oracle, turn)
    case DoSetState(target) =>
      var (after, error) := SetState(m, target);
      (after, if error.Some? then Failure(error.value) else Value(true))
    case DoAdd(from, command, handler, next) =>
      (m.(table := AddTo(m.table, from, command, Entry(handler, next))), Value(true))
    case DoWatch(watcher) => (m.(watcher := watcher), Value(true))
  }

  /** The machine and the replies after a run; the turn of an operation is its position. */
  function RunOps(m: Machine, ops: seq<Op>, oracle: Oracle): (Machine, seq<Reply>) {
    if ops == [] then (m, [])
    else
      var last := |ops| - 1;
      var (before, replies) := RunOps(m, ops[..last], oracle);
      var (after, reply) := Step(before, ops[last], oracle, last);
      (after, replies + [reply])
  }

  // ---- Row pointer and table growth -------------------------------------------------------

  /** A non-null row pointer is the table's own row for the current state. */
  ghost predicate RowIsCurrent(m: Machine) {
    m.bound ==> m.state in m.table
  }

  /** Every row survives and keeps the entries it had. */
  ghost predicate Extends(before: Table, after: Table) {
    forall s :: s in before ==>
      s in after && forall c :: c in before[s] ==> c in after[s] && after[s][c] == before[s][c]
  }

  lemma {:induction false} ActsExtendTable(m: Machine, acts: seq<Act>)
    requires RowIsCurrent(m)
    ensures RowIsCurrent(RunActs(m, acts).0)
    ensures Extends(m.table, RunActs(m, acts).0.table)
    ensures m.bound ==> RunActs(m, acts).0.bound
    ensures RunActs(m, acts).0.watcher == m.watcher
    decreases |acts|
  {
    if acts != [] {
      match acts[0]
      case Goto(target) =>
        var (next, error) := SetState(m, target);
        if error.None? { ActsExtendTable(next, acts[1..]); }
      case Register(from, command, handler, next) =>
        var added := m.(table := AddTo(m.table, from, command, Entry(handler, next)));
        ActsExtendTable(added, acts[1..]);
    }
  }

  lemma StepKeepsRow(m: Machine, op: Op, oracle: Oracle, turn: nat)
    requires RowIsCurrent(m)
    ensures RowIsCurrent(Step(m, op, oracle, turn).0)
    ensures Extends(m.table, Step(m, op, oracle, turn).0.table)
    ensures m.bound ==> Step(m, op, oracle, turn).0.bound
  {
    if op.DoPublish? && m.bound {
      var row := RowOf(m.table, m.state);
      if op.command in row {
        ActsExtendTable(m, oracle(row[op.command].handler, op.req, turn).acts);
      }
    }
  }

  /** In every run the row pointer, once set, stays the table's own row of the current state,
      and no registration is ever lost or overwritten. */
  lemma {:induction false} RunKeepsRow(m: Machine, ops: seq<Op>, oracle: Oracle)
    requires RowIsCurrent(m)
    ensures RowIsCurrent(RunOps(m, ops, oracle).0)
    ensures Extends(m.table, RunOps(m, ops, oracle).0.table)
    ensures m.bound ==> RunOps(m, ops, oracle).0.bound
    ensures |RunOps(m, ops, oracle).1| == |ops|
  {
    if ops != [] {
      var last := |ops| - 1;
      RunKeepsRow(m, ops[..last], oracle);
      StepKeepsRow(RunOps(m, ops[..last], oracle).0, ops[last], oracle, last);
    }
  }

  // ---- The successor of a publish ----------------------------------------------------------

  /** A publish succeeds only through the handler of the row current at its start, and then ends
      in that entry's own successor; an entry that keeps the state leaves the machine wherever
      the handler put it. Registrations the handler made meanwhile cannot change the successor. */
  lemma PublishEndsInSuccessor(m: Machine, command: Command, req: Request, oracle: Oracle, turn: nat)
    requires RowIsCurrent(m)
    requires Publish(m, command, req, oracle, turn).1 == Value(true)
    ensures m.bound && command in m.table[m.state]
    ensures var entry := m.table[m.state][command];
            var script := oracle(entry.handler, req, turn);
            && RunHandler(m, script).1 == Value(true)
            && Publish(m, command, req, oracle, turn).0.state
               == if entry.next == KEEP_STATE then RunHandler(m, script).0.state else entry.next
  {
    ActsExtendTable(m, oracle(m.table[m.state][command].handler, req, turn).acts);
  }

  /** The last state a handler moved to, or the one it started in. */
  function LastGoto(start: State, acts: seq<Act>): State
    decreases |acts|
  {
    if acts == [] then start
    else LastGoto(if acts[0].Goto? then acts[0].target else start, acts[1..])
  }

  /** A handler none of whose calls throws leaves the machine in the last state it moved to. */
  lemma {:induction false} ActsEndInLastGoto(m: Machine, acts: seq<Act>)
    requires RunActs(m, acts).1.None?
    ensures RunActs(m, acts).0.state == LastGoto(m.state, acts)
    decreases |acts|
  {
    if acts != [] {
      match acts[0]
      case Goto(target) => ActsEndInLastGoto(SetState(m, target).0, acts[1..]);
      case Register(from, command, handler, next) =>
        ActsEndInLastGoto(m.(table := AddTo(m.table, from, command, Entry(handler, next))), acts[1..]);
    }
  }

  // ---- Outcomes ------------------------------------------------------------------------------

  /** What the callback throws when the machine moves to a state, if there is a callback and it throws. */
  function Thrown(m: Machine, target: State): Option<Fault> {
    if m.watcher.NoWatcher? then None else m.watcher.reaction(m.state, target)
  }

  /** `set_state` succeeds exactly for a known state whose callback does not throw; what the callback
      throws comes out as it is, except that an `out_of_range` reads like an unknown state. */
  lemma SetStateOutcome(m: Machine, target: State)
    ensures SetState(m, target).1.None? <==> target in m.table && Thrown(m, target).None?
    ensures forall id :: SetState(m, target).1 == Some(Escaped(OtherFault(id)))
              <==> target in m.table && Thrown(m, target) == Some(OtherFault(id))
    ensures SetState(m, target).1 == Some(StateNotFound)
            <==> target !in m.table || Thrown(m, target) == Some(OutOfRangeFault)
    ensures SetState(m, target).1.None? ==> SetState(m, target).0.state == target && SetState(m, target).0.bound
  {
    if Thrown(m, target).Some? {
      match Thrown(m, target).value
      case OutOfRangeFault =>
      case OtherFault(_) =>
    }
  }

  /** The calls of a handler as calls from outside. */
  function AsOps(acts: seq<Act>): seq<Op> {
    seq(|acts|, i requires 0 <= i < |acts| =>
      match acts[i]
      case Goto(target) => DoSetState(target)
      case Register(from, command, handler, next) => DoAdd(from, command, handler, next))
  }

  ghost predicate AllSucceed(replies: seq<Reply>) {
    forall i :: 0 <= i < |replies| ==> replies[i] == Value(true)
  }

  lemma {:induction false} ActsOneMore(m: Machine, acts: seq<Act>, act: Act)
    ensures RunActs(m, acts + [act])
      == if RunActs(m, acts).1.Some? then RunActs(m, acts) else RunActs(RunActs(m, acts).0, [act])
    decreases |acts|
  {
    if acts == [] {
      assert acts + [act] == [act];
    } else {
      assert (acts + [act])[1..] == acts[1..] + [act];
      match acts[0]
      case Goto(target) =>
        var (next, error) := SetState(m, target);
        if error.None? { ActsOneMore(next, acts[1..], act); }
      case Register(from, command, handler, next) =>
        ActsOneMore(m.(table := AddTo(m.table, from, command, Entry(handler, next))), acts[1..], act);
    }
  }

  /** The first `k` of a handler's calls as calls from outside: all succeed, but the last if it failed. */
  ghost predicate RunsAsCalls(m: Machine, acts: seq<Act>, oracle: Oracle, k: nat) {
    && k <= |acts|
    && var (after, error) := RunActs(m, acts);
       var (machine, replies) := RunOps(m, AsOps(acts[..k]), oracle);
       && machine == after && |replies| == k
       && match error
          case None => k == |acts| && AllSucceed(replies)
          case Some(e) => k > 0 && AllSucceed(replies[..k - 1]) && replies[k - 1] == Failure(e)
  }

  lemma OneCall(m: Machine, act: Act, oracle: Oracle, turn: nat)
    ensures var (after, error) := RunActs(m, [act]);
            Step(m, AsOps([act])[0], oracle, turn)
            == (after, if error.Some? then Failure(error.value) else Value(true))
  {
    assert [act][1..] == [];
  }

  lemma OpsOneMore(m: Machine, ops: seq<Op>, op: Op, oracle: Oracle)
    ensures var (before, replies) := RunOps(m, ops, oracle);
            var (after, reply) := Step(before, op, oracle, |ops|);
            RunOps(m, ops + [op], oracle) == (after, replies + [reply])
  {
    assert (ops + [op])[..|ops|] == ops;
  }

  lemma NextCall(m: Machine, acts: seq<Act>, act: Act, oracle: Oracle)
    requires RunActs(m, acts).1.None? && RunsAsCalls(m, acts, oracle, |acts|)
    ensures RunsAsCalls(m, acts + [act], oracle, |acts| + 1)
  {
    var longer := acts + [act];
    assert longer[..|acts| + 1] == longer && acts[..|acts|] == acts;
    assert AsOps(longer) == AsOps(acts) + AsOps([act]) == AsOps(acts) + [AsOps([act])[0]];
    ActsOneMore(m, acts, act);
    OpsOneMore(m, AsOps(acts), AsOps([act])[0], oracle);
    OneCall(RunActs(m, acts).0, act, oracle, |acts|);
    var replies := RunOps(m, AsOps(acts), oracle).1;
    assert RunOps(m, AsOps(longer), oracle).1[..|acts|] == replies;
  }

  lemma NoMoreCalls(m: Machine, acts: seq<Act>, act: Act, oracle: Oracle, k: nat)
    requires RunActs(m, acts).1.Some? && RunsAsCalls(m, acts, oracle, k)
    ensures RunsAsCalls(m, acts + [act], oracle, k)
  {
    ActsOneMore(m, acts, act);
    assert (acts + [act])[..k] == acts[..k];
  }

  /** What a handler's calls on its own machine do is what the same calls from outside do, one after the
      other up to the first that fails, and the handler ends with that one's error. */
  lemma {:induction false} HandlerCallsAreCalls(m: Machine, acts: seq<Act>, oracle: Oracle)
    ensures exists k: nat :: RunsAsCalls(m, acts, oracle, k)
    decreases |acts|
  {
    if acts == [] {
      assert AsOps(acts[..0]) == [];
      assert RunsAsCalls(m, acts, oracle, 0);
    } else {
      var n := |acts| - 1;
      var front, act := acts[..n], acts[n];
      HandlerCallsAreCalls(m, front, oracle);
      var k: nat :| RunsAsCalls(m, front, oracle, k);
      if RunActs(m, front).1.Some? {
        NoMoreCalls(m, front, act, oracle, k);
        assert RunsAsCalls(m, front + [act], oracle, k);
      } else {
        NextCall(m, front, act, oracle);
        assert RunsAsCalls(m, front + [act], oracle, n + 1);
      }
      assert acts == front + [act];
    }
  }

  /** The outcome of a publish with any handler, in both directions. It succeeds exactly when the machine
      is initialised, the starting row knows the command, the handler's own calls all succeed, it
      returns true, and the successor, if the machine is not to stay and not already there, can be
      entered; each other outcome has its own cause. */
  lemma PublishOutcome(m: Machine, command: Command, req: Request, oracle: Oracle, turn: nat)
    requires RowIsCurrent(m)
    ensures var reply := Publish(m, command, req, oracle, turn).1;
            if !m.bound then reply == Failure(NotInitialized)
            else if command !in m.table[m.state] then reply == Failure(EventNotFound)
            else
              var entry := m.table[m.state][command];
              var script := oracle(entry.handler, req, turn);
              var (after, error) := RunActs(m, script.acts);
              && (reply == Value(true) <==>
                    && error.None? && script.end == Returns(true)
                    && (entry.next in {KEEP_STATE, after.state} || SetState(after, entry.next).1.None?))
              && (reply == Value(false) <==> error.None? && script.end == Returns(false))
              && (error.Some? ==> reply == Failure(error.value))
              && (error.None? && script.end == Raises(OutOfRangeFault) ==> reply == Failure(EventNotFound))
              && (forall id :: error.None? && script.end == Raises(OtherFault(id)) ==>
                    reply == Failure(Escaped(OtherFault(id))))
              && (error.None? && script.end == Returns(true) && entry.next !in {KEEP_STATE, after.state} ==>
                    forall e :: SetState(after, entry.next).1 == Some(e) ==> reply == Failure(e))
  {
    if m.bound && command in m.table[m.state] {
      ActsExtendTable(m, oracle(m.table[m.state][command].handler, req, turn).acts);
    }
  }

  // ---- "State not found" --------------------------------------------------------------------

  ghost predicate ClosedNext(next: State, keys: set<State>) {
    next == KEEP_STATE || next in keys
  }

  ghost predicate ClosedTable(table: Table, keys: set<State>) {
    forall s, c :: s in table && c in table[s] ==> ClosedNext(table[s][c].next, keys)
  }

  ghost predicate ClosedAct(act: Act, keys: set<State>) {
    match act
    case Goto(target) => target in keys
    case Register(_, _, _, next) => ClosedNext(next, keys)
  }

  ghost predicate ClosedOracle(oracle: Oracle, keys: set<State>) {
    forall h, r, k, i :: 0 <= i < |oracle(h, r, k).acts| ==> ClosedAct(oracle(h, r, k).acts[i], keys)
  }

  ghost predicate NeverOutOfRange(watcher: Watcher) {
    watcher.Watcher? ==> forall a, b :: watcher.reaction(a, b) != Some(OutOfRangeFault)
  }

  ghost predicate ClosedOp(op: Op, keys: set<State>) {
    match op
    case DoPublish(_, _) => true
    case DoSetState(target) => target in keys
    case DoAdd(_, _, _, next) => ClosedNext(next, keys)
    case DoWatch(watcher) => NeverOutOfRange(watcher)
  }

  /** Successors, re-entrant targets and later registrations all stay within known keys. */
  ghost predicate Closed(m: Machine, keys: set<State>) {
    && keys <= m.table.Keys
    && ClosedTable(m.table, keys)
    && NeverOutOfRange(m.watcher)
  }

  lemma {:induction false} ClosedActs(m: Machine, acts: seq<Act>, keys: set<State>)
    requires Closed(m, keys)
    requires forall i :: 0 <= i < |acts| ==> ClosedAct(acts[i], keys)
    ensures Closed(RunActs(m, acts).0, keys)
    ensures RunActs(m, acts).1 != Some(StateNotFound)
    decreases |acts|
  {
    if acts != [] {
      assert ClosedAct(acts[0], keys);
      match acts[0]
      case Goto(target) =>
        var (next, error) := SetState(m, target);
        if error.None? { ClosedActs(next, acts[1..], keys); }
      case Register(from, command, handler, next) =>
        ClosedActs(m.(table := AddTo(m.table, from, command, Entry(handler, next))), acts[1..], keys);
    }
  }

  lemma ClosedStep(m: Machine, op: Op, oracle: Oracle, turn: nat, keys: set<State>)
    requires Closed(m, keys) && ClosedOracle(oracle, keys) && ClosedOp(op, keys)
    ensures Closed(Step(m, op, oracle, turn).0, keys)
    ensures Step(m, op, oracle, turn).1 != Failure(StateNotFound)
  {
    if op.DoPublish? && m.bound {
      var row := RowOf(m.table, m.state);
      if op.command in row {
        ClosedActs(m, oracle(row[op.command].handler, op.req, turn).acts, keys);
      }
    }
  }

  /** In a run whose successors, re-entrant targets and `set_state` arguments are table keys and
      whose callbacks never throw `out_of_range`, no operation reports "State not found". */
  lemma {:induction false} StateNotFoundNeverArises(m: Machine, ops: seq<Op>, oracle: Oracle, keys: set<State>)
    requires Closed(m, keys) && ClosedOracle(oracle, keys)
    requires forall i :: 0 <= i < |ops| ==> ClosedOp(ops[i], keys)
    ensures Closed(RunOps(m, ops, oracle).0, keys)
    ensures Failure(StateNotFound) !in RunOps(m, ops, oracle).1
  {
    if ops != [] {
      var last := |ops| - 1;
      StateNotFoundNeverArises(m, ops[..last], oracle, keys);
      assert ClosedOp(ops[last], keys);
      ClosedStep(RunOps(m, ops[..last], oracle).0, ops[last], oracle, last, keys);
    }
  }

  /** A failing `set_state` leaves table, state and row pointer unchanged exactly when the target is
      unknown or the machine was already there: a throwing callback is reported after the state was
      stored, and when it throws `out_of_range` as the very "State not found" of an unknown target. */
  lemma FailedSetStateUnchangedIff(m: Machine, target: State)
    requires SetState(m, target).1.Some?
    ensures SetState(m, target).0.(log := m.log) == m <==> target !in m.table || (m.bound && m.state == target)
    ensures target in m.table ==> SetState(m, target).0.state == target && SetState(m, target).0.bound
    ensures SetState(m, target).0.log == m.log <==> target !in m.table
  {
    if target in m.table {
      assert |SetState(m, target).0.log| == |m.log| + 1;
    }
  }

  /** A concrete machine that reports "State not found" for a state it has just entered. */
  lemma StateNotFoundAfterEntering()
    ensures exists m: Machine, target ::
              && target in m.table && m.state != target
              && SetState(m, target).1 == Some(StateNotFound)
              && SetState(m, target).0.state == target
  {
    var watcher := Watcher((a: State, b: State) => Some(OutOfRangeFault));
    var m := Machine(map[0 := map[], 1 := map[]], 0, true, watcher, []);
    assert SetState(m, 1).1 == Some(StateNotFound) && SetState(m, 1).0.state == 1;
  }

  // ---- The callback log is a path ------------------------------------------------------------

  /** Each call's new state is the old state of the next; the chain leads from `a` to `b`. */
  ghost predicate Path(log: seq<(State, State)>, a: State, b: State) {
    if log == [] then a == b else log[0].0 == a && Path(log[1..], log[0].1, b)
  }

  lemma {:induction false} PathJoin(p: seq<(State, State)>, q: seq<(State, State)>, a: State, b: State, c: State)
    requires Path(p, a, b) && Path(q, b, c)
    ensures Path(p + q, a, c)
  {
    if p == [] {
      assert p + q == q;
    } else {
      PathJoin(p[1..], q, p[0].1, b, c);
      assert (p + q)[1..] == p[1..] + q;
    }
  }

  /** `after` continues `before`'s log by a path between the two states. */
  ghost predicate Follows(before: Machine, after: Machine) {
    && |before.log| <= |after.log|
    && after.log[..|before.log|] == before.log
    && Path(after.log[|before.log|..], before.state, after.state)
  }

  lemma FollowsTrans(a: Machine, b: Machine, c: Machine)
    requires Follows(a, b) && Follows(b, c)
    ensures Follows(a, c)
  {
    PathJoin(b.log[|a.log|..], c.log[|b.log|..], a.state, b.state, c.state);
    assert c.log[..|b.log|] + c.log[|b.log|..] == c.log;
    assert c.log[|a.log|..] == b.log[|a.log|..] + c.log[|b.log|..];
    assert c.log[..|a.log|] == c.log[..|b.log|][..|a.log|];
  }

  lemma SetStateFollows(m: Machine, target: State)
    requires m.watcher.Watcher?
    ensures Follows(m, SetState(m, target).0)
    ensures SetState(m, target).0.watcher == m.watcher
  {
    if target in m.table {
      var step := [(m.state, target)];
      assert Path(step, m.state, target) by { assert step[1..] == []; }
      assert (m.log + step)[|m.log|..] == step;
    } else {
      assert m.log[|m.log|..] == [];
    }
  }

  lemma {:induction false} ActsFollow(m: Machine, acts: seq<Act>)
    requires m.watcher.Watcher?
    ensures Follows(m, RunActs(m, acts).0)
    ensures RunActs(m, acts).0.watcher == m.watcher
    decreases |acts|
  {
    if acts == [] {
      assert m.log[|m.log|..] == [];
    } else {
      match acts[0]
      case Goto(target) =>
        SetStateFollows(m, target);
        var (next, error) := SetState(m, target);
        if error.None? {
          ActsFollow(next, acts[1..]);
          FollowsTrans(m, next, RunActs(next, acts[1..]).0);
        }
      case Register(from, command, handler, next) =>
        var added := m.(table := AddTo(m.table, from, command, Entry(handler, next)));
        ActsFollow(added, acts[1..]);
        assert Follows(added, RunActs(added, acts[1..]).0);
    }
  }

  lemma StepFollows(m: Machine, op: Op, oracle: Oracle, turn: nat)
    requires m.watcher.Watcher?
    requires op.DoWatch? ==> op.watcher.Watcher?
    ensures Follows(m, Step(m, op, oracle, turn).0)
    ensures Step(m, op, oracle, turn).0.watcher.Watcher?
  {
    assert m.log[|m.log|..] == [];
    match op
    case DoPublish(command, req) =>
      var row := RowOf(m.table, m.state);
      if m.bound && command in row {
        var script := oracle(row[command].handler, req, turn);
        ActsFollow(m, script.acts);
        var after := RunActs(m, script.acts).0;
        var rowAfter := RowOf(after.table, m.state);
        if command in rowAfter {
          SetStateFollows(after, rowAfter[command].next);
          FollowsTrans(m, after, SetState(after, rowAfter[command].next).0);
        }
      }
    case DoSetState(target) => SetStateFollows(m, target);
    case DoAdd(_, _, _, _) =>
    case DoWatch(_) =>
  }

  /** From the moment a callback is installed its calls form a path: each new state is the next
      call's old state, the first old state is the one held at installation and the last new
      state is the current one - for every run, whatever handlers re-enter or throw. */
  lemma {:induction false} NotificationsFormPath(m: Machine, ops: seq<Op>, oracle: Oracle)
    requires m.watcher.Watcher?
    requires forall i :: 0 <= i < |ops| && ops[i].DoWatch? ==> ops[i].watcher.Watcher?
    ensures Follows(m, RunOps(m, ops, oracle).0)
    ensures RunOps(m, ops, oracle).0.watcher.Watcher?
  {
    if ops == [] {
      assert m.log[|m.log|..] == [];
    } else {
      var last := |ops| - 1;
      NotificationsFormPath(m, ops[..last], oracle);
      var before := RunOps(m, ops[..last], oracle).0;
      StepFollows(before, ops[last], oracle, last);
      FollowsTrans(m, before, RunOps(m, ops, oracle).0);
    }
  }
}
