/** The objects of include/Task/MessageEventAggregator.hpp and include/Task/StateMachine.hpp:
    maps changed in place, and a current-row pointer into the table. */
module StateMachineObjects {
  import opened EventTypes
  import opened StateMachines

  /** One row of the table. The table and the machine's current pointer share it. */
  class EventAggregator {
    var events: Row
    ghost const home: State  // the key of the map node it lives in

    constructor (ghost home: State)
      ensures events == map[] && this.home == home
    {
      events := map[];
      this.home := home;
    }

    method Add(command: Command, handler: HandlerId, next: State)
      modifies this
      ensures events == AddEntry(old(events), command, Entry(handler, next))
    {
      if command !in events {
        events := events[command := Entry(handler, next)];
      }
    }

    method GetNextState(command: Command) returns (next: Option<State>)
      ensures next == if command in events then Some(events[command].next) else None
    {
      next := if command in events then Some(events[command].next) else None;
    }
  }

  class StateMachine {
    var table: map<State, EventAggregator>
    var state: State
    var row: EventAggregator?
    var watcher: Watcher
    ghost var log: seq<(State, State)>

    /** The pointer, once set, is the table's own row of the current state; map nodes are distinct. */
    ghost predicate Valid()
      reads this
    {
      && (row != null ==> state in table && table[state] == row)
      && (forall s :: s in table ==> table[s].home == s)
    }

    ghost function View(): Machine
      reads this, table.Values
    {
      Machine(map s | s in table :: table[s].events, state, row != null, watcher, log)
    }

    constructor ()
      ensures Valid() && View() == BLANK && fresh(table.Values)
    {
      table, state, row, watcher, log := map[], UNDEFINED_STATE, null, NoWatcher, [];
    }

    /** `table_[from]`: the row of a state, made empty if it was missing. */
    method At(from: State) returns (node: EventAggregator)
      requires Valid()
      modifies this`table
      ensures Valid() && from in table && table[from] == node
      ensures View() == old(View()).(table := old(View()).table[from := RowOf(old(View()).table, from)])
      ensures from in old(table) ==> table == old(table)
      ensures from !in old(table) ==> table == old(table)[from := node] && fresh(node) && node.events == map[]
    {
      if from !in table {
        node := new EventAggregator(from);
        table := table[from := node];
      } else {
        node := table[from];
      }
      assert View().table == old(View()).table[from := RowOf(old(View()).table, from)];
    }

    /** An emplace into the row of a state, seen through the whole table. */
    method Emplace(node: EventAggregator, from: State, command: Command, handler: HandlerId, next: State)
      requires Valid() && from in table && table[from] == node
      modifies node
      ensures Valid()
      ensures View() == old(View()).(table := AddTo(old(View()).table, from, command, Entry(handler, next)))
    {
      ghost var before := old(View()).table;
      node.Add(command, handler, next);
      assert forall s :: s in table && s != from ==> table[s].events == before[s];
      assert View().table == before[from := node.events];
    }

    method Add(from: State, command: Command, handler: HandlerId, next: State)
      requires Valid()
      modifies this, table.Values
      ensures Valid() && fresh(table.Values - old(table.Values))
      ensures forall s :: s in old(table) ==> s in table && table[s] == old(table[s])
      ensures row == old(row)
      ensures View() == old(View()).(table := AddTo(old(View()).table, from, command, Entry(handler, next)))
    {
      var node := At(from);
      Emplace(node, from, command, handler, next);
    }

    method SetState(target: State) returns (error: Option<Error>)
      requires Valid()
      modifies this
      ensures Valid() && table == old(table)
      ensures (View(), error) == StateMachines.SetState(old(View()), target)
    {
      var current := state;
      if target !in table {
        return Some(StateNotFound);
      }
      state, row := target, table[target];
      error := None;
      match watcher {
        case NoWatcher =>
        case Watcher(reaction) =>
          log := log + [(current, target)];
          match reaction(current, target) {
            case None =>
            case Some(OutOfRangeFault) => error := Some(StateNotFound);
            case Some(fault) => error := Some(Escaped(fault));
          }
      }
      assert View().table == old(View()).table;
    }

    /** A handler's calls on its machine, up to the first that throws. */
    method RunActs(acts: seq<Act>) returns (error: Option<Error>)
      requires Valid()
      modifies this, table.Values
      ensures Valid() && fresh(table.Values - old(table.Values))
      ensures forall s :: s in old(table) ==> s in table && table[s] == old(table[s])
      ensures (View(), error) == StateMachines.RunActs(old(View()), acts)
      decreases |acts|
    {
      if acts == [] {
        return None;
      }
      match acts[0] {
        case Goto(target) =>
          error := SetState(target);
          if error.Some? {
            return;
          }
        case Register(from, command, handler, next) =>
          Add(from, command, handler, next);
      }
      error := RunActs(acts[1..]);
    }

    method Publish(command: Command, req: Request, oracle: Oracle, turn: nat) returns (reply: Reply)
      requires Valid()
      modifies this, table.Values
      ensures Valid() && fresh(table.Values - old(table.Values))
      ensures (View(), reply) == StateMachines.Publish(old(View()), command, req, oracle, turn)
    {
      var current := row;
      if current == null {
        return Failure(NotInitialized);
      }
      if command !in current.events {
        return Failure(EventNotFound);
      }
      ghost var from := state;
      var script := oracle(current.events[command].handler, req, turn);
      var error := RunActs(script.acts);
      if error.Some? {
        return Failure(error.value);
      }
      match script.end {
        case Raises(OutOfRangeFault) => return Failure(EventNotFound);
        case Raises(fault) => return Failure(Escaped(fault));
        case Returns(false) => return Value(false);
        case Returns(true) =>
      }
      assert table[from] == current;
      var next := current.GetNextState(command);
      if next.None? {
        return Failure(EventNotFound);
      }
      reply := Value(true);
      if next.value != KEEP_STATE && state != next.value {
        error := SetState(next.value);
        reply := if error.Some? then Failure(error.value) else Value(true);
      }
    }
  }
}
