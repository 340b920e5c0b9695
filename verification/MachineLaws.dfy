/** What the machine means: a Mealy machine over a pure table, and a table that is the
    first-wins reading of the registrations that built it. */
module MachineLaws {
  import opened EventTypes
  import opened StateMachines

  // ---- Mealy reading ------------------------------------------------------------------------

  /** Handlers that make no calls on their own machine. */
  ghost predicate Quiet(oracle: Oracle) {
    forall h, r, k :: oracle(h, r, k).acts == []
  }

  /** A callback that never throws. */
  ghost predicate Silent(watcher: Watcher) {
    watcher.Watcher? ==> forall a, b :: watcher.reaction(a, b) == None
  }

  /** One step of the Mealy machine a table denotes: next state and output from the state alone,
      with no row pointer, no callback and no mutation. */
  function Mealy(table: Table, state: State, req: Request, oracle: Oracle, turn: nat): (State, Reply) {
    var row := RowOf(table, state);
    if req.command !in row then (state, Failure(EventNotFound))
    else
      var entry := row[req.command];
      match oracle(entry.handler, req, turn).end
      case Raises(OutOfRangeFault) => (state, Failure(EventNotFound))
      case Raises(fault) => (state, Failure(Escaped(fault)))
      case Returns(false) => (state, Value(false))
      case Returns(true) =>
        if entry.next in {KEEP_STATE, state} then (state, Value(true))
        else if entry.next in table then (entry.next, Value(true))
        else (state, Failure(StateNotFound))
  }

  /** A publish with quiet handlers and a silent callback is one Mealy step. The machine changes
      only if the Mealy state does, and then by exactly one callback call: rejected, keep-state,
      unknown-command and unknown-target publishes leave the whole machine as it was. */
  lemma PublishIsMealy(m: Machine, req: Request, oracle: Oracle, turn: nat)
    requires m.bound && RowIsCurrent(m) && Quiet(oracle) && Silent(m.watcher)
    ensures var (after, reply) := Publish(m, req.command, req, oracle, turn);
            var (state, output) := Mealy(m.table, m.state, req, oracle, turn);
            && reply == output
            && after == if state == m.state then m else
                        m.(state := state,
                           log := if m.watcher.Watcher? then m.log + [(m.state, state)] else m.log)
  {
    var row := RowOf(m.table, m.state);
    if req.command in row {
      assert oracle(row[req.command].handler, req, turn).acts == [];
      assert RunActs(m, []) == (m, None);
    }
  }

  // ---- Builder calls --------------------------------------------------------------------------

  datatype Call = Call(from: State, command: Command, entry: Entry)

  function Build(calls: seq<Call>): Table {
    if calls == [] then map[]
    else
      var last := calls[|calls| - 1];
      AddTo(Build(calls[..|calls| - 1]), last.from, last.command, last.entry)
  }

  /** The first call that names the pair, searching from the front. */
  function First(calls: seq<Call>, state: State, command: Command): Option<Entry> {
    if calls == [] then None
    else if calls[0].from == state && calls[0].command == command then Some(calls[0].entry)
    else First(calls[1..], state, command)
  }

  function Lookup(table: Table, state: State, command: Command): Option<Entry> {
    if command in RowOf(table, state) then Some(RowOf(table, state)[command]) else None
  }

  /** The table says of every pair what the first call naming it said, and has no other row. */
  ghost predicate FirstWins(table: Table, calls: seq<Call>) {
    && (forall s, c :: Lookup(table, s, c) == First(calls, s, c))
    && (forall s :: s in table <==> exists i :: 0 <= i < |calls| && calls[i].from == s)
  }

  lemma {:induction false} FirstOfAppended(calls: seq<Call>, more: Call, s: State, c: Command)
    ensures First(calls + [more], s, c)
            == if First(calls, s, c).Some? then First(calls, s, c) else First([more], s, c)
  {
    if calls == [] {
      assert calls + [more] == [more];
    } else {
      assert (calls + [more])[1..] == calls[1..] + [more];
      FirstOfAppended(calls[1..], more, s, c);
    }
  }

  lemma {:induction false} FirstMeans(calls: seq<Call>, s: State, c: Command)
    ensures First(calls, s, c).Some? ==> Call(s, c, First(calls, s, c).value) in calls
    ensures First(calls, s, c).None? <==> forall call :: call in calls ==> call.from != s || call.command != c
  {
    if calls != [] {
      FirstMeans(calls[1..], s, c);
      assert forall call :: call in calls <==> call == calls[0] || call in calls[1..];
    }
  }

  lemma AddedLookup(table: Table, call: Call, s: State, c: Command)
    ensures Lookup(AddTo(table, call.from, call.command, call.entry), s, c)
            == if Lookup(table, s, c).Some? then Lookup(table, s, c) else First([call], s, c)
  {
    assert [call][1..] == [];
  }

  /** Registration by registration, the built table is the first-wins table of the calls. */
  lemma {:induction false} BuiltTableIsFirstWins(calls: seq<Call>)
    ensures FirstWins(Build(calls), calls)
  {
    if calls != [] {
      var front, last := calls[..|calls| - 1], calls[|calls| - 1];
      BuiltTableIsFirstWins(front);
      assert calls == front + [last];
      forall s, c ensures Lookup(Build(calls), s, c) == First(calls, s, c) {
        FirstOfAppended(front, last, s, c);
        AddedLookup(Build(front), last, s, c);
        assert Lookup(Build(front), s, c) == First(front, s, c);
      }
      BuiltRows(calls);
    }
  }

  lemma {:induction false} BuiltRows(calls: seq<Call>)
    ensures forall s :: s in Build(calls) <==> exists i :: 0 <= i < |calls| && calls[i].from == s
  {
    if calls != [] {
      var front, last := calls[..|calls| - 1], calls[|calls| - 1];
      BuiltRows(front);
      assert forall i :: 0 <= i < |front| ==> front[i] == calls[i];
      forall s ensures s in Build(calls) <==> exists i :: 0 <= i < |calls| && calls[i].from == s {
        assert s in Build(calls) <==> s in Build(front) || s == last.from;
        if s in Build(front) {
          var i :| 0 <= i < |front| && front[i].from == s;
          assert calls[i].from == s;
        } else if s == last.from {
          assert calls[|calls| - 1].from == s;
        }
      }
    }
  }

  lemma FirstWinsIsUnique(a: Table, b: Table, calls: seq<Call>)
    requires FirstWins(a, calls) && FirstWins(b, calls)
    ensures a == b
  {
    assert a.Keys == b.Keys by {
      forall s ensures s in a <==> s in b {}
    }
    forall s | s in a ensures a[s] == b[s] {
      forall c ensures c in a[s] <==> c in b[s] {
        assert Lookup(a, s, c) == Lookup(b, s, c);
      }
      forall c | c in a[s] ensures a[s][c] == b[s][c] {
        assert Lookup(a, s, c) == Lookup(b, s, c);
      }
    }
  }

  /** Two call lists build the same table exactly when they agree on every pair's first call. */
  lemma SameTableIffSameFirsts(a: seq<Call>, b: seq<Call>)
    ensures Build(a) == Build(b) <==> forall s, c :: First(a, s, c) == First(b, s, c)
  {
    BuiltTableIsFirstWins(a);
    BuiltTableIsFirstWins(b);
    if forall s, c :: First(a, s, c) == First(b, s, c) {
      forall s ensures s in Build(a) ==> s in Build(b) { SameRows(a, b, s); }
      forall s ensures s in Build(b) ==> s in Build(a) { SameRows(b, a, s); }
      assert FirstWins(Build(b), a);
      FirstWinsIsUnique(Build(a), Build(b), a);
    } else {
      var s, c :| First(a, s, c) != First(b, s, c);
      assert Lookup(Build(a), s, c) == First(a, s, c);
      assert Lookup(Build(b), s, c) == First(b, s, c);
    }
  }

  lemma SameRows(a: seq<Call>, b: seq<Call>, s: State)
    requires forall s, c :: First(a, s, c) == First(b, s, c)
    ensures s in Build(a) ==> s in Build(b)
  {
    BuiltTableIsFirstWins(a);
    BuiltTableIsFirstWins(b);
    if s in Build(a) {
      var i :| 0 <= i < |a| && a[i].from == s;
      FirstMeans(a, s, a[i].command);
      FirstMeans(b, s, a[i].command);
      assert First(a, s, a[i].command) == First(b, s, a[i].command);
    }
  }

  ghost predicate DistinctPairs(calls: seq<Call>) {
    forall i, j :: 0 <= i < j < |calls| ==> calls[i].from != calls[j].from || calls[i].command != calls[j].command
  }

  /** Reordering registrations of distinct pairs builds the same table. */
  lemma PermutedCallsBuildSameTable(a: seq<Call>, b: seq<Call>)
    requires DistinctPairs(a) && multiset(a) == multiset(b)
    ensures Build(a) == Build(b)
  {
    assert forall call :: call in a <==> call in multiset(a);
    assert forall call :: call in b <==> call in multiset(b);
    forall s, c ensures First(a, s, c) == First(b, s, c) {
      FirstMeans(a, s, c);
      FirstMeans(b, s, c);
    }
    SameTableIffSameFirsts(a, b);
  }

  // ---- Builder against table constructor -----------------------------------------------------

  /** The constructor that takes a table: copy it and enter the initial state. */
  function Construct(table: Table, initial: State): (Machine, Option<Error>) {
    SetState(BLANK.(table := table), initial)
  }

  function AddOps(calls: seq<Call>): seq<Op> {
    seq(|calls|, i requires 0 <= i < |calls| =>
      DoAdd(calls[i].from, calls[i].command, calls[i].entry.handler, calls[i].entry.next))
  }

  lemma {:induction false} AddOpsBuild(calls: seq<Call>, oracle: Oracle)
    ensures RunOps(BLANK, AddOps(calls), oracle).0 == BLANK.(table := Build(calls))
  {
    if calls == [] {
      assert AddOps(calls) == [];
    } else {
      var front := calls[..|calls| - 1];
      AddOpsBuild(front, oracle);
      assert AddOps(calls)[..|calls| - 1] == AddOps(front);
    }
  }

  /** A machine built by `add` calls and `init` is, for every call list and every later run, the
      machine constructed from the first-wins table: the same success or failure of the
      initialisation, the same states and the same replies. */
  lemma BuilderAgreesWithTable(calls: seq<Call>, table: Table, initial: State, ops: seq<Op>, oracle: Oracle)
    requires FirstWins(table, calls)
    ensures var built := RunOps(BLANK, AddOps(calls), oracle).0;
            && SetState(built, initial) == Construct(table, initial)
            && (SetState(built, initial).1.None? <==> exists i :: 0 <= i < |calls| && calls[i].from == initial)
            && RunOps(SetState(built, initial).0, ops, oracle) == RunOps(Construct(table, initial).0, ops, oracle)
  {
    AddOpsBuild(calls, oracle);
    BuiltTableIsFirstWins(calls);
    FirstWinsIsUnique(table, Build(calls), calls);
  }
}
