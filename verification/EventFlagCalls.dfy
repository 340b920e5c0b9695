/** What the calls of an event flag come to, told from the calls' own arguments and the run's steps. */
module EventFlagCalls {
  import opened EventTypes
  import opened EventFlags

  /** The call thread `t` is in, or made last. */
  function Call(acts: seq<Action>, t: nat): Option<Action> {
    if acts == [] then None
    else
      var last := acts[|acts| - 1];
      if last.t == t && (last.CallSet? || last.CallWait?) then Some(last) else Call(acts[..|acts| - 1], t)
  }

  /** The steps of thread `t` since it made that call. */
  function Since(acts: seq<Action>, t: nat): seq<Action> {
    if acts == [] then []
    else
      var front, last := acts[..|acts| - 1], acts[|acts| - 1];
      if last.t != t then Since(front, t)
      else if last.CallSet? || last.CallWait? then []
      else Since(front, t) + [last]
  }

  /** The bits that the set calls have stored so far. */
  function Stored(acts: seq<Action>): set<nat> {
    if acts == [] then {}
    else
      var front, last := acts[..|acts| - 1], acts[|acts| - 1];
      Stored(front)
      + if last.Store? && Call(front, last.t).Some? && Call(front, last.t).value.CallSet?
        then Call(front, last.t).value.bits else {}
  }

  /** The patterns of the AND waits that have found theirs, in the order of their checks. */
  function Equal(acts: seq<Action>): seq<set<nat>> {
    if acts == [] then []
    else
      var front, last := acts[..|acts| - 1], acts[|acts| - 1];
      Equal(front) + EqualBy(front, last)
  }

  function EqualBy(acts: seq<Action>, a: Action): seq<set<nat>> {
    match (a, Call(acts, a.t))
    case (Check(_), Some(CallWait(_, Wait(wanted, AND, _)))) => if wanted == Stored(acts) then [wanted] else []
    case _ => []
  }

  /** What thread `t` has done since its wait timed out, if it has. */
  function SinceTimeOut(acts: seq<Action>, t: nat): Option<seq<Action>> {
    if acts == [] then None
    else
      var last, before := acts[|acts| - 1], SinceTimeOut(acts[..|acts| - 1], t);
      if last.t != t then before
      else if last.CallSet? || last.CallWait? then None
      else if last.TimeOut? then Some([])
      else if before.Some? then Some(before.value + [last])
      else None
  }

  /** Thread `t` evaluated its condition for the last time at step `k` and has done nothing since. */
  ghost predicate Evaluated(acts: seq<Action>, t: nat, k: int) {
    && 0 <= k < |acts| && acts[k] == Check(t)
    && forall j :: k < j < |acts| ==> acts[j].t != t
  }

  /** The outcome of a wait and the check that decided it. */
  ghost predicate Decided(acts: seq<Action>, t: nat, wait: Wait, matched: bool, k: int) {
    && Evaluated(acts, t, k)
    && (matched <==> if wait.mode.AND? then wait.wanted == Stored(acts[..k]) else wait.wanted * Stored(acts[..k]) != {})
    && (!matched ==> wait.timed && SinceTimeOut(acts[..k], t).Some?)
  }

  ghost predicate InCall(acts: seq<Action>, s: Flag, t: nat)
    requires t < |s.pcs|
  {
    var call := Call(acts, t);
    match s.pcs[t]
    case Outside =>
      && (call.Some? && call.value.CallSet? ==> Since(acts, t) == [Acquire(t), Store(t), Unlock(t), NotifyAll(t)])
      && (call.Some? && call.value.CallWait? ==>
            Since(acts, t) != [] && Since(acts, t)[|Since(acts, t)| - 1] == Unlock(t))
    case SetEnter(bits) => call == Some(CallSet(t, bits)) && Since(acts, t) == []
    case SetLocked(bits) => call == Some(CallSet(t, bits)) && Since(acts, t) == [Acquire(t)]
    case SetStored => call.Some? && call.value.CallSet? && Since(acts, t) == [Acquire(t), Store(t)]
    case SetUnlocked => call.Some? && call.value.CallSet? && Since(acts, t) == [Acquire(t), Store(t), Unlock(t)]
    case WaitEnter(wait, last) => call == Some(CallWait(t, wait)) && (last ==> wait.timed)
    case WaitChecking(wait, last) => call == Some(CallWait(t, wait)) && (last ==> wait.timed)
    case WaitParking(wait) => call == Some(CallWait(t, wait))
    case Parked(wait) => call == Some(CallWait(t, wait))
    case WaitLeaving(matched) =>
      call.Some? && call.value.CallWait? && exists k :: Decided(acts, t, call.value.wait, matched, k)
  }

  /** A wait remembers its time-out, and then goes straight to its end. */
  ghost predicate InTime(acts: seq<Action>, s: Flag, t: nat)
    requires t < |s.pcs|
  {
    var up := SinceTimeOut(acts, t);
    match s.pcs[t]
    case Outside => up.Some? ==> up.value == [Acquire(t), Check(t), Unlock(t)]
    case WaitEnter(wait, last) => up == if last then Some([]) else None
    case WaitChecking(wait, last) => up == if last then Some([Acquire(t)]) else None
    case WaitLeaving(_) => up.Some? ==> up.value == [Acquire(t), Check(t)]
    case _ => up == None
  }

  ghost predicate Told(acts: seq<Action>, s: Flag) {
    && s.pattern == Stored(acts) && s.equalities == Equal(acts)
    && forall t: nat :: t < |s.pcs| ==> InCall(acts, s, t) && InTime(acts, s, t)
  }

  // ---- Preservation -------------------------------------------------------------------------------

  lemma Grow(acts: seq<Action>, a: Action, t: nat)
    ensures Call(acts + [a], t) == if a.t == t && (a.CallSet? || a.CallWait?) then Some(a) else Call(acts, t)
    ensures Since(acts + [a], t)
      == if a.t != t then Since(acts, t) else if a.CallSet? || a.CallWait? then [] else Since(acts, t) + [a]
    ensures Stored(acts + [a])
      == Stored(acts) + if a.Store? && Call(acts, a.t).Some? && Call(acts, a.t).value.CallSet?
                        then Call(acts, a.t).value.bits else {}
    ensures Equal(acts + [a]) == Equal(acts) + EqualBy(acts, a)
    ensures SinceTimeOut(acts + [a], t)
      == if a.t != t then SinceTimeOut(acts, t)
         else if a.CallSet? || a.CallWait? then None
         else if a.TimeOut? then Some([])
         else if SinceTimeOut(acts, t).Some? then Some(SinceTimeOut(acts, t).value + [a]) else None
  {
    assert (acts + [a])[..|acts|] == acts;
  }

  lemma DecidedStays(acts: seq<Action>, a: Action, t: nat, wait: Wait, matched: bool, k: int)
    requires Decided(acts, t, wait, matched, k) && a.t != t
    ensures Decided(acts + [a], t, wait, matched, k)
  {
    assert (acts + [a])[..k] == acts[..k];
  }

  lemma OthersStay(s: Flag, a: Action, t: nat)
    requires Enabled(s, a) && t < |s.pcs| && a.t != t
    ensures t < |Apply(s, a).pcs| && Apply(s, a).pcs[t] == if a.NotifyAll? then Wake(s.pcs[t]) else s.pcs[t]
  {
  }

  lemma OthersKeepCall(acts: seq<Action>, s: Flag, a: Action, t: nat)
    requires Enabled(s, a) && t < |s.pcs| && a.t != t && InCall(acts, s, t) && InTime(acts, s, t)
    ensures t < |Apply(s, a).pcs| && InCall(acts + [a], Apply(s, a), t) && InTime(acts + [a], Apply(s, a), t)
  {
    Grow(acts, a, t);
    OthersStay(s, a, t);
    if s.pcs[t].WaitLeaving? {
      var k :| Decided(acts, t, Call(acts, t).value.wait, s.pcs[t].matched, k);
      DecidedStays(acts, a, t, Call(acts, t).value.wait, s.pcs[t].matched, k);
    }
  }

  lemma CheckKeepsCall(acts: seq<Action>, s: Flag, t: nat)
    requires Enabled(s, Check(t)) && s.pattern == Stored(acts) && InCall(acts, s, t) && InTime(acts, s, t)
    ensures InCall(acts + [Check(t)], Apply(s, Check(t)), t)
  {
    Grow(acts, Check(t), t);
    var after := Apply(s, Check(t)).pcs[t];
    if after.WaitLeaving? {
      assert (acts + [Check(t)])[..|acts|] == acts;
      assert Decided(acts + [Check(t)], t, s.pcs[t].wait, after.matched, |acts|);
    }
  }

  lemma OwnKeepsCall(acts: seq<Action>, s: Flag, a: Action)
    requires Enabled(s, a) && !a.Check? && InCall(acts, s, a.t)
    ensures InCall(acts + [a], Apply(s, a), a.t)
  {
    Grow(acts, a, a.t);
  }

  lemma OwnKeepsTime(acts: seq<Action>, s: Flag, a: Action)
    requires Enabled(s, a) && InTime(acts, s, a.t)
    ensures InTime(acts + [a], Apply(s, a), a.t)
  {
    Grow(acts, a, a.t);
    assert [] + [Acquire(a.t)] == [Acquire(a.t)];
    assert [Acquire(a.t)] + [Check(a.t)] == [Acquire(a.t), Check(a.t)];
    assert [Acquire(a.t), Check(a.t)] + [Unlock(a.t)] == [Acquire(a.t), Check(a.t), Unlock(a.t)];
  }

  lemma RecordStep(acts: seq<Action>, s: Flag, a: Action)
    requires Enabled(s, a) && InCall(acts, s, a.t) && s.pattern == Stored(acts) && s.equalities == Equal(acts)
    ensures Apply(s, a).pattern == Stored(acts + [a]) && Apply(s, a).equalities == Equal(acts + [a])
    ensures |Apply(s, a).pcs| == |s.pcs|
  {
    Grow(acts, a, a.t);
  }

  lemma ThreadStep(acts: seq<Action>, s: Flag, a: Action, t: nat)
    requires Enabled(s, a) && t < |s.pcs| && InCall(acts, s, t) && InTime(acts, s, t) && s.pattern == Stored(acts)
    ensures t < |Apply(s, a).pcs| && InCall(acts + [a], Apply(s, a), t) && InTime(acts + [a], Apply(s, a), t)
  {
    if a.t != t {
      OthersKeepCall(acts, s, a, t);
    } else {
      OwnKeepsTime(acts, s, a);
      if a.Check? { CheckKeepsCall(acts, s, t); } else { OwnKeepsCall(acts, s, a); }
    }
  }

  lemma ToldStep(acts: seq<Action>, s: Flag, a: Action)
    requires Told(acts, s) && Enabled(s, a)
    ensures Told(acts + [a], Apply(s, a)) && |Apply(s, a).pcs| == |s.pcs|
  {
    assert InCall(acts, s, a.t);
    RecordStep(acts, s, a);
    forall t: nat | t < |s.pcs|
      ensures InCall(acts + [a], Apply(s, a), t) && InTime(acts + [a], Apply(s, a), t)
    {
      assert InCall(acts, s, t);
      ThreadStep(acts, s, a, t);
    }
  }

  /** What holds of an initial record and is kept by every step holds of every run. */
  lemma {:induction false} RunInduction(
    holds: (seq<Action>, Flag) -> bool, done: seq<Action>, s: Flag, acts: seq<Action>)
    requires holds(done, s) && Legal(s, acts)
    requires forall d, t, a :: holds(d, t) && Enabled(t, a) ==> holds(d + [a], Apply(t, a))
    ensures holds(done + acts, After(s, acts))
    decreases |acts|
  {
    if acts == [] {
      assert done + acts == done;
    } else {
      RunInduction(holds, done + [acts[0]], Apply(s, acts[0]), acts[1..]);
      assert done + [acts[0]] + acts[1..] == done + acts;
    }
  }

  lemma EveryRunIsTold(threads: nat, acts: seq<Action>)
    requires Legal(Init(threads), acts)
    ensures Told(acts, After(Init(threads), acts)) && |After(Init(threads), acts).pcs| == threads
  {
    var holds := (d: seq<Action>, t: Flag) => Told(d, t) && |t.pcs| == threads;
    forall d, t, a | holds(d, t) && Enabled(t, a) ensures holds(d + [a], Apply(t, a)) {
      ToldStep(d, t, a);
    }
    RunInduction(holds, [], Init(threads), acts);
    assert [] + acts == acts;
  }

  lemma {:induction false} LastStep(s: Flag, acts: seq<Action>, a: Action)
    requires Legal(s, acts + [a])
    ensures Legal(s, acts) && Enabled(After(s, acts), a) && After(s, acts + [a]) == Apply(After(s, acts), a)
    decreases |acts|
  {
    if acts == [] {
      assert (acts + [a])[1..] == [];
    } else {
      assert (acts + [a])[1..] == acts[1..] + [a];
      LastStep(Apply(s, acts[0]), acts[1..], a);
    }
  }

  // ---- Theorems -----------------------------------------------------------------------------------

  /** How a wait ends, in every run. It was decided by the thread's own last check: `true` exactly if
      the bits stored until then are the wanted ones (AND) or meet them (OR). A wait without time-out
      never ends with `false`, and a timed one only if it has timed out since it was called. */
  lemma WaitReturnsItsCondition(threads: nat, acts: seq<Action>, t: nat)
    requires Legal(Init(threads), acts + [Unlock(t)])
    requires Call(acts, t).Some? && Call(acts, t).value.CallWait?
    ensures Legal(Init(threads), acts)
    ensures exists matched, k ::
              && After(Init(threads), acts + [Unlock(t)]).results
                 == After(Init(threads), acts).results + [Return(t, matched)]
              && Evaluated(acts, t, k)
              && var wait := Call(acts, t).value.wait;
                 && (wait.mode == AND ==> (matched <==> wait.wanted == Stored(acts[..k])))
                 && (wait.mode == OR ==> (matched <==> wait.wanted * Stored(acts[..k]) != {}))
                 && (!matched ==> wait.timed && SinceTimeOut(acts[..k], t).Some?)
  {
    LastStep(Init(threads), acts, Unlock(t));
    EveryRunIsTold(threads, acts);
    var s := After(Init(threads), acts);
    assert InCall(acts, s, t);
    var k :| Decided(acts, t, Call(acts, t).value.wait, s.pcs[t].matched, k);
    assert After(Init(threads), acts + [Unlock(t)]).results == s.results + [Return(t, s.pcs[t].matched)];
  }

  /** A wait returns only by that step, and only a wait does. */
  lemma OnlyWaitsReturn(threads: nat, acts: seq<Action>, a: Action)
    requires Legal(Init(threads), acts + [a])
    ensures Legal(Init(threads), acts)
    ensures After(Init(threads), acts + [a]).results != After(Init(threads), acts).results
            <==> a.Unlock? && Call(acts, a.t).Some? && Call(acts, a.t).value.CallWait?
  {
    LastStep(Init(threads), acts, a);
    EveryRunIsTold(threads, acts);
    assert InCall(acts, After(Init(threads), acts), a.t);
  }

  /** The pattern is exactly what the set calls have stored; and a thread that is outside has done all
      of its last call: a set stored its bits under the mutex and notified after releasing it. */
  lemma CallsAreWhole(threads: nat, acts: seq<Action>, t: nat)
    requires Legal(Init(threads), acts) && t < threads
    ensures After(Init(threads), acts).pattern == Stored(acts)
    ensures t < |After(Init(threads), acts).pcs|
    ensures After(Init(threads), acts).pcs[t].Outside? && Call(acts, t).Some? ==>
              var call, steps := Call(acts, t).value, Since(acts, t);
              if call.CallSet? then steps == [Acquire(t), Store(t), Unlock(t), NotifyAll(t)]
              else steps != [] && steps[|steps| - 1] == Unlock(t)
  {
    EveryRunIsTold(threads, acts);
    assert InCall(acts, After(Init(threads), acts), t);
    CallIsACall(acts, t);
  }

  /** A wait whose time is up does nothing more but take the mutex, check once more and return. */
  lemma TimedOutWaitEnds(threads: nat, acts: seq<Action>, t: nat)
    requires Legal(Init(threads), acts) && t < threads
    ensures SinceTimeOut(acts, t).Some? ==> SinceTimeOut(acts, t).value <= [Acquire(t), Check(t), Unlock(t)]
  {
    EveryRunIsTold(threads, acts);
    assert InTime(acts, After(Init(threads), acts), t);
  }

  /** The patterns of the AND waits that found theirs form an increasing chain below all that is stored. */
  lemma MetEqualitiesFormChain(threads: nat, acts: seq<Action>)
    requires Legal(Init(threads), acts)
    ensures forall i, j :: 0 <= i <= j < |Equal(acts)| ==> Equal(acts)[i] <= Equal(acts)[j] <= Stored(acts)
  {
    EveryRunIsTold(threads, acts);
    RunKeeps(Init(threads), acts);
  }

  lemma {:induction false} CallIsACall(acts: seq<Action>, t: nat)
    ensures Call(acts, t).Some? ==> Call(acts, t).value.CallSet? || Call(acts, t).value.CallWait?
  {
    if acts != [] {
      CallIsACall(acts[..|acts| - 1], t);
    }
  }

  /** Nobody is stuck: outside a thread can make any call; inside it has a step of its own, unless it
      wants the mutex that another thread holds, or waits; and a timed wait can always time out. */
  lemma ThreadsGoOn(s: Flag, t: nat)
    requires Inv(s) && t < |s.pcs|
    ensures s.pcs[t].Outside? ==> forall bits :: Enabled(s, CallSet(t, bits))
    ensures s.pcs[t].Outside? ==> forall wait :: Enabled(s, CallWait(t, wait))
    ensures s.pcs[t].Parked? ==> (s.pcs[t].wait.timed <==> Enabled(s, TimeOut(t)))
    ensures !s.pcs[t].Outside? && !s.pcs[t].Parked? ==>
              || (exists a: Action :: a.t == t && Enabled(s, a))
              || ((s.pcs[t].SetEnter? || s.pcs[t].WaitEnter?) && s.owner.Some? && s.owner.value != t)
  {
    match s.pcs[t]
    case SetEnter(_) => assert s.owner.None? ==> Enabled(s, Acquire(t));
    case WaitEnter(_, _) => assert s.owner.None? ==> Enabled(s, Acquire(t));
    case SetLocked(_) => assert Enabled(s, Store(t));
    case SetStored => assert Enabled(s, Unlock(t));
    case SetUnlocked => assert Enabled(s, NotifyAll(t));
    case WaitChecking(_, _) => assert Enabled(s, Check(t));
    case WaitParking(_) => assert Enabled(s, Park(t));
    case WaitLeaving(_) => assert Enabled(s, Unlock(t));
    case _ =>
  }
}
