/** The event flag of lib/Sync/EventFlag.cpp: a 64-bit pattern that setters OR into under a mutex and
    announce after unlocking, and waiters that wait for equality (AND) or intersection (OR). */
module EventFlags {
  import opened EventTypes

  /** A 64-bit word, given by the positions of its one-bits: `|` is union, `&` intersection. */
  type Bits = b: set<nat> | forall p :: p in b ==> p < 64

  datatype MatchMode = AND | OR

  predicate Match(current: Bits, wanted: Bits, mode: MatchMode) {
    if mode.AND? then wanted == current else wanted * current != {}
  }

  /** A wait: what for, and whether it may time out. */
  datatype Wait = Wait(wanted: Bits, mode: MatchMode, timed: bool)

  datatype Pc =
    | Outside
    | SetEnter(bits: Bits) | SetLocked(bits: Bits)
    | SetStored                              // ORed in, still holds the mutex
    | SetUnlocked                            // mutex released, not yet notified
    | WaitEnter(wait: Wait, last: bool)      // wants the mutex; `last`: the wait has timed out
    | WaitChecking(wait: Wait, last: bool)
    | WaitParking(wait: Wait)                // no match, about to wait
    | Parked(wait: Wait)
    | WaitLeaving(matched: bool)

  predicate Holds(pc: Pc) {
    pc.SetLocked? || pc.SetStored? || pc.WaitChecking? || pc.WaitParking? || pc.WaitLeaving?
  }

  /** A wait by thread `t` has returned; `matched` is what a timed one returns. */
  datatype Return = Return(t: nat, matched: bool)

  /** `sets` records the arguments ORed in; `equalities` the patterns of successful AND waits, by
      time of match; `results` the ends of the waits. */
  datatype Flag = Flag(pattern: Bits, owner: Option<nat>, pcs: seq<Pc>, sets: seq<Bits>, equalities: seq<Bits>,
                       results: seq<Return>)

  function Init(threads: nat): Flag {
    Flag({}, None, seq(threads, _ => Outside), [], [], [])
  }

  datatype Action =
    | CallSet(t: nat, bits: Bits) | CallWait(t: nat, wait: Wait)
    | Acquire(t: nat) | Store(t: nat) | Unlock(t: nat) | NotifyAll(t: nat)
    | Check(t: nat) | Park(t: nat) | SpuriousWake(t: nat) | TimeOut(t: nat)

  predicate Enabled(s: Flag, a: Action) {
    && a.t < |s.pcs|
    && var pc := s.pcs[a.t];
       match a
       case CallSet(_, _) => pc.Outside?
       case CallWait(_, _) => pc.Outside?
       case Acquire(_) => (pc.SetEnter? || pc.WaitEnter?) && s.owner.None?
       case Store(_) => pc.SetLocked?
       case Unlock(_) => pc.SetStored? || pc.WaitLeaving?
       case NotifyAll(_) => pc.SetUnlocked?
       case Check(_) => pc.WaitChecking?
       case Park(_) => pc.WaitParking?
       case SpuriousWake(_) => pc.Parked?
       case TimeOut(_) => pc.Parked? && pc.wait.timed
  }

  function Wake(pc: Pc): Pc {
    if pc.Parked? then WaitEnter(pc.wait, false) else pc
  }

  function WakeAll(pcs: seq<Pc>): seq<Pc> {
    seq(|pcs|, i requires 0 <= i < |pcs| => Wake(pcs[i]))
  }

  function Apply(s: Flag, a: Action): Flag
    requires Enabled(s, a)
  {
    var t, pc := a.t, s.pcs[a.t];
    match a
    case CallSet(_, bits) => s.(pcs := s.pcs[t := SetEnter(bits)])
    case CallWait(_, wait) => s.(pcs := s.pcs[t := WaitEnter(wait, false)])
    case Acquire(_) =>
      s.(owner := Some(t),
         pcs := s.pcs[t := if pc.SetEnter? then SetLocked(pc.bits) else WaitChecking(pc.wait, pc.last)])
    case Store(_) => s.(pattern := s.pattern + pc.bits, sets := s.sets + [pc.bits], pcs := s.pcs[t := SetStored])
    case Unlock(_) =>
      if pc.SetStored? then s.(owner := None, pcs := s.pcs[t := SetUnlocked])
      else s.(owner := None, pcs := s.pcs[t := Outside], results := s.results + [Return(t, pc.matched)])
    case NotifyAll(_) => s.(pcs := WakeAll(s.pcs)[t := Outside])
    case Check(_) =>
      if Match(s.pattern, pc.wait.wanted, pc.wait.mode) then
        s.(pcs := s.pcs[t := WaitLeaving(true)],
           equalities := if pc.wait.mode.AND? then s.equalities + [pc.wait.wanted] else s.equalities)
      else s.(pcs := s.pcs[t := if pc.last then WaitLeaving(false) else WaitParking(pc.wait)])
    case Park(_) => s.(owner := None, pcs := s.pcs[t := Parked(pc.wait)])
    case SpuriousWake(_) => s.(pcs := s.pcs[t := WaitEnter(pc.wait, false)])
    case TimeOut(_) => s.(pcs := s.pcs[t := WaitEnter(pc.wait, true)])
  }

  ghost predicate Legal(s: Flag, acts: seq<Action>)
    decreases |acts|
  {
    acts != [] ==> Enabled(s, acts[0]) && Legal(Apply(s, acts[0]), acts[1..])
  }

  ghost function After(s: Flag, acts: seq<Action>): Flag
    requires Legal(s, acts)
    decreases |acts|
  {
    if acts == [] then s else After(Apply(s, acts[0]), acts[1..])
  }

  /** The bitwise OR of all arguments. */
  function OrAll(sets: seq<Bits>): Bits {
    if sets == [] then {} else OrAll(sets[..|sets| - 1]) + sets[|sets| - 1]
  }

  // ---- Invariant ----------------------------------------------------------------------------------

  ghost predicate Exclusive(s: Flag) {
    && (s.owner.Some? ==> s.owner.value < |s.pcs|)
    && forall t :: 0 <= t < |s.pcs| ==> (Holds(s.pcs[t]) <==> s.owner == Some(t))
  }

  ghost predicate SetterPending(s: Flag) {
    exists t :: 0 <= t < |s.pcs| && (s.pcs[t].SetStored? || s.pcs[t].SetUnlocked?)
  }

  /** A waiter waits although its condition holds only while a setter still has to notify. */
  ghost predicate NoLostWakeup(s: Flag) {
    && (forall t :: 0 <= t < |s.pcs| && s.pcs[t].WaitParking? ==>
          !Match(s.pattern, s.pcs[t].wait.wanted, s.pcs[t].wait.mode))
    && (forall t :: 0 <= t < |s.pcs| && s.pcs[t].Parked? ==>
          Match(s.pattern, s.pcs[t].wait.wanted, s.pcs[t].wait.mode) ==> SetterPending(s))
  }

  /** Successful AND waits form a chain below the pattern. */
  ghost predicate Chain(s: Flag) {
    && (forall i, j :: 0 <= i <= j < |s.equalities| ==> s.equalities[i] <= s.equalities[j])
    && (forall i :: 0 <= i < |s.equalities| ==> s.equalities[i] <= s.pattern)
  }

  ghost predicate Inv(s: Flag) {
    Exclusive(s) && s.pattern == OrAll(s.sets) && NoLostWakeup(s) && Chain(s)
  }

  lemma ExclusiveStep(s: Flag, a: Action)
    requires Exclusive(s) && Enabled(s, a)
    ensures Exclusive(Apply(s, a))
  {
  }

  lemma WakeupStep(s: Flag, a: Action)
    requires Exclusive(s) && NoLostWakeup(s) && Enabled(s, a)
    ensures NoLostWakeup(Apply(s, a))
  {
    var s' := Apply(s, a);
    if a.Store? {
      assert s'.pcs[a.t].SetStored?;
    } else if SetterPending(s) && !a.NotifyAll? {
      var t :| 0 <= t < |s.pcs| && (s.pcs[t].SetStored? || s.pcs[t].SetUnlocked?);
      assert s'.pcs[t].SetStored? || s'.pcs[t].SetUnlocked?;
    }
  }

  lemma ChainStep(s: Flag, a: Action)
    requires Chain(s) && Enabled(s, a)
    ensures Chain(Apply(s, a))
    ensures s.pattern <= Apply(s, a).pattern
  {
  }

  lemma OrAllAppend(sets: seq<Bits>, bits: Bits)
    ensures OrAll(sets + [bits]) == OrAll(sets) + bits
  {
    assert (sets + [bits])[..|sets|] == sets;
  }

  lemma PatternStep(s: Flag, a: Action)
    requires s.pattern == OrAll(s.sets) && Enabled(s, a)
    ensures Apply(s, a).pattern == OrAll(Apply(s, a).sets)
  {
    if a.Store? {
      OrAllAppend(s.sets, s.pcs[a.t].bits);
    }
  }

  lemma StepKeeps(s: Flag, a: Action)
    requires Inv(s) && Enabled(s, a)
    ensures Inv(Apply(s, a))
  {
    ExclusiveStep(s, a);
    WakeupStep(s, a);
    ChainStep(s, a);
    PatternStep(s, a);
  }

  lemma {:induction false} RunKeeps(s: Flag, acts: seq<Action>)
    requires Inv(s) && Legal(s, acts)
    ensures Inv(After(s, acts))
    decreases |acts|
  {
    if acts != [] {
      StepKeeps(s, acts[0]);
      RunKeeps(Apply(s, acts[0]), acts[1..]);
    }
  }

  // ---- Theorems -------------------------------------------------------------------------------------

  lemma {:induction false} OrAllMeans(sets: seq<Bits>, wanted: Bits)
    ensures wanted * OrAll(sets) != {} <==> exists i :: 0 <= i < |sets| && wanted * sets[i] != {}
    ensures OrAll(sets) <= wanted <==> forall i :: 0 <= i < |sets| ==> sets[i] <= wanted
  {
    if sets != [] {
      var front, last := sets[..|sets| - 1], sets[|sets| - 1];
      OrAllMeans(front, wanted);
      assert wanted * OrAll(sets) == wanted * OrAll(front) + wanted * last;
      assert forall i :: 0 <= i < |front| ==> front[i] == sets[i];
      if wanted * OrAll(front) != {} {
        var i :| 0 <= i < |front| && wanted * front[i] != {};
        assert wanted * sets[i] != {};
      }
    }
  }

  /** In every run the pattern is the OR of all set arguments; an OR wait's condition holds exactly
      when some argument met it, an AND wait's exactly when the arguments together are its pattern;
      the patterns of successful AND waits form an increasing chain; and when no setter is between
      its OR and its notification, nobody waits for a condition that holds. */
  lemma EveryRunOfFlag(threads: nat, acts: seq<Action>, wanted: Bits)
    requires Legal(Init(threads), acts)
    ensures var s := After(Init(threads), acts);
            && s.pattern == OrAll(s.sets)
            && (Match(s.pattern, wanted, OR) <==> exists i :: 0 <= i < |s.sets| && wanted * s.sets[i] != {})
            && (Match(s.pattern, wanted, AND) <==> wanted == OrAll(s.sets))
            && (forall i, j :: 0 <= i <= j < |s.equalities| ==> s.equalities[i] <= s.equalities[j])
            && (!SetterPending(s) ==>
                  forall t :: 0 <= t < |s.pcs| && s.pcs[t].Parked? ==>
                    !Match(s.pattern, s.pcs[t].wait.wanted, s.pcs[t].wait.mode))
  {
    RunKeeps(Init(threads), acts);
    OrAllMeans(After(Init(threads), acts).sets, wanted);
  }

  /** Bits are never taken back. */
  lemma {:induction false} PatternGrows(s: Flag, acts: seq<Action>)
    requires Inv(s) && Legal(s, acts)
    ensures s.pattern <= After(s, acts).pattern
    decreases |acts|
  {
    if acts != [] {
      StepKeeps(s, acts[0]);
      PatternGrows(Apply(s, acts[0]), acts[1..]);
    }
  }

  /** An OR condition, once true, stays true; and once a bit outside the wanted pattern is set, the
      AND condition for it is false in every later state - even if every wanted bit is set. */
  lemma ConditionsOverTime(s: Flag, acts: seq<Action>, wanted: Bits)
    requires Inv(s) && Legal(s, acts)
    ensures Match(s.pattern, wanted, OR) ==> Match(After(s, acts).pattern, wanted, OR)
    ensures (exists i :: 0 <= i < |s.sets| && !(s.sets[i] <= wanted)) ==> !Match(After(s, acts).pattern, wanted, AND)
  {
    PatternGrows(s, acts);
    OrAllMeans(s.sets, wanted);
    if Match(s.pattern, wanted, OR) {
      var p :| p in wanted * s.pattern;
      assert p in wanted * After(s, acts).pattern;
    }
  }

  lemma Prepend(s: Flag, a: Action, acts: seq<Action>)
    requires Enabled(s, a) && Legal(Apply(s, a), acts)
    ensures Legal(s, [a] + acts) && After(s, [a] + acts) == After(Apply(s, a), acts)
  {
    assert ([a] + acts)[1..] == acts;
  }

  /** A whole set() by thread `t`, undisturbed. */
  function SetSteps(t: nat, bits: Bits, rest: seq<Action>): seq<Action> {
    [CallSet(t, bits)] + ([Acquire(t)] + ([Store(t)] + ([Unlock(t)] + ([NotifyAll(t)] + rest))))
  }

  function AfterSet(s: Flag, t: nat, bits: Bits): Flag
    requires t < |s.pcs|
  {
    s.(pattern := s.pattern + bits, sets := s.sets + [bits], pcs := WakeAll(s.pcs)[t := Outside])
  }

  lemma SetLeadsTo(s: Flag, t: nat, bits: Bits, rest: seq<Action>)
    requires t < |s.pcs| && s.pcs[t].Outside? && s.owner.None? && Legal(AfterSet(s, t, bits), rest)
    ensures Legal(s, SetSteps(t, bits, rest))
    ensures After(s, SetSteps(t, bits, rest)) == After(AfterSet(s, t, bits), rest)
  {
    var s1 := s.(pcs := s.pcs[t := SetEnter(bits)]);
    var s2 := s.(owner := Some(t), pcs := s.pcs[t := SetLocked(bits)]);
    var s3 := s2.(pattern := s.pattern + bits, sets := s.sets + [bits], pcs := s.pcs[t := SetStored]);
    var s4 := s3.(owner := None, pcs := s.pcs[t := SetUnlocked]);
    assert Apply(s, CallSet(t, bits)) == s1;
    assert Apply(s1, Acquire(t)) == s2;
    assert Apply(s2, Store(t)) == s3;
    assert Apply(s3, Unlock(t)) == s4;
    assert WakeAll(s4.pcs)[t := Outside] == WakeAll(s.pcs)[t := Outside];
    Prepend(s4, NotifyAll(t), rest);
    Prepend(s3, Unlock(t), [NotifyAll(t)] + rest);
    Prepend(s2, Store(t), [Unlock(t)] + ([NotifyAll(t)] + rest));
    Prepend(s1, Acquire(t), [Store(t)] + ([Unlock(t)] + ([NotifyAll(t)] + rest)));
    Prepend(s, CallSet(t, bits), [Acquire(t)] + ([Store(t)] + ([Unlock(t)] + ([NotifyAll(t)] + rest))));
  }

  /** With the mutex free and some thread outside, an AND condition can still become true exactly when
      no bit outside its pattern is set yet. */
  lemma EqualityStillPossibleIff(s: Flag, t: nat, wanted: Bits)
    requires Inv(s) && s.owner.None? && t < |s.pcs| && s.pcs[t].Outside?
    ensures (exists acts :: Legal(s, acts) && Match(After(s, acts).pattern, wanted, AND)) <==> s.pattern <= wanted
  {
    if s.pattern <= wanted {
      SetLeadsTo(s, t, wanted, []);
      assert s.pattern + wanted == wanted;
      assert Match(After(s, SetSteps(t, wanted, [])).pattern, wanted, AND);
    }
    forall acts | Legal(s, acts) && Match(After(s, acts).pattern, wanted, AND) ensures s.pattern <= wanted {
      PatternGrows(s, acts);
    }
  }

  /** Inside an AND wait without time-out. */
  predicate WaitsForEqual(pc: Pc, wanted: Bits) {
    && (pc.WaitEnter? || pc.WaitChecking? || pc.WaitParking? || pc.Parked?)
    && pc.wait == Wait(wanted, AND, false)
    && (pc.WaitEnter? || pc.WaitChecking? ==> !pc.last)
  }

  /** Once a bit outside its pattern is set, the AND wait never returns. */
  lemma {:induction false} EqualityMissedForEver(s: Flag, t: nat, wanted: Bits, acts: seq<Action>)
    requires Legal(s, acts) && t < |s.pcs| && WaitsForEqual(s.pcs[t], wanted) && !(s.pattern <= wanted)
    ensures t < |After(s, acts).pcs| && WaitsForEqual(After(s, acts).pcs[t], wanted)
    decreases |acts|
  {
    if acts != [] {
      EqualityMissedForEver(Apply(s, acts[0]), t, wanted, acts[1..]);
    }
  }

  /** Thread 0 waits, without time-out, for the pattern to equal {0}. */
  const WAIT := Wait({0}, AND, false)

  function WaitSteps(rest: seq<Action>): seq<Action> {
    [CallWait(0, WAIT)] + ([Acquire(0)] + ([Check(0)] + ([Park(0)] + rest)))
  }

  function WaiterAt(pattern: Bits, sets: seq<Bits>, pc: Pc, owner: Option<nat>): Flag {
    Flag(pattern, owner, [pc, Outside], sets, [], [])
  }

  const WAITING := WaiterAt({}, [], Parked(WAIT), None)

  lemma WaitLeadsTo(rest: seq<Action>)
    requires Legal(WAITING, rest)
    ensures Legal(Init(2), WaitSteps(rest)) && After(Init(2), WaitSteps(rest)) == After(WAITING, rest)
  {
    var s1 := WaiterAt({}, [], WaitEnter(WAIT, false), None);
    var s2 := WaiterAt({}, [], WaitChecking(WAIT, false), Some(0));
    var s3 := WaiterAt({}, [], WaitParking(WAIT), Some(0));
    assert Init(2).pcs == [Outside, Outside];
    assert Apply(Init(2), CallWait(0, WAIT)) == s1;
    assert Apply(s1, Acquire(0)) == s2;
    assert Apply(s2, Check(0)) == s3;
    assert Apply(s3, Park(0)) == WAITING;
    Prepend(s3, Park(0), rest);
    Prepend(s2, Check(0), [Park(0)] + rest);
    Prepend(s1, Acquire(0), [Check(0)] + ([Park(0)] + rest));
    Prepend(Init(2), CallWait(0, WAIT), [Acquire(0)] + ([Check(0)] + ([Park(0)] + rest)));
  }

  /** Thread 1 has set {0}: the waiter's equality holds and has been announced to it. */
  const ANNOUNCED := WaiterAt({0}, [{0}], WaitEnter(WAIT, false), None)

  lemma AnnouncedIsReached()
    ensures Legal(Init(2), WaitSteps(SetSteps(1, {0}, [])))
    ensures After(Init(2), WaitSteps(SetSteps(1, {0}, []))) == ANNOUNCED
  {
    assert AfterSet(WAITING, 1, {0}) == ANNOUNCED;
    SetLeadsTo(WAITING, 1, {0}, []);
    WaitLeadsTo(SetSteps(1, {0}, []));
  }

  /** In that reached state the equality holds and the waiter is on its way to check it; but if thread 1
      sets another bit before the waiter has the mutex, the waiter waits for ever. */
  lemma AnnouncedEqualityCanBeMissed(more: seq<Action>)
    ensures Legal(Init(2), WaitSteps(SetSteps(1, {0}, [])))
    ensures After(Init(2), WaitSteps(SetSteps(1, {0}, []))) == ANNOUNCED
    ensures Match(ANNOUNCED.pattern, {0}, AND) && WaitsForEqual(ANNOUNCED.pcs[0], {0})
    ensures Legal(ANNOUNCED, SetSteps(1, {1}, []))
    ensures Legal(After(ANNOUNCED, SetSteps(1, {1}, [])), more) ==>
              var end := After(After(ANNOUNCED, SetSteps(1, {1}, [])), more);
              end.pcs != [] && WaitsForEqual(end.pcs[0], {0})
  {
    AnnouncedIsReached();
    SetLeadsTo(ANNOUNCED, 1, {1}, []);
    var missed := AfterSet(ANNOUNCED, 1, {1});
    assert 1 in missed.pattern;
    if Legal(missed, more) {
      EqualityMissedForEver(missed, 0, {0}, more);
    }
  }

  // ---- The object -------------------------------------------------------------------------------------

  class EventFlag {
    var pattern: Bits
    ghost var world: Flag

    ghost predicate Valid()
      reads this
    {
      Inv(world) && world.pattern == pattern
    }

    constructor (ghost threads: nat)
      ensures Valid() && pattern == {} && world == Init(threads)
    {
      pattern, world := {}, Init(threads);
    }

    /** The wait predicate, evaluated under the mutex: a true AND match records the pattern. */
    method Matches(ghost t: nat, wanted: Bits, mode: MatchMode) returns (matched: bool)
      requires Valid() && Enabled(world, Check(t))
      requires world.pcs[t].wait.wanted == wanted && world.pcs[t].wait.mode == mode
      modifies this`world
      ensures Valid() && world == Apply(old(world), Check(t))
      ensures matched <==> world.pcs[t] == WaitLeaving(true)
      ensures matched && mode.AND? ==> wanted == pattern
      ensures matched && mode.OR? ==> wanted * pattern != {}
    {
      if mode.AND? {
        matched := wanted == pattern;
      } else {
        matched := wanted * pattern != {};
      }
      StepKeeps(world, Check(t));
      world := Apply(world, Check(t));
    }

    /** The locked part of `set`: afterwards the setter owes a notification to whoever now matches. */
    method OrIn(ghost t: nat, bits: Bits)
      requires Valid() && Enabled(world, Store(t)) && world.pcs[t].bits == bits
      modifies this
      ensures Valid() && world == Apply(old(world), Store(t))
      ensures pattern == old(pattern) + bits && SetterPending(world)
    {
      pattern := pattern + bits;
      StepKeeps(world, Store(t));
      world := Apply(world, Store(t));
      assert world.pcs[t].SetStored?;
    }
  }
}
