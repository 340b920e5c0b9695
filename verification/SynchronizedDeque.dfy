/** The FIFO monitor of include/Message/SynchronizedDeque.hpp: one mutex, one condition variable,
    any number of threads in its members, one step at a time. */
module SynchronizedDeques {
  import opened EventTypes

  /** A call: `send`, `receive` or `timed_receive`, `clear`, `num_message` (`is_empty` tests it for zero). */
  datatype Op<T> = Send(msg: T) | Receive(timed: bool) | Clear | NumMessage

  /** What a call returns: nothing, the received message, the `false` of a time-out, a number. */
  datatype Result<T> = Done | Received(msg: T) | Nothing | Number(count: nat)

  /** Where a thread is. Between `Acquire` and `Release` or `Park` it holds the mutex. `last` tells
      that the wait has timed out. */
  datatype Pc<T> =
    | Outside
    | Enter(op: Op<T>)                      // wants the mutex for the first time
    | SendLocked(msg: T)
    | SendPushed(msg: T)                    // pushed, not yet notified
    | ClearLocked
    | CountLocked
    | RecvEnter(timed: bool, last: bool)    // woken up, wants the mutex again
    | RecvChecking(timed: bool, last: bool) // holds it, about to evaluate the predicate
    | RecvPopping(timed: bool, last: bool)  // predicate true, about to copy the front
    | RecvFront(timed: bool, last: bool, buffer: T)  // front copied, about to pop
    | RecvParking(timed: bool)              // predicate false, about to wait
    | Parked(timed: bool)                   // waiting, mutex released
    | Leaving(op: Op<T>, result: Result<T>) // holds it, about to unlock and return

  predicate Holds<T>(pc: Pc<T>) {
    pc.SendLocked? || pc.SendPushed? || pc.ClearLocked? || pc.CountLocked? || pc.RecvChecking?
    || pc.RecvPopping? || pc.RecvFront? || pc.RecvParking? || pc.Leaving?
  }

  datatype Removal<T> = Delivered(msg: T, to: nat) | Dropped(msg: T)

  /** What an atomic FIFO queue can do. */
  datatype Event<T> = Enqueue(msg: T) | Dequeue(msg: T) | Reset | FoundEmpty | Counted(count: nat)

  /** One entry of the history of calls: a thread calls, locks, unlocks to wait, has waited its time,
      takes effect, returns. */
  datatype Mark<T> =
    | Called(t: nat, op: Op<T>)
    | Locked(t: nat)
    | Unlocked(t: nat)
    | TimedOut(t: nat)
    | Effect(t: nat, event: Event<T>)
    | Returned(t: nat, result: Result<T>)

  /** `sent` and `removed` record everything pushed and everything popped or cleared, `trace` the calls. */
  datatype Monitor<T> = Monitor(queue: seq<T>, owner: Option<nat>, pcs: seq<Pc<T>>,
                                sent: seq<T>, removed: seq<Removal<T>>, trace: seq<Mark<T>>)

  function Init<T>(threads: nat): Monitor<T> {
    Monitor([], None, seq(threads, _ => Outside), [], [], [])
  }

  datatype Action<T> =
    | Call(t: nat, op: Op<T>)
    | Acquire(t: nat) | Release(t: nat)
    | Push(t: nat) | NotifyAll(t: nat) | ClearAll(t: nat) | Count(t: nat)
    | Check(t: nat) | ReadFront(t: nat) | PopFront(t: nat) | Park(t: nat)
    | SpuriousWake(t: nat) | TimeOut(t: nat)

  predicate Enabled<T>(s: Monitor<T>, a: Action<T>) {
    && a.t < |s.pcs|
    && var pc := s.pcs[a.t];
       match a
       case Call(_, _) => pc.Outside?
       case Acquire(_) => (pc.Enter? || pc.RecvEnter?) && s.owner.None?
       case Release(_) => pc.Leaving?
       case Push(_) => pc.SendLocked?
       case NotifyAll(_) => pc.SendPushed?
       case ClearAll(_) => pc.ClearLocked?
       case Count(_) => pc.CountLocked?
       case Check(_) => pc.RecvChecking?
       case ReadFront(_) => pc.RecvPopping? && s.queue != []
       case PopFront(_) => pc.RecvFront? && s.queue != []
       case Park(_) => pc.RecvParking?
       case SpuriousWake(_) => pc.Parked?
       case TimeOut(_) => pc.Parked? && pc.timed
  }

  function Entered<T>(pc: Pc<T>): Pc<T> {
    match pc
    case Enter(Send(msg)) => SendLocked(msg)
    case Enter(Receive(timed)) => RecvChecking(timed, false)
    case Enter(Clear) => ClearLocked
    case Enter(NumMessage) => CountLocked
    case RecvEnter(timed, last) => RecvChecking(timed, last)
    case _ => pc
  }

  function Woken<T>(pc: Pc<T>): Pc<T> {
    if pc.Parked? then RecvEnter(pc.timed, false) else pc
  }

  function WakeAll<T>(pcs: seq<Pc<T>>): seq<Pc<T>> {
    seq(|pcs|, i requires 0 <= i < |pcs| => Woken(pcs[i]))
  }

  /** The wait loop's check: the predicate decides, and after a time-out it decides finally. */
  function Checked<T>(queue: seq<T>, timed: bool, last: bool): Pc<T> {
    if queue != [] then RecvPopping(timed, last)
    else if last then Leaving(Receive(timed), Nothing)
    else RecvParking(timed)
  }

  function DropAll<T>(queue: seq<T>): seq<Removal<T>> {
    seq(|queue|, i requires 0 <= i < |queue| => Dropped(queue[i]))
  }

  /** The step on the monitor's fields. */
  function Move<T>(s: Monitor<T>, a: Action<T>): Monitor<T>
    requires Enabled(s, a)
  {
    var pc := s.pcs[a.t];
    match a
    case Call(t, op) => s.(pcs := s.pcs[t := Enter(op)])
    case Acquire(t) => s.(owner := Some(t), pcs := s.pcs[t := Entered(pc)])
    case Release(t) => s.(owner := None, pcs := s.pcs[t := Outside])
    case Push(t) =>
      s.(queue := s.queue + [pc.msg], sent := s.sent + [pc.msg], pcs := s.pcs[t := SendPushed(pc.msg)])
    case NotifyAll(t) => s.(pcs := WakeAll(s.pcs)[t := Leaving(Send(pc.msg), Done)])
    case ClearAll(t) =>
      s.(queue := [], removed := s.removed + DropAll(s.queue), pcs := s.pcs[t := Leaving(Clear, Done)])
    case Count(t) => s.(pcs := s.pcs[t := Leaving(NumMessage, Number(|s.queue|))])
    case Check(t) => s.(pcs := s.pcs[t := Checked(s.queue, pc.timed, pc.last)])
    case ReadFront(t) => s.(pcs := s.pcs[t := RecvFront(pc.timed, pc.last, s.queue[0])])
    case PopFront(t) =>
      s.(queue := s.queue[1..], removed := s.removed + [Delivered(s.queue[0], t)],
         pcs := s.pcs[t := Leaving(Receive(pc.timed), Received(pc.buffer))])
    case Park(t) => s.(owner := None, pcs := s.pcs[t := Parked(pc.timed)])
    case SpuriousWake(t) => s.(pcs := s.pcs[t := RecvEnter(pc.timed, false)])
    case TimeOut(t) => s.(pcs := s.pcs[t := RecvEnter(pc.timed, true)])
  }

  /** What the stepping thread writes into the history, from its own progress: in particular the
      event of a receiver is the message in its own buffer, whatever the deque loses. */
  function MarkOf<T>(s: Monitor<T>, a: Action<T>): Option<Mark<T>>
    requires Enabled(s, a)
  {
    var pc := s.pcs[a.t];
    match a
    case Call(t, op) => Some(Called(t, op))
    case Acquire(t) => Some(Locked(t))
    case Park(t) => Some(Unlocked(t))
    case TimeOut(t) => Some(TimedOut(t))
    case Release(t) => Some(Returned(t, pc.result))
    case Push(t) => Some(Effect(t, Enqueue(pc.msg)))
    case ClearAll(t) => Some(Effect(t, Reset))
    case Count(t) => Some(Effect(t, Counted(|s.queue|)))
    case PopFront(t) => Some(Effect(t, Dequeue(pc.buffer)))
    case Check(t) => if pc.last && s.queue == [] then Some(Effect(t, FoundEmpty)) else None
    case _ => None
  }

  function Noted<T>(trace: seq<Mark<T>>, mark: Option<Mark<T>>): seq<Mark<T>> {
    if mark.None? then trace else trace + [mark.value]
  }

  function Apply<T>(s: Monitor<T>, a: Action<T>): Monitor<T>
    requires Enabled(s, a)
  {
    Move(s, a).(trace := Noted(s.trace, MarkOf(s, a)))
  }

  ghost predicate Legal<T>(s: Monitor<T>, acts: seq<Action<T>>)
    decreases |acts|
  {
    acts != [] ==> Enabled(s, acts[0]) && Legal(Apply(s, acts[0]), acts[1..])
  }

  ghost function After<T>(s: Monitor<T>, acts: seq<Action<T>>): Monitor<T>
    requires Legal(s, acts)
    decreases |acts|
  {
    if acts == [] then s else After(Apply(s, acts[0]), acts[1..])
  }

  // ---- The atomic queue and its histories -------------------------------------------------------

  /** A FIFO queue without threads: the contents after an event, if it can have that event. */
  function AtomicStep<T(==)>(queue: seq<T>, event: Event<T>): Option<seq<T>> {
    match event
    case Enqueue(msg) => Some(queue + [msg])
    case Dequeue(msg) => if queue != [] && queue[0] == msg then Some(queue[1..]) else None
    case Reset => Some([])
    case FoundEmpty => if queue == [] then Some(queue) else None
    case Counted(count) => if |queue| == count then Some(queue) else None
  }

  /** The contents of the atomic queue after the effects of a history, if it can have them in that order. */
  function Replay<T(==)>(trace: seq<Mark<T>>): Option<seq<T>> {
    if trace == [] then Some([])
    else
      var before := Replay(trace[..|trace| - 1]);
      match trace[|trace| - 1]
      case Effect(_, event) => if before.None? then None else AtomicStep(before.value, event)
      case _ => before
  }

  /** The events a call may have. Only a timed receive that has waited its time may find the queue empty. */
  predicate Permits<T(==)>(op: Op<T>, timedOut: bool, event: Event<T>) {
    match op
    case Send(msg) => event == Enqueue(msg)
    case Receive(timed) => event.Dequeue? || (timed && timedOut && event.FoundEmpty?)
    case Clear => event.Reset?
    case NumMessage => event.Counted?
  }

  /** What a call with this event returns. */
  function ResultOf<T>(event: Event<T>): Result<T> {
    match event
    case Enqueue(_) => Done
    case Dequeue(msg) => Received(msg)
    case Reset => Done
    case FoundEmpty => Nothing
    case Counted(count) => Number(count)
  }

  /** Where a thread stands in its own history; `Broken` if that is not a sequence of calls, each
      with one permitted event under the lock, followed by the return of that event's result. */
  datatype Phase<T> =
    | Idle
    | Pending(op: Op<T>, locked: bool, timedOut: bool)
    | Effective(op: Op<T>, result: Result<T>)
    | Broken

  function Advance<T(==)>(phase: Phase<T>, mark: Mark<T>): Phase<T> {
    match mark
    case Called(_, op) => if phase.Idle? then Pending(op, false, false) else Broken
    case Locked(_) => if phase.Pending? && !phase.locked then phase.(locked := true) else Broken
    case Unlocked(_) =>
      if phase.Pending? && phase.locked && !phase.timedOut then phase.(locked := false) else Broken
    case TimedOut(_) =>
      if phase.Pending? && !phase.locked && phase.op == Receive(true) then phase.(timedOut := true) else Broken
    case Effect(_, event) =>
      if phase.Pending? && phase.locked && Permits(phase.op, phase.timedOut, event)
      then Effective(phase.op, ResultOf(event)) else Broken
    case Returned(_, result) => if phase.Effective? && phase.result == result then Idle else Broken
  }

  function PhaseOf<T(==)>(trace: seq<Mark<T>>, t: nat): Phase<T> {
    if trace == [] then Idle
    else
      var mark := trace[|trace| - 1];
      var before := PhaseOf(trace[..|trace| - 1], t);
      if mark.t == t then Advance(before, mark) else before
  }

  function ReturnedBy<T>(mark: Mark<T>, t: nat): seq<T> {
    if mark.Returned? && mark.t == t && mark.result.Received? then [mark.result.msg] else []
  }

  /** The messages that thread `t`'s calls have returned, in order. */
  function ReturnedTo<T>(trace: seq<Mark<T>>, t: nat): seq<T> {
    if trace == [] then []
    else
      ReturnedTo(trace[..|trace| - 1], t) + ReturnedBy(trace[|trace| - 1], t)
  }

  /** The messages popped for thread `t`, in order. */
  function DeliveredTo<T>(removed: seq<Removal<T>>, t: nat): seq<T> {
    if removed == [] then []
    else
      var last := removed[|removed| - 1];
      DeliveredTo(removed[..|removed| - 1], t)
      + if last.Delivered? && last.to == t then [last.msg] else []
  }

  // ---- Invariant --------------------------------------------------------------------------------

  /** The mutex is held by exactly the thread that is inside. */
  ghost predicate Exclusive<T>(s: Monitor<T>) {
    forall t :: 0 <= t < |s.pcs| ==> (Holds(s.pcs[t]) <==> s.owner == Some(t))
  }

  function Messages<T>(removed: seq<Removal<T>>): seq<T> {
    seq(|removed|, i requires 0 <= i < |removed| => removed[i].msg)
  }

  /** Everything sent was removed, in order, or still waits, in order. */
  ghost predicate Conserved<T>(s: Monitor<T>) {
    s.sent == Messages(s.removed) + s.queue
  }

  /** What a receiver saw under the mutex still holds while it keeps the mutex. */
  ghost predicate ChecksHold<T>(s: Monitor<T>) {
    forall t :: 0 <= t < |s.pcs| ==>
      && (s.pcs[t].RecvPopping? ==> s.queue != [])
      && (s.pcs[t].RecvFront? ==> s.queue != [] && s.pcs[t].buffer == s.queue[0])
      && (s.pcs[t].RecvParking? ==> s.queue == [])
      && ((s.pcs[t].RecvEnter? || s.pcs[t].RecvChecking?) && s.pcs[t].last ==> s.pcs[t].timed)
  }

  /** A thread waits on a non-empty queue only while a sender is about to notify it. */
  ghost predicate NoLostWakeup<T>(s: Monitor<T>) {
    forall t :: 0 <= t < |s.pcs| && s.pcs[t].Parked? && s.queue != [] ==>
      s.owner.Some? && s.owner.value < |s.pcs| && s.pcs[s.owner.value].SendPushed?
  }

  /** The phase that a thread's place in the code stands for. */
  function Stage<T>(pc: Pc<T>): Phase<T> {
    match pc
    case Outside => Idle
    case Enter(op) => Pending(op, false, false)
    case SendLocked(msg) => Pending(Send(msg), true, false)
    case SendPushed(msg) => Effective(Send(msg), Done)
    case ClearLocked => Pending(Clear, true, false)
    case CountLocked => Pending(NumMessage, true, false)
    case RecvEnter(timed, last) => Pending(Receive(timed), false, last)
    case RecvChecking(timed, last) => Pending(Receive(timed), true, last)
    case RecvPopping(timed, last) => Pending(Receive(timed), true, last)
    case RecvFront(timed, last, _) => Pending(Receive(timed), true, last)
    case RecvParking(timed) => Pending(Receive(timed), true, false)
    case Parked(timed) => Pending(Receive(timed), false, false)
    case Leaving(op, result) => Effective(op, result)
  }

  /** The history is one of the atomic queue, and every thread is where its part of it says. */
  ghost predicate Linearized<T>(s: Monitor<T>) {
    && Replay(s.trace) == Some(s.queue)
    && (forall k :: 0 <= k < |s.trace| ==> s.trace[k].t < |s.pcs|)
    && forall t: nat :: t < |s.pcs| ==> PhaseOf(s.trace, t) == Stage(s.pcs[t])
  }

  /** The message a thread has taken and not yet returned. */
  function InHand<T>(pc: Pc<T>): seq<T> {
    if pc.Leaving? && pc.result.Received? then [pc.result.msg] else []
  }

  /** A thread has returned exactly what was popped for it, but for the message in its hand. */
  ghost predicate Handed<T>(s: Monitor<T>) {
    forall t: nat :: t < |s.pcs| ==>
      ReturnedTo(s.trace, t) + InHand(s.pcs[t]) == DeliveredTo(s.removed, t)
  }

  /** What holds of the monitor's own fields. */
  ghost predicate Safe<T>(s: Monitor<T>) {
    && (s.owner.Some? ==> s.owner.value < |s.pcs|)
    && Exclusive(s) && Conserved(s) && ChecksHold(s) && NoLostWakeup(s)
  }

  ghost predicate Inv<T>(s: Monitor<T>) {
    Safe(s) && Linearized(s) && Handed(s)
  }

  lemma ConservedStep<T>(s: Monitor<T>, a: Action<T>)
    requires Safe(s) && Enabled(s, a)
    ensures Conserved(Move(s, a))
  {
    var s' := Move(s, a);
    match a
    case PopFront(t) => assert Messages(s'.removed) == Messages(s.removed) + [s.queue[0]];
    case ClearAll(t) => assert Messages(s'.removed) == Messages(s.removed) + s.queue;
    case _ =>
  }

  lemma WakeupStep<T>(s: Monitor<T>, a: Action<T>)
    requires Safe(s) && Enabled(s, a)
    ensures NoLostWakeup(Move(s, a))
  {
  }

  lemma MoveKeeps<T>(s: Monitor<T>, a: Action<T>)
    requires Safe(s) && Enabled(s, a)
    ensures Safe(Move(s, a))
  {
    ConservedStep(s, a);
    WakeupStep(s, a);
    assert Exclusive(Move(s, a));
    assert ChecksHold(Move(s, a));
  }

  lemma SameThreads<T>(s: Monitor<T>, a: Action<T>)
    requires Enabled(s, a)
    ensures |Move(s, a).pcs| == |s.pcs| && (MarkOf(s, a).Some? ==> MarkOf(s, a).value.t == a.t)
  {
  }

  /** A mark advances the thread it names and no other. */
  lemma Append<T>(trace: seq<Mark<T>>, mark: Mark<T>, t: nat)
    ensures PhaseOf(trace + [mark], t) == if mark.t == t then Advance(PhaseOf(trace, t), mark) else PhaseOf(trace, t)
  {
    assert (trace + [mark])[..|trace + [mark]| - 1] == trace;
  }

  /** An effect moves the atomic queue, and nothing else does. */
  lemma AppendEffect<T>(trace: seq<Mark<T>>, mark: Mark<T>)
    ensures mark.Effect? && Replay(trace).Some? ==>
      Replay(trace + [mark]) == AtomicStep(Replay(trace).value, mark.event)
    ensures !mark.Effect? ==> Replay(trace + [mark]) == Replay(trace)
  {
    assert (trace + [mark])[..|trace + [mark]| - 1] == trace;
  }

  /** The event of a step is one the atomic queue can have at this point; without one the contents stay. */
  lemma EventStep<T>(s: Monitor<T>, a: Action<T>)
    requires ChecksHold(s) && Enabled(s, a)
    ensures var mark := MarkOf(s, a);
            if mark.Some? && mark.value.Effect?
            then AtomicStep(s.queue, mark.value.event) == Some(Move(s, a).queue)
            else Move(s, a).queue == s.queue
  {
  }

  lemma ReplayStep<T>(s: Monitor<T>, a: Action<T>)
    requires ChecksHold(s) && Enabled(s, a) && Replay(s.trace) == Some(s.queue)
    ensures Replay(Noted(s.trace, MarkOf(s, a))) == Some(Move(s, a).queue)
  {
    EventStep(s, a);
    if MarkOf(s, a).Some? {
      AppendEffect(s.trace, MarkOf(s, a).value);
    }
  }

  /** The mark of a step advances the stepping thread to its new place; all others keep their phase. */
  lemma StageStep<T>(s: Monitor<T>, a: Action<T>, t: nat)
    requires ChecksHold(s) && Enabled(s, a) && t < |s.pcs|
    ensures var mark := MarkOf(s, a);
            Stage(Move(s, a).pcs[t])
            == if mark.Some? && mark.value.t == t then Advance(Stage(s.pcs[t]), mark.value) else Stage(s.pcs[t])
  {
  }

  lemma PhaseStep<T>(s: Monitor<T>, a: Action<T>, t: nat)
    requires ChecksHold(s) && Enabled(s, a) && t < |s.pcs| && PhaseOf(s.trace, t) == Stage(s.pcs[t])
    ensures PhaseOf(Noted(s.trace, MarkOf(s, a)), t) == Stage(Move(s, a).pcs[t])
  {
    StageStep(s, a, t);
    if MarkOf(s, a).Some? {
      Append(s.trace, MarkOf(s, a).value, t);
    }
  }

  lemma {:induction false} DroppedToNobody<T>(removed: seq<Removal<T>>, queue: seq<T>, t: nat)
    ensures DeliveredTo(removed + DropAll(queue), t) == DeliveredTo(removed, t)
    decreases |queue|
  {
    if queue == [] {
      assert removed + DropAll(queue) == removed;
    } else {
      var n := |queue| - 1;
      var all := removed + DropAll(queue);
      DroppedToNobody(removed, queue[..n], t);
      assert all[..|all| - 1] == removed + DropAll(queue[..n]);
      assert all[|all| - 1] == Dropped(queue[n]);
    }
  }

  function PoppedNow<T>(s: Monitor<T>, a: Action<T>, t: nat): seq<T>
    requires Enabled(s, a)
  {
    if a.PopFront? && a.t == t then [s.queue[0]] else []
  }

  /** Only a pop delivers, and to the thread that pops. */
  lemma DeliveryStep<T>(s: Monitor<T>, a: Action<T>, t: nat)
    requires Enabled(s, a)
    ensures DeliveredTo(Move(s, a).removed, t)
      == DeliveredTo(s.removed, t) + PoppedNow(s, a, t)
  {
    match a
    case ClearAll(_) => DroppedToNobody(s.removed, s.queue, t);
    case PopFront(_) => assert Move(s, a).removed[..|s.removed|] == s.removed;
    case _ =>
  }

  function ReturnedNow<T>(mark: Option<Mark<T>>, t: nat): seq<T> {
    if mark.Some? then ReturnedBy(mark.value, t) else []
  }

  lemma NotedReturns<T>(trace: seq<Mark<T>>, mark: Option<Mark<T>>, t: nat)
    ensures ReturnedTo(Noted(trace, mark), t) == ReturnedTo(trace, t) + ReturnedNow(mark, t)
  {
    if mark.Some? {
      assert (trace + [mark.value])[..|trace|] == trace;
    }
  }

  /** A pop puts the front into the popping thread's hand, a return takes it out, nothing else moves one. */
  lemma HandStep<T>(s: Monitor<T>, a: Action<T>, t: nat)
    requires ChecksHold(s) && Enabled(s, a) && t < |s.pcs|
    ensures ReturnedNow(MarkOf(s, a), t) + InHand(Move(s, a).pcs[t]) == InHand(s.pcs[t]) + PoppedNow(s, a, t)
  {
  }

  lemma HandedStep<T>(s: Monitor<T>, a: Action<T>, t: nat)
    requires ChecksHold(s) && Enabled(s, a) && t < |s.pcs|
    requires ReturnedTo(s.trace, t) + InHand(s.pcs[t]) == DeliveredTo(s.removed, t)
    ensures ReturnedTo(Noted(s.trace, MarkOf(s, a)), t) + InHand(Move(s, a).pcs[t])
      == DeliveredTo(Move(s, a).removed, t)
  {
    SameThreads(s, a);
    HandStep(s, a, t);
    DeliveryStep(s, a, t);
    NotedReturns(s.trace, MarkOf(s, a), t);
    Regroup(ReturnedTo(s.trace, t), ReturnedNow(MarkOf(s, a), t), InHand(Move(s, a).pcs[t]),
            InHand(s.pcs[t]), PoppedNow(s, a, t));
  }

  lemma Regroup<T>(first: seq<T>, b: seq<T>, c: seq<T>, d: seq<T>, e: seq<T>)
    requires b + c == d + e
    ensures (first + b) + c == (first + d) + e
  {
    assert (first + b) + c == first + (b + c);
    assert (first + d) + e == first + (d + e);
  }

  lemma StepKeeps<T>(s: Monitor<T>, a: Action<T>)
    requires Inv(s) && Enabled(s, a)
    ensures Inv(Apply(s, a))
  {
    MoveKeeps(s, a);
    ReplayStep(s, a);
    forall t: nat | t < |s.pcs|
      ensures PhaseOf(Noted(s.trace, MarkOf(s, a)), t) == Stage(Move(s, a).pcs[t])
      ensures ReturnedTo(Noted(s.trace, MarkOf(s, a)), t) + InHand(Move(s, a).pcs[t])
        == DeliveredTo(Move(s, a).removed, t)
    {
      PhaseStep(s, a, t);
      HandedStep(s, a, t);
    }
    SameThreads(s, a);
  }

  lemma {:induction false} RunKeeps<T>(s: Monitor<T>, acts: seq<Action<T>>)
    requires Inv(s) && Legal(s, acts)
    ensures Inv(After(s, acts))
    decreases |acts|
  {
    if acts != [] {
      StepKeeps(s, acts[0]);
      RunKeeps(Apply(s, acts[0]), acts[1..]);
    }
  }

  // ---- Theorems -----------------------------------------------------------------------------------

  lemma InitInv<T>(threads: nat)
    ensures Inv(Init<T>(threads))
  {
  }

  /** In every run: at most one thread is inside, sent messages leave in the order they came, each
      delivered to one receiver or dropped by a clear, and nobody sleeps on a non-empty queue
      unless the sender that filled it still has to notify. */
  lemma EveryRunIsFifo<T>(threads: nat, acts: seq<Action<T>>)
    requires Legal(Init(threads), acts)
    ensures var s := After(Init(threads), acts);
            && s.sent == Messages(s.removed) + s.queue
            && (forall t, u :: 0 <= t < |s.pcs| && 0 <= u < |s.pcs| && Holds(s.pcs[t]) && Holds(s.pcs[u]) ==> t == u)
            && (s.owner.None? && s.queue != [] ==> forall t :: 0 <= t < |s.pcs| ==> !s.pcs[t].Parked?)
  {
    InitInv<T>(threads);
    RunKeeps(Init(threads), acts);
  }

  lemma StageIsSound<T>(pc: Pc<T>)
    ensures !Stage(pc).Broken? && (pc.Outside? <==> Stage(pc).Idle?)
  {
  }

  /** Every run is linearizable. The effects, in the order they took place, are a run of the atomic
      queue that ends in the present contents; every thread's part of the history is well formed (see
      `ReturnFollowsItsEffect`); and the messages a thread's calls have returned, in order, with the one
      it is about to return, are exactly those that were popped for it. */
  lemma EveryRunIsLinearizable<T>(threads: nat, acts: seq<Action<T>>)
    requires Legal(Init(threads), acts)
    ensures var s := After(Init(threads), acts);
            && Replay(s.trace) == Some(s.queue)
            && forall t: nat :: t < |s.pcs| ==>
                 && !PhaseOf(s.trace, t).Broken?
                 && (s.pcs[t].Outside? <==> PhaseOf(s.trace, t).Idle?)
                 && ReturnedTo(s.trace, t) + InHand(s.pcs[t]) == DeliveredTo(s.removed, t)
  {
    InitInv<T>(threads);
    RunKeeps(Init(threads), acts);
    var s := After(Init(threads), acts);
    forall t: nat | t < |s.pcs|
      ensures !PhaseOf(s.trace, t).Broken? && (s.pcs[t].Outside? <==> PhaseOf(s.trace, t).Idle?)
    {
      StageIsSound(s.pcs[t]);
    }
  }

  /** Thread `t` called at `c` and since then has only locked, unlocked and waited. */
  ghost predicate Waits<T>(trace: seq<Mark<T>>, t: nat, op: Op<T>, c: nat) {
    && c < |trace| && trace[c] == Called(t, op)
    && forall k :: c < k < |trace| && trace[k].t == t ==> trace[k].Locked? || trace[k].Unlocked? || trace[k].TimedOut?
  }

  /** Since its call it has waited its time. */
  ghost predicate WaitedItsTime<T>(trace: seq<Mark<T>>, t: nat, c: nat) {
    exists k :: c < k < |trace| && trace[k] == TimedOut(t)
  }

  /** It has held the mutex since `l`. */
  ghost predicate Inside<T>(trace: seq<Mark<T>>, t: nat, op: Op<T>, c: nat, l: nat) {
    && c < l < |trace| && Waits(trace[..l], t, op, c) && trace[l] == Locked(t)
    && forall k :: l < k < |trace| ==> trace[k].t != t
  }

  /** At `e` it had an event that its call permits, and nothing else since it locked the mutex. */
  ghost predicate TookEffect<T>(trace: seq<Mark<T>>, t: nat, op: Op<T>, result: Result<T>, c: nat, l: nat, e: nat) {
    && l < e < |trace| && Inside(trace[..e], t, op, c, l)
    && trace[e].Effect? && trace[e].t == t
    && Permits(op, WaitedItsTime(trace[..l], t, c), trace[e].event) && ResultOf(trace[e].event) == result
    && forall k :: e < k < |trace| ==> trace[k].t != t
  }

  /** After this history, a return is that of a call with its lock and one permitted event. */
  ghost predicate ReturnsItsEffect<T(!new)>(trace: seq<Mark<T>>, t: nat, result: Result<T>) {
    exists op, c: nat, l: nat, e: nat :: TookEffect(trace, t, op, result, c, l, e)
  }

  /** What the phase of a thread says of its history. */
  ghost predicate Explained<T(!new)>(trace: seq<Mark<T>>, t: nat) {
    match PhaseOf(trace, t)
    case Pending(op, false, timedOut) =>
      exists c: nat :: Waits(trace, t, op, c) && (timedOut ==> WaitedItsTime(trace, t, c))
    case Pending(op, true, timedOut) =>
      exists c: nat, l: nat :: Inside(trace, t, op, c, l) && (timedOut ==> WaitedItsTime(trace[..l], t, c))
    case Effective(op, result) => exists c: nat, l: nat, e: nat :: TookEffect(trace, t, op, result, c, l, e)
    case _ => true
  }

  lemma LockedExplained<T(!new)>(trace: seq<Mark<T>>, mark: Mark<T>, t: nat)
    requires PhaseOf(trace, t).Pending? && PhaseOf(trace, t).locked && Explained(trace, t)
    ensures Explained(trace + [mark], t)
  {
    var n, longer := |trace|, trace + [mark];
    Append(trace, mark, t);
    var op, timedOut := PhaseOf(trace, t).op, PhaseOf(trace, t).timedOut;
    var c: nat, l: nat :| Inside(trace, t, op, c, l) && (timedOut ==> WaitedItsTime(trace[..l], t, c));
    assert longer[..l] == trace[..l] && longer[..n] == trace;
    if mark.t != t {
      assert Inside(longer, t, op, c, l);
    } else if mark.Unlocked? {
      assert forall k :: c < k < l ==> trace[k] == trace[..l][k];
      assert Waits(longer, t, op, c);
      if timedOut {
        var k :| c < k < l && trace[..l][k] == TimedOut(t);
        assert longer[k] == TimedOut(t);
      }
    } else if mark.Effect? && Permits(op, timedOut, mark.event) {
      assert TookEffect(longer, t, op, ResultOf(mark.event), c, l, n);
    }
  }

  lemma UnlockedExplained<T(!new)>(trace: seq<Mark<T>>, mark: Mark<T>, t: nat)
    requires PhaseOf(trace, t).Pending? && !PhaseOf(trace, t).locked && Explained(trace, t)
    ensures Explained(trace + [mark], t)
  {
    var n, longer := |trace|, trace + [mark];
    Append(trace, mark, t);
    var op, timedOut := PhaseOf(trace, t).op, PhaseOf(trace, t).timedOut;
    var c: nat :| Waits(trace, t, op, c) && (timedOut ==> WaitedItsTime(trace, t, c));
    assert longer[..n] == trace;
    if timedOut {
      var k :| c < k < n && trace[k] == TimedOut(t);
      assert longer[k] == TimedOut(t);
    }
    if mark.t != t || mark.TimedOut? {
      assert Waits(longer, t, op, c);
      assert mark == TimedOut(t) ==> longer[n] == TimedOut(t);
    } else if mark.Locked? {
      assert Inside(longer, t, op, c, n);
    }
  }

  lemma {:induction false} PhaseExplains<T(!new)>(trace: seq<Mark<T>>, t: nat)
    ensures Explained(trace, t)
    decreases |trace|
  {
    if trace != [] {
      var n := |trace| - 1;
      var before, mark := trace[..n], trace[n];
      assert trace == before + [mark];
      PhaseExplains(before, t);
      Append(before, mark, t);
      match PhaseOf(before, t)
      case Idle =>
        if mark.t == t && mark.Called? {
          assert Waits(trace, t, mark.op, n);
        }
      case Pending(_, locked, _) =>
        if locked { LockedExplained(before, mark, t); } else { UnlockedExplained(before, mark, t); }
      case Effective(op, result) =>
        if mark.t != t {
          var c: nat, l: nat, e: nat :| TookEffect(before, t, op, result, c, l, e);
          assert trace[..e] == before[..e];
          assert TookEffect(trace, t, op, result, c, l, e);
        }
      case Broken =>
    }
  }

  lemma {:induction false} BrokenStays<T>(front: seq<Mark<T>>, rest: seq<Mark<T>>, t: nat)
    requires !PhaseOf(front + rest, t).Broken?
    ensures !PhaseOf(front, t).Broken?
    decreases |rest|
  {
    if rest == [] {
      assert front + rest == front;
    } else {
      var n := |rest| - 1;
      assert front + rest == (front + rest[..n]) + [rest[n]];
      Append(front + rest[..n], rest[n], t);
      BrokenStays(front, rest[..n], t);
    }
  }

  lemma LastReturnExplained<T(!new)>(trace: seq<Mark<T>>, mark: Mark<T>)
    requires mark.Returned? && !PhaseOf(trace + [mark], mark.t).Broken?
    ensures ReturnsItsEffect(trace, mark.t, mark.result)
  {
    Append(trace, mark, mark.t);
    PhaseExplains(trace, mark.t);
    var op := PhaseOf(trace, mark.t).op;
    var c: nat, l: nat, e: nat :| TookEffect(trace, mark.t, op, mark.result, c, l, e);
  }

  lemma ReturnExplained<T(!new)>(front: seq<Mark<T>>, mark: Mark<T>, rest: seq<Mark<T>>)
    requires mark.Returned? && !PhaseOf(front + [mark] + rest, mark.t).Broken?
    ensures ReturnsItsEffect(front, mark.t, mark.result)
  {
    BrokenStays(front + [mark], rest, mark.t);
    LastReturnExplained(front, mark);
  }

  lemma NoThreadIsBroken<T>(threads: nat, acts: seq<Action<T>>, i: nat)
    requires Legal(Init(threads), acts) && i < |After(Init(threads), acts).trace|
    ensures !PhaseOf(After(Init(threads), acts).trace, After(Init(threads), acts).trace[i].t).Broken?
  {
    InitInv<T>(threads);
    RunKeeps(Init(threads), acts);
    var s := After(Init(threads), acts);
    assert Linearized(s) && s.trace[i].t < |s.pcs|;
    StageIsSound(s.pcs[s.trace[i].t]);
  }

  /** In every run a call that returned at `i` was made before, locked the mutex, and under it had
      exactly one event between that lock and the return: one its operation permits, whose result it
      returns. So a message is returned only after its own dequeue, the `false` of a time-out only
      after the caller has waited its time and then found the queue empty, and `receive` never returns
      without a message. */
  lemma ReturnFollowsItsEffect<T(!new)>(threads: nat, acts: seq<Action<T>>, i: nat)
    requires Legal(Init(threads), acts)
    requires i < |After(Init(threads), acts).trace| && After(Init(threads), acts).trace[i].Returned?
    ensures var trace := After(Init(threads), acts).trace;
            ReturnsItsEffect(trace[..i], trace[i].t, trace[i].result)
  {
    NoThreadIsBroken(threads, acts, i);
    var trace := After(Init(threads), acts).trace;
    assert trace == trace[..i] + [trace[i]] + trace[i + 1..];
    ReturnExplained(trace[..i], trace[i], trace[i + 1..]);
  }

  /** The mutex makes the steps atomic: a step with an event is taken by the thread that holds the mutex,
      the event is one the atomic queue can have now, and the contents are those after it; every other
      step leaves the contents alone. */
  lemma StepRefinesAtomicQueue<T>(s: Monitor<T>, a: Action<T>)
    requires Inv(s) && Enabled(s, a)
    ensures var mark := MarkOf(s, a);
            if mark.Some? && mark.value.Effect?
            then s.owner == Some(a.t) && AtomicStep(s.queue, mark.value.event) == Some(Apply(s, a).queue)
            else Apply(s, a).queue == s.queue
  {
    EventStep(s, a);
  }

  predicate IsReceiving<T>(pc: Pc<T>) {
    (pc.Enter? && pc.op.Receive?) || pc.RecvEnter? || pc.RecvChecking? || pc.RecvPopping? || pc.RecvFront?
    || pc.RecvParking? || pc.Parked?
  }

  /** A step that needs neither luck nor a new caller. */
  predicate IsOwnStep<T>(a: Action<T>) {
    !a.Call? && !a.SpuriousWake? && !a.TimeOut?
  }

  /** No deadlock: with a message queued and a receiver inside receive, some thread can step. */
  lemma QueuedMessageIsReceivable<T>(s: Monitor<T>, t: nat)
    requires Inv(s) && s.queue != []
    requires t < |s.pcs| && IsReceiving(s.pcs[t])
    ensures exists a :: IsOwnStep(a) && Enabled(s, a)
  {
    if s.owner.None? {
      assert Enabled(s, Acquire(t));
    } else {
      var u := s.owner.value;
      match s.pcs[u]
      case SendLocked(_) => assert Enabled(s, Push(u));
      case SendPushed(_) => assert Enabled(s, NotifyAll(u));
      case ClearLocked => assert Enabled(s, ClearAll(u));
      case CountLocked => assert Enabled(s, Count(u));
      case RecvChecking(_, _) => assert Enabled(s, Check(u));
      case RecvPopping(_, _) => assert Enabled(s, ReadFront(u));
      case RecvFront(_, _, _) => assert Enabled(s, PopFront(u));
      case Leaving(_, _) => assert Enabled(s, Release(u));
      case _ => assert false;
    }
  }

  /** Nobody is stuck: outside a thread can make any call; inside it has a step of its own, unless it
      wants the mutex that another thread holds, or waits; and a timed wait can always time out. */
  lemma ThreadsGoOn<T>(s: Monitor<T>, t: nat)
    requires Inv(s) && t < |s.pcs|
    ensures s.pcs[t].Outside? ==> forall op :: Enabled(s, Call(t, op))
    ensures s.pcs[t].Parked? ==> (s.pcs[t].timed <==> Enabled(s, TimeOut(t)))
    ensures !s.pcs[t].Outside? && !s.pcs[t].Parked? ==>
              || (exists a: Action<T> :: a.t == t && Enabled(s, a))
              || ((s.pcs[t].Enter? || s.pcs[t].RecvEnter?) && s.owner.Some? && s.owner.value != t)
  {
    match s.pcs[t]
    case Enter(_) => assert s.owner.None? ==> Enabled(s, Acquire(t));
    case RecvEnter(_, _) => assert s.owner.None? ==> Enabled(s, Acquire(t));
    case SendLocked(_) => assert Enabled(s, Push(t));
    case SendPushed(_) => assert Enabled(s, NotifyAll(t));
    case ClearLocked => assert Enabled(s, ClearAll(t));
    case CountLocked => assert Enabled(s, Count(t));
    case RecvChecking(_, _) => assert Enabled(s, Check(t));
    case RecvPopping(_, _) => assert Enabled(s, ReadFront(t));
    case RecvFront(_, _, _) => assert Enabled(s, PopFront(t));
    case RecvParking(_) => assert Enabled(s, Park(t));
    case Leaving(_, _) => assert Enabled(s, Release(t));
    case _ =>
  }

  // ---- The object -----------------------------------------------------------------------------------

  /** The deque itself. `world` is the monitor it lives in; each method is what one critical section
      does to the deque, at the point where thread `t` holds the mutex. */
  class SynchronizedDeque<T> {
    var queue: seq<T>
    ghost var world: Monitor<T>

    ghost predicate Valid()
      reads this
    {
      Inv(world) && world.queue == queue
    }

    constructor (ghost threads: nat)
      ensures Valid() && world == Init(threads)
    {
      queue, world := [], Init(threads);
      InitInv<T>(threads);
    }

    method PushBack(ghost t: nat, msg: T)
      requires Valid() && Enabled(world, Push(t)) && world.pcs[t].msg == msg
      modifies this
      ensures Valid() && world == Apply(old(world), Push(t))
      ensures queue == old(queue) + [msg]
    {
      queue := queue + [msg];
      StepKeeps(world, Push(t));
      world := Apply(world, Push(t));
    }

    method IsNotEmpty(ghost t: nat) returns (notEmpty: bool)
      requires Valid() && Enabled(world, Check(t))
      modifies this`world
      ensures Valid() && world == Apply(old(world), Check(t))
      ensures notEmpty <==> world.pcs[t].RecvPopping?
    {
      notEmpty := queue != [];
      StepKeeps(world, Check(t));
      world := Apply(world, Check(t));
    }

    /** `get_front` is only reached after a check under the same lock, so neither of its two steps meets
        an empty deque, and the message it pops is the one it copied. */
    method GetFront(ghost t: nat) returns (buffer: T)
      requires Valid() && t < |world.pcs| && world.pcs[t].RecvPopping?
      modifies this
      ensures Valid() && old(Enabled(world, ReadFront(t)) && Enabled(Apply(world, ReadFront(t)), PopFront(t)))
      ensures world == old(Apply(Apply(world, ReadFront(t)), PopFront(t)))
      ensures [buffer] + queue == old(queue)
      ensures world.removed == old(world.removed) + [Delivered(buffer, t)]
      ensures world.trace == old(world.trace) + [Effect(t, Dequeue(buffer))]
    {
      buffer := queue[0];
      StepKeeps(world, ReadFront(t));
      world := Apply(world, ReadFront(t));
      queue := queue[1..];
      StepKeeps(world, PopFront(t));
      world := Apply(world, PopFront(t));
    }

    method Clear(ghost t: nat)
      requires Valid() && Enabled(world, ClearAll(t))
      modifies this
      ensures Valid() && world == Apply(old(world), ClearAll(t))
      ensures queue == []
    {
      queue := [];
      StepKeeps(world, ClearAll(t));
      world := Apply(world, ClearAll(t));
    }
  }
}
