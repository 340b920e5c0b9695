/** Values shared by the event tasks: requests, handler behaviour, replies and errors. */
module EventTypes {

  datatype Option<+T> = None | Some(value: T)

  type Command = int
  type State = int
  type HandlerId = nat

  /** The next-state value meaning "stay"; the source casts -1 to the state type. */
  const KEEP_STATE: State := -1

  /** The state a machine reports before its first `set_state`; the same cast of -1. */
  const UNDEFINED_STATE: State := -1

  datatype Request = Request(sender: string, command: Command, payload: int)

  /** What user code (a handler, a callback, `on_start`) may throw. */
  datatype Fault = OutOfRangeFault | OtherFault(id: nat)

  /** What a caller of the framework can observe as an exception. */
  datatype Error =
    | StateNotFound   // Exception("State not found", OutOfRange)
    | EventNotFound   // Exception("Event not found", OutOfRange)
    | NotInitialized  // Exception("State machine not initialized", InvalidOperation)
    | Escaped(fault: Fault)

  datatype Reply = Value(ok: bool) | Failure(error: Error)

  /** Calls a handler makes on its own machine before it ends. */
  datatype Act =
    | Goto(target: State)
    | Register(from: State, command: Command, handler: HandlerId, next: State)

  datatype End = Returns(ok: bool) | Raises(fault: Fault)

  /** One execution of a handler. */
  datatype Script = Script(acts: seq<Act>, end: End)

  /** Handlers are opaque user code: any function of the handler, the request and
      the position of the call in the run (so handlers may carry state of their own). */
  type Oracle = (HandlerId, Request, nat) -> Script

  /** The `state_changed` callback: absent, or present and possibly throwing. */
  datatype Watcher = NoWatcher | Watcher(reaction: (State, State) -> Option<Fault>)
}
