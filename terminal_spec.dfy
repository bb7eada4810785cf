/**
 * The state the terminal's handlers share, and the effect of every event on it, as functions.
 * The methods of class `Terminal.Terminal` are proved to have exactly these effects.
 */
module TerminalSpec {
  import opened Basics
  import opened Protocol
  import Multicast

  /** The handlers the terminal attaches to the listener's `DataReceived` event. */
  datatype Handler = CommandHandler | RotateHandler

  /** What the terminal reports to the operator on its own initiative. */
  datatype Alert =
    | StallWarning  // the stall timer ran out during a rotation
    | MoveError     // the table reported MOVERR

  /** The response slot of the command in flight and whether its wake-up event is set. */
  datatype Pending = Pending(response: Option<string>, signalled: bool)

  datatype State = State(
    pending: Pending,
    subscribers: seq<Handler>,  // the invocation list of DataReceived, in attachment order
    timerRunning: bool,         // whether the one-shot stall timer is counting
    timerStarts: nat,           // how many times the stall timer has been started
    alerts: seq<Alert>,
    portOpen: bool,
    written: seq<string>)       // the lines written to the port

  const Cleared: Pending := Pending(None, false)

  // ---------------------------------------------------------------------------------------------
  // The handlers

  /** The response slot is neither null nor empty. */
  predicate HasResponse(p: Pending) {
    p.response.Some? && p.response.value != ""
  }

  /** The command handler on one token: the first accepted token fills the slot and sets the event. */
  function Classify(p: Pending, token: string): Pending {
    if HasResponse(p) then p
    else if IsAcceptedResponse(token) then Pending(Some(token), true)
    else p
  }

  function CommandStep(s: State, token: string): State {
    s.(pending := Classify(s.pending, token))
  }

  /** The rotation handler on one token: restart the stall timer, then react to END and MOVERR. */
  function RotateStep(s: State, token: string): State {
    var restarted := s.(timerRunning := true, timerStarts := s.timerStarts + 1);
    if StartsWith(token, PositionPrefix) then restarted
    else if token == RotationEnd then
      restarted.(subscribers := Multicast.Remove(restarted.subscribers, RotateHandler), timerRunning := false)
    else if token == RotationError then restarted.(alerts := restarted.alerts + [MoveError])
    else restarted
  }

  function InvokeStep(s: State, h: Handler, token: string): State {
    match h
    case CommandHandler => CommandStep(s, token)
    case RotateHandler => RotateStep(s, token)
  }

  /** One token handed to every handler of a snapshot of the invocation list, in order. */
  function Fanout(s: State, snapshot: seq<Handler>, token: string): State
    decreases |snapshot|
  {
    if snapshot == [] then s else Fanout(InvokeStep(s, snapshot[0], token), snapshot[1..], token)
  }

  /** `DataReceived?.Invoke`: the snapshot is the invocation list at the moment of dispatch. */
  function Deliver(s: State, token: string): State {
    Fanout(s, s.subscribers, token)
  }

  /** Tokens dispatched one after another, in the order they were read. */
  function DeliverAll(s: State, tokens: seq<string>): State
    decreases |tokens|
  {
    if tokens == [] then s else DeliverAll(Deliver(s, tokens[0]), tokens[1..])
  }

  /** The stall timer runs out: a running timer stops (it does not restart itself) and warns once. */
  function Elapse(s: State): State {
    if s.timerRunning then s.(timerRunning := false, alerts := s.alerts + [StallWarning]) else s
  }

  // ---------------------------------------------------------------------------------------------
  // The reading loop

  /** What one `ReadLine` on the port gives. */
  datatype ReadOutcome =
    | Line(token: string)
    | Cancelled  // OperationCanceledException
    | Failed     // any other exception

  datatype ListenEnd =
    | StillReading       // blocked in ReadLine, waiting for the next line
    | CancelledSilently  // the cancellation was caught and the loop returned
    | Faulted            // the exception left the loop and ended its task

  /** The reading loop over a sequence of reads: dispatch every line until a read fails. */
  function ListenRun(s: State, results: seq<ReadOutcome>): (State, ListenEnd)
    decreases |results|
  {
    if results == [] then (s, StillReading)
    else match results[0]
      case Line(token) => ListenRun(Deliver(s, token), results[1..])
      case Cancelled => (s, CancelledSilently)
      case Failed => (s, Faulted)
  }

  // ---------------------------------------------------------------------------------------------
  // Sending a command

  const NotRespondingPrefix: string := "Table not responding to command. Command: "

  datatype SendError =
    | WriteFailed                  // the port refused the line
    | NotResponding(message: string)  // InvalidOperationException: no accepted token in time

  /** Clear the response slot and the event, and attach the command handler. */
  function Attach(s: State): State {
    s.(pending := Cleared, subscribers := Multicast.Combine(s.subscribers, CommandHandler))
  }

  /** The `finally` block: detach the command handler. */
  function Detach(s: State): State {
    s.(subscribers := Multicast.Remove(s.subscribers, CommandHandler))
  }

  /** The wait ends; an auto-reset event is cleared by the wait it releases. */
  function EndWait(s: State): State {
    s.(pending := s.pending.(signalled := false))
  }

  /** What the call returns once the wait is over: the slot's token, or the error naming the command. */
  function Outcome(p: Pending, command: string): (r: Result<string, SendError>)
    ensures r.Err? <==> p.response.None?
    ensures p.response.Some? ==> r == Ok(p.response.value)
    ensures r.Err? ==> r.error == NotResponding(NotRespondingPrefix + command)
    ensures r.Err? ==> EndsWith(r.error.message, command)
  {
    match p.response
    case None =>
      var message := NotRespondingPrefix + command;
      assert message[|message| - |command|..] == command;
      Err(NotResponding(message))
    case Some(token) => Ok(token)
  }

  /**
   * `SendCommandAndGetResponseAsync`: clear the slot, attach the command handler, reset the event,
   * write the command, let the replies that arrive before the wait ends be dispatched, then detach.
   */
  function Send(s: State, command: string, replies: seq<string>, writeFails: bool): (State, Result<string, SendError>) {
    var armed := Attach(s);
    if writeFails || !s.portOpen then (Detach(armed), Err(WriteFailed))
    else
      var delivered := DeliverAll(armed.(written := s.written + [command]), replies);
      (Detach(EndWait(delivered)), Outcome(delivered.pending, command))
  }

  // ---------------------------------------------------------------------------------------------
  // The session

  /** The state after the port opened: a fresh listener, so no handler is attached. */
  function Opened(s: State): State {
    s.(subscribers := [], portOpen := true)
  }

  /** After a command: arm the watchdog when a rotation start was acknowledged with OK. */
  function Arm(s: State, command: string, response: string): State {
    if IsRotationStart(command) && response == RotationAccepted then
      s.(subscribers := Multicast.Combine(s.subscribers, RotateHandler), timerRunning := true,
         timerStarts := s.timerStarts + 1)
    else s
  }

  /**
   * What can happen during a session, serialised: the operator enters a line (with the replies that
   * arrive while the command waits, and whether writing it fails), the reader dispatches a token
   * while no command is waiting, or the stall timer runs out.
   */
  datatype SessionEvent =
    | Input(line: Option<string>, replies: seq<string>, writeFails: bool)
    | Received(token: string)
    | TimerExpired

  datatype SessionEnd =
    | Quit                      // an empty line or the end of input
    | Crashed(error: SendError)  // a command failed; the exception left the loop
    | AwaitingInput             // the loop still waits for the next line

  datatype Step = Continue(state: State) | Stop(state: State, end: SessionEnd)

  function HandleEvent(s: State, e: SessionEvent): Step {
    match e
    case Input(line, replies, writeFails) =>
      if line.None? || line.value == "" then Stop(s.(portOpen := false), Quit)
      else
        var sent := Send(s, line.value, replies, writeFails);
        (match sent.1
         case Err(error) => Stop(sent.0.(portOpen := false), Crashed(error))
         case Ok(response) => Continue(Arm(sent.0, line.value, response)))
    case Received(token) => Continue(Deliver(s, token))
    case TimerExpired => Continue(Elapse(s))
  }

  /** The command loop of `ProcessAsync` over a session; the port is closed whenever the loop ends. */
  function Run(s: State, events: seq<SessionEvent>): (State, SessionEnd)
    decreases |events|
  {
    if events == [] then (s, AwaitingInput)
    else match HandleEvent(s, events[0])
      case Continue(next) => Run(next, events[1..])
      case Stop(last, end) => (last, end)
  }
}
