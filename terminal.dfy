/**
 * The terminal: its handlers update the response slot, the wake-up event, the stall timer and the
 * listener's invocation list in place. Every method is proved to have the effect the corresponding
 * function of `TerminalSpec` gives to the abstract state `Abs()`.
 */
module Terminal {
  import opened Basics
  import opened Protocol
  import opened TerminalSpec
  import Multicast
  import Transport
  import L = Listener

  datatype ProcessEnd = PortNotOpened | Ended(end: SessionEnd)

  class Terminal {
    const port: Transport.SerialPort
    var listener: L.Listener<Handler>
    /** `_response`: the accepted token of the command in flight, or null. */
    var response: Option<string>
    /** Whether `_listeningEvent` is set. */
    var signalled: bool
    /** Whether `_listeningTimer` is counting towards its 3000 ms expiry. */
    var timerRunning: bool
    /** How many times `_listeningTimer.Start()` has been called. */
    var timerStarts: nat
    /** The stall warnings and move errors written to the console, in order. */
    var alerts: seq<Alert>

    function Abs(): State
      reads this, listener, port
    {
      State(Pending(response, signalled), listener.dataReceived, timerRunning, timerStarts, alerts, port.isOpen, port.written)
    }

    constructor ()
      ensures Abs() == State(Cleared, [], false, 0, [], false, [])
      ensures port.portName == Transport.DefaultPortName
      ensures fresh(port) && fresh(listener)
    {
      port := new Transport.SerialPort();
      listener := new L.Listener();
      response := None;
      signalled := false;
      timerRunning := false;
      timerStarts := 0;
      alerts := [];
    }

    /** Keeps the first token that answers the command in flight and wakes the waiting caller. */
    method CommandHandler(token: string)
      modifies this
      ensures listener == old(listener)
      ensures Abs() == CommandStep(old(Abs()), token)
    {
      if response.Some? && response.value != "" {
        return;
      }
      if ParseInt32(token).Some? {
        response := Some(token);
        signalled := true;
        return;
      }
      if token in StatusWords {
        response := Some(token);
        signalled := true;
      }
    }

    /** Watches a rotation: every token restarts the stall timer; END detaches, MOVERR is reported. */
    method RotateHandler(token: string)
      modifies this, listener
      ensures listener == old(listener)
      ensures listener.port == old(listener.port) && listener.readLoops == old(listener.readLoops)
      ensures Abs() == RotateStep(old(Abs()), token)
    {
      timerRunning := true;  // Stop() then Start(): a new stall window begins
      timerStarts := timerStarts + 1;
      if StartsWith(token, PositionPrefix) {
        // a progress report; only traced
      } else if token == RotationEnd {
        listener.Unsubscribe(Handler.RotateHandler);
        timerRunning := false;
      } else if token == RotationError {
        alerts := alerts + [MoveError];
      }
    }

    /** The `Elapsed` handler of the one-shot stall timer. */
    method TimerElapsed()
      modifies this
      ensures listener == old(listener)
      ensures Abs() == Elapse(old(Abs()))
    {
      if timerRunning {
        timerRunning := false;
        alerts := alerts + [StallWarning];
      }
    }

    method Invoke(h: Handler, token: string)
      modifies this, listener
      ensures listener == old(listener)
      ensures listener.port == old(listener.port) && listener.readLoops == old(listener.readLoops)
      ensures Abs() == InvokeStep(old(Abs()), h, token)
    {
      match h
      case CommandHandler => CommandHandler(token);
      case RotateHandler => RotateHandler(token);
    }

    /** `DataReceived?.Invoke(...)`: every handler attached when the token arrives, in attachment order. */
    method Publish(token: string)
      modifies this, listener
      ensures listener == old(listener)
      ensures listener.port == old(listener.port) && listener.readLoops == old(listener.readLoops)
      ensures Abs() == Deliver(old(Abs()), token)
    {
      var snapshot := listener.dataReceived;
      var i := 0;
      while i < |snapshot|
        invariant i <= |snapshot|
        invariant listener == old(listener)
        invariant listener.port == old(listener.port) && listener.readLoops == old(listener.readLoops)
        invariant Fanout(Abs(), snapshot[i..], token) == Deliver(old(Abs()), token)
      {
        Invoke(snapshot[i], token);
        i := i + 1;
      }
    }

    /** The listener's reading loop: dispatch each line read until a read throws. */
    method Listen(results: seq<ReadOutcome>) returns (end: ListenEnd)
      modifies this, listener
      ensures listener == old(listener)
      ensures listener.port == old(listener.port) && listener.readLoops == old(listener.readLoops)
      ensures (Abs(), end) == ListenRun(old(Abs()), results)
    {
      var i := 0;
      while i < |results|
        invariant i <= |results|
        invariant listener == old(listener)
        invariant listener.port == old(listener.port) && listener.readLoops == old(listener.readLoops)
        invariant ListenRun(Abs(), results[i..]) == ListenRun(old(Abs()), results)
      {
        if results[i].Cancelled? {
          return CancelledSilently;
        } else if results[i].Failed? {
          return Faulted;
        }
        Publish(results[i].token);
        i := i + 1;
      }
      end := StillReading;
    }

    /**
     * `_listeningEvent.WaitOne(500)`: the reader dispatches these tokens, in order, while the caller
     * waits; the wait then ends and an event it found set is reset.
     */
    method AwaitReplies(replies: seq<string>)
      modifies this, listener
      ensures listener == old(listener)
      ensures listener.port == old(listener.port) && listener.readLoops == old(listener.readLoops)
      ensures Abs() == EndWait(DeliverAll(old(Abs()), replies))
    {
      var i := 0;
      while i < |replies|
        invariant i <= |replies|
        invariant listener == old(listener)
        invariant listener.port == old(listener.port) && listener.readLoops == old(listener.readLoops)
        invariant DeliverAll(Abs(), replies[i..]) == DeliverAll(old(Abs()), replies)
      {
        Publish(replies[i]);
        i := i + 1;
      }
      assert replies[i..] == [];
      signalled := false;  // an auto-reset event is cleared by the wait it releases
    }

    /**
     * `SendCommandAndGetResponseAsync`. The replies are the tokens the reader dispatches between the
     * write and the end of the 500 ms wait.
     */
    method SendCommandAndGetResponse(command: string, replies: seq<string>, writeFails: bool)
      returns (r: Result<string, SendError>)
      modifies this, listener, port
      ensures listener == old(listener)
      ensures listener.port == old(listener.port) && listener.readLoops == old(listener.readLoops)
      ensures port.portName == old(port.portName)
      ensures (Abs(), r) == Send(old(Abs()), command, replies, writeFails)
    {
      ghost var s0 := Abs();
      ghost var armed := Attach(s0);
      response := None;
      listener.Subscribe(Handler.CommandHandler);
      signalled := false;  // _listeningEvent.Reset()
      assert Abs() == armed;
      var written := port.WriteLine(command, writeFails);
      if !written {
        r := Err(WriteFailed);
      } else {
        ghost var waiting := armed.(written := s0.written + [command]);
        assert Abs() == waiting;
        AwaitReplies(replies);
        assert Abs() == EndWait(DeliverAll(waiting, replies));
        var result := response;
        if result.None? {
          r := Err(NotResponding(NotRespondingPrefix + command));
        } else {
          r := Ok(result.value);
        }
      }
      listener.Unsubscribe(Handler.CommandHandler);  // finally
    }

    /** Chooses the port name, opens the port and starts listening on a new listener. */
    method OpenPort(typed: Option<string>, deviceFails: bool) returns (ok: bool)
      modifies this, port
      ensures ok <==> typed.Some? && !deviceFails && !old(port.isOpen)
      ensures ok ==> port.portName == SetPortName(old(port.portName), typed).value
      ensures ok ==> fresh(listener) && listener.port == port && listener.readLoops == 1
      ensures !ok ==> listener == old(listener)
      ensures Abs() == if ok then Opened(old(Abs())) else old(Abs())
    {
      var name := SetPortName(port.portName, typed);
      if name.Err? {
        return false;  // NullReferenceException, caught
      }
      if port.isOpen {
        return false;  // the PortName setter refuses an open port
      }
      port.portName := name.value;
      ok := port.Open(deviceFails);
      if !ok {
        return;
      }
      listener := new L.Listener();
      var started := listener.BeginListening(port);
    }

    /** One turn of the command loop of `ProcessAsync`, or a token or timer expiry in between. */
    method Step(e: SessionEvent) returns (stop: Option<SessionEnd>)
      modifies this, listener, port
      ensures listener == old(listener)
      ensures listener.port == old(listener.port) && listener.readLoops == old(listener.readLoops)
      ensures port.portName == old(port.portName)
      ensures HandleEvent(old(Abs()), e) == if stop.None? then Continue(Abs()) else Stop(Abs(), stop.value)
    {
      match e
      case Input(line, replies, writeFails) =>
        if line.None? || line.value == "" {
          port.Close();
          return Some(Quit);
        }
        var command := line.value;
        var r := SendCommandAndGetResponse(command, replies, writeFails);
        ghost var sent := Abs();
        if r.Err? {
          port.Close();  // the exception leaves the loop; finally closes the port
          assert Abs() == sent.(portOpen := false);
          return Some(Crashed(r.error));
        }
        if IsRotationStart(command) && r.value == RotationAccepted {
          listener.Subscribe(Handler.RotateHandler);
          timerRunning := true;
          timerStarts := timerStarts + 1;
        }
        assert Abs() == Arm(sent, command, r.value);
        stop := None;
      case Received(token) =>
        Publish(token);
        stop := None;
      case TimerExpired =>
        TimerElapsed();
        stop := None;
    }

    /**
     * `ProcessAsync`: open the port, then send each line the operator enters until an empty line,
     * the end of input or a failed command; arm the watchdog after an acknowledged rotation start.
     */
    method Process(typed: Option<string>, deviceFails: bool, events: seq<SessionEvent>) returns (end: ProcessEnd)
      modifies this, listener, port
      ensures end == PortNotOpened <==> !(typed.Some? && !deviceFails && !old(port.isOpen))
      ensures end == PortNotOpened ==> Abs() == old(Abs())
      ensures end.Ended? ==> (Abs(), end.end) == Run(Opened(old(Abs())), events)
      ensures end.Ended? ==> SetPortName(old(port.portName), typed) == Ok(port.portName)
      ensures end.Ended? ==> listener.port == port && listener.readLoops == 1
    {
      var ok := OpenPort(typed, deviceFails);
      if !ok {
        return PortNotOpened;
      }
      ghost var start := Abs();
      var i := 0;
      while i < |events|
        invariant i <= |events|
        invariant fresh(listener)
        invariant SetPortName(old(port.portName), typed) == Ok(port.portName)
        invariant listener.port == port && listener.readLoops == 1
        invariant Run(Abs(), events[i..]) == Run(start, events)
      {
        var stop := Step(events[i]);
        assert events[i..][0] == events[i] && events[i..][1..] == events[i + 1..];
        if stop.Some? {
          return Ended(stop.value);
        }
        i := i + 1;
      }
      end := Ended(AwaitingInput);
    }
  }
}
