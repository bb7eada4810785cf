/**
 * What the terminal's token handling guarantees, proved about the functions of `TerminalSpec`
 * (and so, through the methods' contracts, about class `Terminal.Terminal`).
 */
module TerminalProperties {
  import opened Basics
  import opened Protocol
  import opened TerminalSpec
  import Multicast

  // ---------------------------------------------------------------------------------------------
  // The command classifier: the first accepted token wins

  /** The position of the first token that answers a command, or the length when none does. */
  function FirstAcceptedIndex(tokens: seq<string>): (i: nat)
    ensures i <= |tokens|
    ensures i < |tokens| ==> IsAcceptedResponse(tokens[i])
    ensures forall j :: 0 <= j < i ==> !IsAcceptedResponse(tokens[j])
    decreases |tokens|
  {
    if tokens == [] then 0
    else if IsAcceptedResponse(tokens[0]) then 0
    else 1 + FirstAcceptedIndex(tokens[1..])
  }

  /** The first token that answers a command, if any. */
  function FirstAccepted(tokens: seq<string>): Option<string> {
    var i := FirstAcceptedIndex(tokens);
    if i < |tokens| then Some(tokens[i]) else None
  }

  /** The response slot after the command handler has seen each of `tokens` once. */
  function ClassifyAll(p: Pending, tokens: seq<string>): Pending
    decreases |tokens|
  {
    if tokens == [] then p else ClassifyAll(Classify(p, tokens[0]), tokens[1..])
  }

  /** A token that answers a command fills an empty slot with exactly that token and sets the event. */
  lemma AcceptedTokenFillsSlot(p: Pending, token: string)
    requires !HasResponse(p)
    ensures Classify(p, token) == if IsAcceptedResponse(token) then Pending(Some(token), true) else p
    ensures Classify(p, token).signalled && !p.signalled ==> IsAcceptedResponse(token)
  {
  }

  /** Once the slot holds a response, later tokens change neither the slot nor the event. */
  lemma {:induction false} FilledSlotIsFinal(p: Pending, tokens: seq<string>)
    requires HasResponse(p)
    ensures ClassifyAll(p, tokens) == p
    decreases |tokens|
  {
    if tokens != [] {
      FilledSlotIsFinal(Classify(p, tokens[0]), tokens[1..]);
    }
  }

  /** From a cleared slot, the handler keeps the first accepted token and signals iff there is one. */
  lemma {:induction false} ClassifierKeepsFirstAccepted(tokens: seq<string>)
    ensures ClassifyAll(Cleared, tokens).response == FirstAccepted(tokens)
    ensures ClassifyAll(Cleared, tokens).signalled <==> FirstAccepted(tokens).Some?
    decreases |tokens|
  {
    if tokens != [] {
      if IsAcceptedResponse(tokens[0]) {
        AcceptedResponseNotEmpty(tokens[0]);
        FilledSlotIsFinal(Pending(Some(tokens[0]), true), tokens[1..]);
      } else {
        ClassifierKeepsFirstAccepted(tokens[1..]);
        assert FirstAcceptedIndex(tokens) == 1 + FirstAcceptedIndex(tokens[1..]);
      }
    }
  }

  // ---------------------------------------------------------------------------------------------
  // Fan-out

  /** Seeing the same token twice is the same as seeing it once. */
  lemma ClassifyIdempotent(p: Pending, token: string)
    ensures Classify(Classify(p, token), token) == Classify(p, token)
  {
    if !HasResponse(p) && IsAcceptedResponse(token) {
      AcceptedResponseNotEmpty(token);
    }
  }

  /** Only the command handler touches the slot, and a token reaches it iff it is in the snapshot. */
  lemma {:induction false} FanoutPending(s: State, snapshot: seq<Handler>, token: string)
    ensures Fanout(s, snapshot, token).pending ==
            if CommandHandler in snapshot then Classify(s.pending, token) else s.pending
    decreases |snapshot|
  {
    if snapshot != [] {
      var next := InvokeStep(s, snapshot[0], token);
      FanoutPending(next, snapshot[1..], token);
      assert CommandHandler in snapshot <==> snapshot[0] == CommandHandler || CommandHandler in snapshot[1..];
      if snapshot[0] == CommandHandler {
        assert next.pending == Classify(s.pending, token);
        ClassifyIdempotent(s.pending, token);
      } else {
        RotateHandlerEffect(s, token);
        assert next.pending == s.pending;
      }
    }
  }

  /** Handlers only ever detach the rotation handler, never the command handler. */
  lemma {:induction false} FanoutDetachesOnlyRotation(s: State, snapshot: seq<Handler>, token: string)
    ensures multiset(Fanout(s, snapshot, token).subscribers)[CommandHandler] == multiset(s.subscribers)[CommandHandler]
    ensures multiset(Fanout(s, snapshot, token).subscribers)[RotateHandler] <= multiset(s.subscribers)[RotateHandler]
    ensures RotateHandler !in snapshot || token != RotationEnd ==> Fanout(s, snapshot, token).subscribers == s.subscribers
    decreases |snapshot|
  {
    if snapshot != [] {
      FanoutDetachesOnlyRotation(InvokeStep(s, snapshot[0], token), snapshot[1..], token);
      if snapshot[0] == RotateHandler {
        RotateHandlerEffect(s, token);
      }
    }
  }

  /** A run of dispatches never detaches the command handler, and detaches nothing without an END. */
  lemma {:induction false} DeliverAllDetachesOnlyRotation(s: State, tokens: seq<string>)
    ensures multiset(DeliverAll(s, tokens).subscribers)[CommandHandler] == multiset(s.subscribers)[CommandHandler]
    ensures multiset(DeliverAll(s, tokens).subscribers)[RotateHandler] <= multiset(s.subscribers)[RotateHandler]
    ensures RotateHandler !in s.subscribers || RotationEnd !in tokens ==> DeliverAll(s, tokens).subscribers == s.subscribers
    decreases |tokens|
  {
    if tokens != [] {
      var next := Deliver(s, tokens[0]);
      FanoutDetachesOnlyRotation(s, s.subscribers, tokens[0]);
      DeliverAllDetachesOnlyRotation(next, tokens[1..]);
      assert DeliverAll(s, tokens) == DeliverAll(next, tokens[1..]);
      assert RotationEnd !in tokens ==> tokens[0] != RotationEnd && RotationEnd !in tokens[1..];
      if RotateHandler !in s.subscribers {
        assert multiset(s.subscribers)[RotateHandler] == 0;
        assert multiset(next.subscribers)[RotateHandler] == 0;
        assert RotateHandler !in next.subscribers;
      }
    }
  }

  /** With the command handler attached, the slot follows the tokens in the order they are read. */
  lemma {:induction false} DeliverAllPending(s: State, tokens: seq<string>)
    requires CommandHandler in s.subscribers
    ensures DeliverAll(s, tokens).pending == ClassifyAll(s.pending, tokens)
    ensures multiset(DeliverAll(s, tokens).subscribers)[CommandHandler] == multiset(s.subscribers)[CommandHandler]
    ensures multiset(DeliverAll(s, tokens).subscribers)[RotateHandler] <= multiset(s.subscribers)[RotateHandler]
    ensures RotateHandler !in s.subscribers || RotationEnd !in tokens ==> DeliverAll(s, tokens).subscribers == s.subscribers
    decreases |tokens|
  {
    DeliverAllDetachesOnlyRotation(s, tokens);
    if tokens != [] {
      var next := Deliver(s, tokens[0]);
      FanoutPending(s, s.subscribers, tokens[0]);
      FanoutDetachesOnlyRotation(s, s.subscribers, tokens[0]);
      assert multiset(next.subscribers)[CommandHandler] > 0;
      DeliverAllPending(next, tokens[1..]);
      assert DeliverAll(s, tokens) == DeliverAll(next, tokens[1..]);
      assert ClassifyAll(s.pending, tokens) == ClassifyAll(Classify(s.pending, tokens[0]), tokens[1..]);
    }
  }

  /** A token read while no handler is attached is dropped without a trace. */
  lemma UnobservedTokenDropped(s: State, token: string)
    requires s.subscribers == []
    ensures Deliver(s, token) == s
  {
  }

  // ---------------------------------------------------------------------------------------------
  // Sending a command

  /**
   * The call returns the first reply that answers the command, whatever the slot held before;
   * without one it fails with the error that names the command; a refused write fails at once.
   */
  lemma SendReturnsFirstAccepted(s: State, command: string, replies: seq<string>, writeFails: bool)
    ensures Send(s, command, replies, writeFails).1 ==
      if writeFails || !s.portOpen then Err(WriteFailed)
      else match FirstAccepted(replies)
        case Some(token) => Ok(token)
        case None => Err(NotResponding(NotRespondingPrefix + command))
  {
    if !writeFails && s.portOpen {
      var waiting := Attach(s).(written := s.written + [command]);
      DeliverAllPending(waiting, replies);
      ClassifierKeepsFirstAccepted(replies);
    }
  }

  /**
   * The command handler is detached on every path: afterwards it is attached as often as before, and
   * unless a rotation completes meanwhile the invocation list is exactly the one before the call.
   */
  lemma SendDetachesCommandHandler(s: State, command: string, replies: seq<string>, writeFails: bool)
    ensures multiset(Send(s, command, replies, writeFails).0.subscribers)[CommandHandler] ==
            multiset(s.subscribers)[CommandHandler]
    ensures multiset(Send(s, command, replies, writeFails).0.subscribers)[RotateHandler] <=
            multiset(s.subscribers)[RotateHandler]
    ensures writeFails || !s.portOpen || RotateHandler !in s.subscribers || RotationEnd !in replies ==>
            Send(s, command, replies, writeFails).0.subscribers == s.subscribers
  {
    Multicast.RemoveUndoesCombine(s.subscribers, CommandHandler);
    if !writeFails && s.portOpen {
      var waiting := Attach(s).(written := s.written + [command]);
      DeliverAllPending(waiting, replies);
    }
  }

  /** Without a watchdog attached, dispatching a token changes nothing but the response slot. */
  lemma {:induction false} FanoutWithoutWatchdog(s: State, snapshot: seq<Handler>, token: string)
    requires RotateHandler !in snapshot
    ensures Fanout(s, snapshot, token) == s.(pending := Fanout(s, snapshot, token).pending)
    decreases |snapshot|
  {
    if snapshot != [] {
      assert snapshot[0] == CommandHandler;
      FanoutWithoutWatchdog(InvokeStep(s, snapshot[0], token), snapshot[1..], token);
    }
  }

  lemma {:induction false} DeliverAllWithoutWatchdog(s: State, tokens: seq<string>)
    requires RotateHandler !in s.subscribers
    ensures DeliverAll(s, tokens) == s.(pending := DeliverAll(s, tokens).pending)
    decreases |tokens|
  {
    if tokens != [] {
      FanoutWithoutWatchdog(s, s.subscribers, tokens[0]);
      DeliverAllWithoutWatchdog(Deliver(s, tokens[0]), tokens[1..]);
    }
  }

  /**
   * A command sent while no rotation is watched changes only the response slot, which ends holding
   * the first accepted reply, and the lines written.
   */
  lemma SendWithoutWatchdog(s: State, command: string, replies: seq<string>, writeFails: bool)
    requires RotateHandler !in s.subscribers
    ensures Send(s, command, replies, writeFails).0 ==
      if writeFails || !s.portOpen then s.(pending := Cleared)
      else s.(pending := Pending(FirstAccepted(replies), false), written := s.written + [command])
  {
    Multicast.RemoveUndoesCombine(s.subscribers, CommandHandler);
    if !writeFails && s.portOpen {
      var waiting := Attach(s).(written := s.written + [command]);
      DeliverAllWithoutWatchdog(waiting, replies);
      DeliverAllPending(waiting, replies);
      ClassifierKeepsFirstAccepted(replies);
    }
  }

  /** The call writes the command, and only the command, exactly when the port accepts it. */
  lemma SendWritesCommand(s: State, command: string, replies: seq<string>, writeFails: bool)
    ensures Send(s, command, replies, writeFails).0.written ==
            if writeFails || !s.portOpen then s.written else s.written + [command]
    ensures Send(s, command, replies, writeFails).0.portOpen == s.portOpen
    ensures !Send(s, command, replies, writeFails).0.pending.signalled
  {
    var waiting := Attach(s).(written := s.written + [command]);
    DeliverAllKeepsPort(waiting, replies);
  }

  lemma {:induction false} DeliverAllKeepsPort(s: State, tokens: seq<string>)
    ensures DeliverAll(s, tokens).written == s.written && DeliverAll(s, tokens).portOpen == s.portOpen
    decreases |tokens|
  {
    if tokens != [] {
      FanoutKeepsPort(s, s.subscribers, tokens[0]);
      DeliverAllKeepsPort(Deliver(s, tokens[0]), tokens[1..]);
    }
  }

  lemma {:induction false} FanoutKeepsPort(s: State, snapshot: seq<Handler>, token: string)
    ensures Fanout(s, snapshot, token).written == s.written && Fanout(s, snapshot, token).portOpen == s.portOpen
    decreases |snapshot|
  {
    if snapshot != [] {
      FanoutKeepsPort(InvokeStep(s, snapshot[0], token), snapshot[1..], token);
    }
  }

  // ---------------------------------------------------------------------------------------------
  // The rotation watchdog

  /** One call of the rotation handler: the timer runs afterwards unless the token is END. */
  lemma RotateHandlerEffect(s: State, token: string)
    ensures RotateStep(s, token).timerRunning <==> token != RotationEnd
    ensures token == RotationEnd ==>
            multiset(RotateStep(s, token).subscribers) == multiset(s.subscribers) - multiset{RotateHandler}
    ensures token != RotationEnd ==> RotateStep(s, token).subscribers == s.subscribers
    ensures RotateStep(s, token).alerts == s.alerts + if token == RotationError then [MoveError] else []
    ensures RotateStep(s, token).pending == s.pending
    ensures RotateStep(s, token).written == s.written && RotateStep(s, token).portOpen == s.portOpen
  {
    if token == RotationEnd || token == RotationError {
      assert token[0] != 'P';
      assert !StartsWith(token, PositionPrefix);
    }
  }

  /** `n` move-error reports. */
  function MoveErrors(n: nat): seq<Alert>
    decreases n
  {
    if n == 0 then [] else [MoveError] + MoveErrors(n - 1)
  }

  /**
   * A token other than END reaches every attached rotation handler: the list stays as it is, the
   * timer runs if one is attached, and MOVERR is reported once per attachment.
   */
  lemma {:induction false} FanoutOtherToken(s: State, snapshot: seq<Handler>, token: string)
    requires token != RotationEnd
    ensures Fanout(s, snapshot, token).subscribers == s.subscribers
    ensures Fanout(s, snapshot, token).timerRunning == (s.timerRunning || RotateHandler in snapshot)
    ensures Fanout(s, snapshot, token).alerts ==
            s.alerts + if token == RotationError then MoveErrors(multiset(snapshot)[RotateHandler]) else []
    decreases |snapshot|
  {
    if snapshot != [] {
      var next := InvokeStep(s, snapshot[0], token);
      FanoutOtherToken(next, snapshot[1..], token);
      assert snapshot == [snapshot[0]] + snapshot[1..];
      var k := multiset(snapshot[1..])[RotateHandler];
      if snapshot[0] == RotateHandler {
        RotateHandlerEffect(s, token);
        assert multiset(snapshot)[RotateHandler] == k + 1;
        assert MoveErrors(k + 1) == [MoveError] + MoveErrors(k);
      } else {
        assert multiset(snapshot)[RotateHandler] == k;
        assert next.alerts == s.alerts && next.timerRunning == s.timerRunning;
      }
    }
  }

  /** Counting after one watchdog attachment is taken away. */
  lemma RotationDetached(before: seq<Handler>, after: seq<Handler>)
    requires multiset(after) == multiset(before) - multiset{RotateHandler}
    ensures multiset(after)[RotateHandler] ==
            if multiset(before)[RotateHandler] == 0 then 0 else multiset(before)[RotateHandler] - 1
    ensures multiset(after)[CommandHandler] == multiset(before)[CommandHandler]
  {
  }

  /** END reaches every rotation handler of the snapshot, and each takes one attachment away. */
  lemma FanoutEnd(s: State, snapshot: seq<Handler>)
    ensures var r := Fanout(s, snapshot, RotationEnd);
      && multiset(r.subscribers)[RotateHandler] ==
         (if multiset(s.subscribers)[RotateHandler] <= multiset(snapshot)[RotateHandler] then 0
          else multiset(s.subscribers)[RotateHandler] - multiset(snapshot)[RotateHandler])
      && multiset(r.subscribers)[CommandHandler] == multiset(s.subscribers)[CommandHandler]
      && r.timerRunning == (if RotateHandler in snapshot then false else s.timerRunning)
  {
    FanoutEndCount(s, snapshot);
    FanoutDetachesOnlyRotation(s, snapshot, RotationEnd);
    FanoutEndStopsTimer(s, snapshot);
  }

  /** Each watchdog of the snapshot takes one watchdog attachment away, as long as there is one. */
  lemma {:induction false} FanoutEndCount(s: State, snapshot: seq<Handler>)
    ensures multiset(Fanout(s, snapshot, RotationEnd).subscribers)[RotateHandler] ==
         (if multiset(s.subscribers)[RotateHandler] <= multiset(snapshot)[RotateHandler] then 0
          else multiset(s.subscribers)[RotateHandler] - multiset(snapshot)[RotateHandler])
    decreases |snapshot|
  {
    if snapshot != [] {
      var next := InvokeStep(s, snapshot[0], RotationEnd);
      FanoutEndCount(next, snapshot[1..]);
      assert Fanout(s, snapshot, RotationEnd) == Fanout(next, snapshot[1..], RotationEnd);
      assert snapshot == [snapshot[0]] + snapshot[1..];
      var a := multiset(s.subscribers)[RotateHandler];
      var k := multiset(snapshot[1..])[RotateHandler];
      if snapshot[0] == RotateHandler {
        RotateHandlerEffect(s, RotationEnd);
        assert multiset(snapshot)[RotateHandler] == k + 1;
        RotationDetached(s.subscribers, next.subscribers);
        var n := multiset(next.subscribers)[RotateHandler];
        assert n == if a == 0 then 0 else a - 1;
        assert (if n <= k then 0 else n - k) == (if a <= k + 1 then 0 else a - (k + 1));
      } else {
        assert multiset(snapshot)[RotateHandler] == k;
        assert next.subscribers == s.subscribers;
      }
    }
  }

  /** END stops the timer when it reaches a watchdog, and leaves it alone otherwise. */
  lemma {:induction false} FanoutEndStopsTimer(s: State, snapshot: seq<Handler>)
    ensures Fanout(s, snapshot, RotationEnd).timerRunning == (if RotateHandler in snapshot then false else s.timerRunning)
    decreases |snapshot|
  {
    if snapshot != [] {
      var next := InvokeStep(s, snapshot[0], RotationEnd);
      FanoutEndStopsTimer(next, snapshot[1..]);
      assert RotateHandler in snapshot <==> snapshot[0] == RotateHandler || RotateHandler in snapshot[1..];
      if snapshot[0] == RotateHandler {
        RotateHandlerEffect(s, RotationEnd);
      } else {
        assert next.timerRunning == s.timerRunning;
      }
    }
  }

  /**
   * END detaches the watchdog completely and stops the timer: even when the handler was attached
   * several times, END is dispatched to every attachment of the snapshot and each detaches one.
   */
  lemma EndDisarmsWatchdog(s: State)
    requires RotateHandler in s.subscribers
    ensures RotateHandler !in Deliver(s, RotationEnd).subscribers
    ensures !Deliver(s, RotationEnd).timerRunning
    ensures multiset(Deliver(s, RotationEnd).subscribers)[CommandHandler] == multiset(s.subscribers)[CommandHandler]
  {
    FanoutEnd(s, s.subscribers);
  }

  /** The stall timer is one-shot: one warning per expiry of a running timer, the list untouched. */
  lemma TimerIsOneShot(s: State)
    ensures Elapse(Elapse(s)) == Elapse(s)
    ensures !Elapse(s).timerRunning
    ensures Elapse(s).alerts == s.alerts + if s.timerRunning then [StallWarning] else []
    ensures Elapse(s).subscribers == s.subscribers
  {
  }

  // ---------------------------------------------------------------------------------------------
  // The session

  /** The watchdog is armed after a command iff the command starts with "FM " and the reply is OK. */
  lemma ArmingRule(s: State, command: string, replies: seq<string>, writeFails: bool)
    requires command != ""
    requires Send(s, command, replies, writeFails).1.Ok?
    ensures var sent := Send(s, command, replies, writeFails);
      var next := HandleEvent(s, Input(Some(command), replies, writeFails));
      && next.Continue?
      && (next.state != sent.0 <==> IsRotationStart(command) && sent.1.value == RotationAccepted)
      && (next.state != sent.0 ==>
            next.state.subscribers == sent.0.subscribers + [RotateHandler] && next.state.timerRunning)
  {
  }

  /** Only an acknowledged rotation start attaches a rotation handler; no other event adds one. */
  lemma OnlyArmingAttaches(s: State, e: SessionEvent)
    ensures var after := HandleEvent(s, e).state;
      multiset(after.subscribers)[RotateHandler] > multiset(s.subscribers)[RotateHandler] ==>
        && e.Input? && e.line.Some? && IsRotationStart(e.line.value)
        && Send(s, e.line.value, e.replies, e.writeFails).1 == Ok(RotationAccepted)
  {
    match e
    case Input(line, replies, writeFails) =>
      if line.Some? && line.value != "" {
        var sent := Send(s, line.value, replies, writeFails);
        SendDetachesCommandHandler(s, line.value, replies, writeFails);
        if sent.1.Ok? {
          var armed := IsRotationStart(line.value) && sent.1.value == RotationAccepted;
          assert HandleEvent(s, e).state == Arm(sent.0, line.value, sent.1.value);
          if !armed {
            assert HandleEvent(s, e).state == sent.0;
          }
        } else {
          assert HandleEvent(s, e).state == sent.0.(portOpen := false);
        }
      }
    case Received(token) =>
      FanoutDetachesOnlyRotation(s, s.subscribers, token);
    case TimerExpired =>
  }

  /** An empty line or the end of input ends the session at once: nothing is sent, the port closes. */
  lemma EmptyLineEndsSession(s: State, line: Option<string>, replies: seq<string>, writeFails: bool, rest: seq<SessionEvent>)
    requires line.None? || line.value == ""
    ensures Run(s, [Input(line, replies, writeFails)] + rest) == (s.(portOpen := false), Quit)
  {
    assert ([Input(line, replies, writeFails)] + rest)[0] == Input(line, replies, writeFails);
  }

  /** A command nobody answers ends the session with the error naming it; the port closes. */
  lemma UnansweredCommandEndsSession(s: State, command: string, replies: seq<string>, rest: seq<SessionEvent>)
    requires command != "" && s.portOpen
    requires forall i :: 0 <= i < |replies| ==> !IsAcceptedResponse(replies[i])
    ensures var r := Run(s, [Input(Some(command), replies, false)] + rest);
      r.1 == Crashed(NotResponding(NotRespondingPrefix + command)) && !r.0.portOpen
  {
    var e := Input(Some(command), replies, false);
    assert ([e] + rest)[0] == e;
    FirstAcceptedNone(replies);
    SendReturnsFirstAccepted(s, command, replies, false);
    var sent := Send(s, command, replies, false);
    assert sent.1 == Err(NotResponding(NotRespondingPrefix + command));
    assert HandleEvent(s, e) == Stop(sent.0.(portOpen := false), Crashed(sent.1.error));
  }

  /** Without an accepted token there is no first accepted token. */
  lemma FirstAcceptedNone(tokens: seq<string>)
    requires forall i :: 0 <= i < |tokens| ==> !IsAcceptedResponse(tokens[i])
    ensures FirstAccepted(tokens) == None
  {
  }

  /** How many stall warnings have been written. */
  function StallWarnings(alerts: seq<Alert>): nat {
    multiset(alerts)[StallWarning]
  }

  /** The measure: warnings written so far, plus one if the timer is counting. */
  function Potential(s: State): nat {
    StallWarnings(s.alerts) + if s.timerRunning then 1 else 0
  }

  /**
   * From `before` to `after` the measure grew by no more than the number of timer starts in
   * between, and the count of starts never went down.
   */
  predicate WithinStarts(before: State, after: State) {
    before.timerStarts <= after.timerStarts &&
    Potential(after) + before.timerStarts <= Potential(before) + after.timerStarts
  }

  /** The rotation handler starts the timer exactly once per call and writes no stall warning. */
  lemma RotateStepStartsOnce(s: State, token: string)
    ensures RotateStep(s, token).timerStarts == s.timerStarts + 1
    ensures StallWarnings(RotateStep(s, token).alerts) == StallWarnings(s.alerts)
    ensures WithinStarts(s, RotateStep(s, token))
  {
    RotateHandlerEffect(s, token);
    assert multiset(RotateStep(s, token).alerts)[StallWarning] == multiset(s.alerts)[StallWarning];
  }

  /** A command handler call leaves the timer and the warnings alone. */
  lemma CommandStepKeepsTimer(s: State, token: string)
    ensures CommandStep(s, token).timerStarts == s.timerStarts
    ensures CommandStep(s, token).timerRunning == s.timerRunning
    ensures CommandStep(s, token).alerts == s.alerts
  {
  }

  /** One handler call starts the timer once if it is the rotation handler, and not at all otherwise. */
  lemma InvokeStarts(s: State, h: Handler, token: string)
    ensures InvokeStep(s, h, token).timerStarts == s.timerStarts + if h == RotateHandler then 1 else 0
  {
    match h
    case RotateHandler => RotateStepStartsOnce(s, token);
    case CommandHandler => CommandStepKeepsTimer(s, token);
  }

  /** One token starts the timer once per rotation handler in the snapshot. */
  lemma {:induction false} FanoutStarts(s: State, snapshot: seq<Handler>, token: string)
    ensures Fanout(s, snapshot, token).timerStarts == s.timerStarts + multiset(snapshot)[RotateHandler]
    decreases |snapshot|
  {
    if snapshot != [] {
      var next := InvokeStep(s, snapshot[0], token);
      assert Fanout(s, snapshot, token) == Fanout(next, snapshot[1..], token);
      FanoutStarts(next, snapshot[1..], token);
      InvokeStarts(s, snapshot[0], token);
      assert snapshot == [snapshot[0]] + snapshot[1..];
      assert multiset(snapshot)[RotateHandler] ==
             (if snapshot[0] == RotateHandler then 1 else 0) + multiset(snapshot[1..])[RotateHandler];
    }
  }

  /** One token writes no stall warning and grows the measure by no more than the starts it makes. */
  lemma {:induction false} FanoutPotential(s: State, snapshot: seq<Handler>, token: string)
    ensures StallWarnings(Fanout(s, snapshot, token).alerts) == StallWarnings(s.alerts)
    ensures WithinStarts(s, Fanout(s, snapshot, token))
    decreases |snapshot|
  {
    if snapshot != [] {
      var next := InvokeStep(s, snapshot[0], token);
      FanoutPotential(next, snapshot[1..], token);
      match snapshot[0]
      case RotateHandler =>
        RotateStepStartsOnce(s, token);
      case CommandHandler =>
        CommandStepKeepsTimer(s, token);
    }
  }

  lemma {:induction false} DeliverAllPotential(s: State, tokens: seq<string>)
    ensures WithinStarts(s, DeliverAll(s, tokens))
    decreases |tokens|
  {
    if tokens != [] {
      FanoutPotential(s, s.subscribers, tokens[0]);
      DeliverAllPotential(Deliver(s, tokens[0]), tokens[1..]);
    }
  }

  lemma SendPotential(s: State, command: string, replies: seq<string>, writeFails: bool)
    ensures WithinStarts(s, Send(s, command, replies, writeFails).0)
  {
    var waiting := Attach(s).(written := s.written + [command]);
    assert Potential(waiting) == Potential(s) && waiting.timerStarts == s.timerStarts;
    DeliverAllPotential(waiting, replies);
    var delivered := DeliverAll(waiting, replies);
    var after := Detach(EndWait(delivered));
    assert Potential(after) == Potential(delivered) && after.timerStarts == delivered.timerStarts;
  }

  lemma InputPotential(s: State, line: Option<string>, replies: seq<string>, writeFails: bool)
    ensures WithinStarts(s, HandleEvent(s, Input(line, replies, writeFails)).state)
  {
    if line.Some? && line.value != "" {
      var sent := Send(s, line.value, replies, writeFails);
      SendPotential(s, line.value, replies, writeFails);
      var next := HandleEvent(s, Input(line, replies, writeFails)).state;
      if sent.1.Ok? {
        assert next == Arm(sent.0, line.value, sent.1.value);
      } else {
        assert next == sent.0.(portOpen := false);
      }
    }
  }

  lemma HandleEventPotential(s: State, e: SessionEvent)
    ensures WithinStarts(s, HandleEvent(s, e).state)
  {
    match e
    case Input(line, replies, writeFails) =>
      InputPotential(s, line, replies, writeFails);
    case Received(token) =>
      FanoutPotential(s, s.subscribers, token);
    case TimerExpired =>
  }

  /**
   * Each start of the one-shot stall timer yields at most one warning: over a session, the warnings
   * written never exceed those already written, plus the timer starts during the session, plus
   * one for a timer already counting at its beginning.
   */
  lemma {:induction false} OneWarningPerStart(s: State, events: seq<SessionEvent>)
    ensures WithinStarts(s, Run(s, events).0)
    ensures StallWarnings(Run(s, events).0.alerts) + s.timerStarts <= Potential(s) + Run(s, events).0.timerStarts
    decreases |events|
  {
    if events != [] {
      HandleEventPotential(s, events[0]);
      var step := HandleEvent(s, events[0]);
      if step.Continue? {
        OneWarningPerStart(step.state, events[1..]);
      }
    }
  }

  /** From a fresh terminal, no more stall warnings are written than the timer was started. */
  lemma WarningsNeverExceedStarts(s: State, events: seq<SessionEvent>)
    requires s.alerts == [] && !s.timerRunning && s.timerStarts == 0
    ensures StallWarnings(Run(s, events).0.alerts) <= Run(s, events).0.timerStarts
  {
    OneWarningPerStart(s, events);
  }

  // ---------------------------------------------------------------------------------------------
  // The reading loop

  /** The lines read before the first read that throws. */
  function LeadingLines(results: seq<ReadOutcome>): (lines: seq<string>)
    ensures |lines| <= |results|
    ensures forall i :: 0 <= i < |lines| ==> results[i] == Line(lines[i])
    ensures |lines| < |results| ==> !results[|lines|].Line?
    decreases |results|
  {
    if results == [] || !results[0].Line? then []
    else [results[0].token] + LeadingLines(results[1..])
  }

  /**
   * The loop dispatches exactly the lines read before the first failing read, in order, and stops
   * there; a cancellation ends it silently, any other exception faults it, and nothing is dispatched.
   */
  lemma {:induction false} ListenDeliversLeadingLines(s: State, results: seq<ReadOutcome>)
    ensures ListenRun(s, results).0 == DeliverAll(s, LeadingLines(results))
    ensures var n := |LeadingLines(results)|;
      ListenRun(s, results).1 ==
        if n == |results| then StillReading
        else if results[n].Cancelled? then CancelledSilently
        else Faulted
    decreases |results|
  {
    if results != [] && results[0].Line? {
      ListenDeliversLeadingLines(Deliver(s, results[0].token), results[1..]);
    }
  }

  // ---------------------------------------------------------------------------------------------
  // Scenarios

  /** `GET ACC` answered by PING, 7, 9 returns 7. */
  lemma FirstMatchScenario(s: State)
    requires s.portOpen
    ensures Send(s, "GET ACC", ["PING", "7", "9"], false).1 == Ok("7")
  {
    SendReturnsFirstAccepted(s, "GET ACC", ["PING", "7", "9"], false);
    assert !IsAcceptedResponse("PING");
    assert ParseInt32("7") == Some(7);
    assert FirstAcceptedIndex(["PING", "7", "9"]) == 1 + FirstAcceptedIndex(["7", "9"]);
  }
}
