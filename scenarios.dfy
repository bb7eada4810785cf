/** Concrete sessions: the command exchanges and rotations the terminal is built for. */
module Scenarios {
  import opened Basics
  import opened Protocol
  import opened TerminalSpec
  import TerminalProperties
  import Multicast

  /** An open port, no handler attached, nothing written yet. */
  const Idle: State := State(Cleared, [], false, 0, [], true, [])

  /** The watchdog armed after a rotation start, sent from `Idle`, was answered with OK. */
  function Watching(command: string): State {
    State(Pending(Some("OK"), false), [RotateHandler], true, 1, [], true, [command])
  }

  lemma OkIsFirstAccepted()
    ensures TerminalProperties.FirstAccepted(["OK"]) == Some("OK")
  {
    assert IsAcceptedResponse("OK");
  }

  /** A rotation start answered by OK, sent while no rotation is watched, arms the watchdog. */
  lemma ArmWhenIdle(s: State, command: string)
    requires RotateHandler !in s.subscribers && s.portOpen && IsRotationStart(command)
    ensures HandleEvent(s, Input(Some(command), ["OK"], false)) ==
            Continue(s.(pending := Pending(Some("OK"), false), written := s.written + [command],
                        subscribers := s.subscribers + [RotateHandler], timerRunning := true,
                        timerStarts := s.timerStarts + 1))
  {
    OkIsFirstAccepted();
    TerminalProperties.SendWithoutWatchdog(s, command, ["OK"], false);
    TerminalProperties.SendReturnsFirstAccepted(s, command, ["OK"], false);
    var sent := Send(s, command, ["OK"], false);
    var done := s.(pending := Pending(Some("OK"), false), written := s.written + [command]);
    assert sent == (done, Ok("OK"));
    assert Multicast.Combine(done.subscribers, RotateHandler) == s.subscribers + [RotateHandler];
    assert HandleEvent(s, Input(Some(command), ["OK"], false)) == Continue(Arm(done, command, "OK"));
  }

  /** One event of a session that continues. */
  lemma RunStep(s: State, e: SessionEvent, rest: seq<SessionEvent>, next: State)
    requires HandleEvent(s, e) == Continue(next)
    ensures Run(s, [e] + rest) == Run(next, rest)
  {
    assert ([e] + rest)[0] == e && ([e] + rest)[1..] == rest;
  }

  /** An acknowledged rotation start, sent from `Idle`, leads to `Watching`. */
  lemma RunArm(command: string, rest: seq<SessionEvent>)
    requires IsRotationStart(command)
    ensures Run(Idle, [Input(Some(command), ["OK"], false)] + rest) == Run(Watching(command), rest)
  {
    ArmWhenIdle(Idle, command);
    assert Idle.(pending := Pending(Some("OK"), false), written := Idle.written + [command],
                 subscribers := Idle.subscribers + [RotateHandler], timerRunning := true,
                 timerStarts := Idle.timerStarts + 1) == Watching(command);
    RunStep(Idle, Input(Some(command), ["OK"], false), rest, Watching(command));
  }

  /** A progress report seen by a single watchdog restarts the timer. */
  lemma RunProgress(s: State, token: string, rest: seq<SessionEvent>)
    requires s.subscribers == [RotateHandler] && StartsWith(token, PositionPrefix)
    ensures Run(s, [Received(token)] + rest) == Run(s.(timerRunning := true, timerStarts := s.timerStarts + 1), rest)
  {
    ProgressKeepsWatching(s, token);
    RunStep(s, Received(token), rest, s.(timerRunning := true, timerStarts := s.timerStarts + 1));
  }

  /** END seen by a single watchdog detaches it and stops the timer. */
  lemma RunEnd(s: State, rest: seq<SessionEvent>)
    requires s.subscribers == [RotateHandler]
    ensures Run(s, [Received(RotationEnd)] + rest) ==
            Run(s.(subscribers := [], timerRunning := false, timerStarts := s.timerStarts + 1), rest)
  {
    EndStopsWatching(s);
    RunStep(s, Received(RotationEnd), rest, s.(subscribers := [], timerRunning := false, timerStarts := s.timerStarts + 1));
  }

  /** A timer expiry during a session. */
  lemma RunExpire(s: State, rest: seq<SessionEvent>)
    ensures Run(s, [TimerExpired] + rest) == Run(Elapse(s), rest)
  {
    RunStep(s, TimerExpired, rest, Elapse(s));
  }

  /** A rotation start answered by OK attaches one more watchdog, whatever was attached before. */
  lemma ArmAgain(s: State, command: string)
    requires s.portOpen && IsRotationStart(command)
    ensures HandleEvent(s, Input(Some(command), ["OK"], false)).Continue?
    ensures HandleEvent(s, Input(Some(command), ["OK"], false)).state.subscribers == s.subscribers + [RotateHandler]
  {
    OkIsFirstAccepted();
    TerminalProperties.SendReturnsFirstAccepted(s, command, ["OK"], false);
    TerminalProperties.SendDetachesCommandHandler(s, command, ["OK"], false);
    assert RotationEnd !in ["OK"];
  }

  /** STATUS answered by READY returns READY and leaves no handler attached. */
  lemma StatusScenario()
    ensures Send(Idle, "STATUS", ["READY"], false).0 == State(Pending(Some("READY"), false), [], false, 0, [], true, ["STATUS"])
    ensures Send(Idle, "STATUS", ["READY"], false).1 == Ok("READY")
  {
    assert IsAcceptedResponse("READY");
    assert TerminalProperties.FirstAccepted(["READY"]) == Some("READY");
    TerminalProperties.SendWithoutWatchdog(Idle, "STATUS", ["READY"], false);
    TerminalProperties.SendReturnsFirstAccepted(Idle, "STATUS", ["READY"], false);
  }

  /** A progress report restarts the timer of a singly attached watchdog and changes nothing else. */
  lemma ProgressKeepsWatching(s: State, token: string)
    requires s.subscribers == [RotateHandler] && StartsWith(token, PositionPrefix)
    ensures Deliver(s, token) == s.(timerRunning := true, timerStarts := s.timerStarts + 1)
  {
    var snapshot := s.subscribers;
    assert snapshot[0] == RotateHandler && snapshot[1..] == [];
    assert Fanout(s, snapshot, token) == Fanout(RotateStep(s, token), [], token);
    assert Deliver(s, token) == RotateStep(s, token);
  }

  /** END detaches a singly attached watchdog and stops the timer. */
  lemma EndStopsWatching(s: State)
    requires s.subscribers == [RotateHandler]
    ensures Deliver(s, RotationEnd) == s.(subscribers := [], timerRunning := false, timerStarts := s.timerStarts + 1)
  {
    NotPositionReport(RotationEnd);
    var snapshot := s.subscribers;
    assert snapshot[0] == RotateHandler && snapshot[1..] == [];
    assert Fanout(s, snapshot, RotationEnd) == Fanout(RotateStep(s, RotationEnd), [], RotationEnd);
    assert Deliver(s, RotationEnd) == RotateStep(s, RotationEnd);
    assert Multicast.Remove([RotateHandler], RotateHandler) == [];
  }

  /** A rotation start (FM 10, say) answered by OK arms the watchdog; POS 1, POS 2 and END disarm it with no warning. */
  lemma RotationScenario(command: string)
    requires IsRotationStart(command)
    ensures Run(Idle, [Input(Some(command), ["OK"], false), Received("POS 1"), Received("POS 2"), Received("END")]) ==
            (Watching(command).(subscribers := [], timerRunning := false, timerStarts := 4), AwaitingInput)
  {
    var w := Watching(command);
    var afterEnd: seq<SessionEvent> := [];
    var afterPos2 := [Received(RotationEnd)] + afterEnd;
    var afterPos1 := [Received("POS 2")] + afterPos2;
    var afterArm := [Received("POS 1")] + afterPos1;
    assert [Input(Some(command), ["OK"], false), Received("POS 1"), Received("POS 2"), Received("END")] ==
           [Input(Some(command), ["OK"], false)] + afterArm;
    assert StartsWith("POS 1", PositionPrefix) && StartsWith("POS 2", PositionPrefix);
    RunArm(command, afterArm);
    RunProgress(w, "POS 1", afterPos1);
    RunProgress(w.(timerStarts := 2), "POS 2", afterPos2);
    RunEnd(w.(timerStarts := 3), afterEnd);
  }

  /** The second acknowledged rotation start attaches a second watchdog. */
  lemma SecondArm(first: string, command: string)
    requires IsRotationStart(command)
    ensures HandleEvent(Watching(first), Input(Some(command), ["OK"], false)).Continue?
    ensures HandleEvent(Watching(first), Input(Some(command), ["OK"], false)).state.subscribers == [RotateHandler, RotateHandler]
  {
    ArmAgain(Watching(first), command);
  }

  /** One END reaches both attached watchdogs, and each detaches one copy. */
  lemma EndDetachesBoth(s: State)
    requires s.subscribers == [RotateHandler, RotateHandler]
    ensures Deliver(s, RotationEnd).subscribers == []
  {
    TerminalProperties.EndDisarmsWatchdog(s);
    assert multiset(s.subscribers)[CommandHandler] == 0;
    var left := Deliver(s, RotationEnd).subscribers;
    HandlerCount(left);
    assert multiset(left)[RotateHandler] == 0;
  }

  /** Every entry of a handler list is one of the two handlers. */
  lemma {:induction false} HandlerCount(hs: seq<Handler>)
    ensures |hs| == multiset(hs)[CommandHandler] + multiset(hs)[RotateHandler]
  {
    if hs != [] {
      HandlerCount(hs[1..]);
      assert hs == [hs[0]] + hs[1..];
      assert multiset(hs) == multiset{hs[0]} + multiset(hs[1..]);
      match hs[0]
      case CommandHandler =>
      case RotateHandler =>
    }
  }

  /** Two acknowledged rotation starts (FM 10, FM 20, say) attach the watchdog twice; one END detaches both. */
  lemma DoubleArmScenario(first: string, second: string)
    requires IsRotationStart(first) && IsRotationStart(second)
    ensures Run(Idle, [Input(Some(first), ["OK"], false), Input(Some(second), ["OK"], false), Received("END")]).0.subscribers == []
  {
    var afterEnd: seq<SessionEvent> := [];
    var afterSecond := [Received(RotationEnd)] + afterEnd;
    var afterFirst := [Input(Some(second), ["OK"], false)] + afterSecond;
    assert [Input(Some(first), ["OK"], false), Input(Some(second), ["OK"], false), Received("END")] ==
           [Input(Some(first), ["OK"], false)] + afterFirst;
    RunArm(first, afterFirst);
    SecondArm(first, second);
    var twice := HandleEvent(Watching(first), Input(Some(second), ["OK"], false)).state;
    RunStep(Watching(first), Input(Some(second), ["OK"], false), afterSecond, twice);
    EndDetachesBoth(twice);
    RunStep(twice, Received(RotationEnd), afterEnd, Deliver(twice, RotationEnd));
  }

  /** Silence during a rotation warns once; a later token restarts the timer, and a second silence warns again. */
  lemma StallScenario(command: string)
    ensures Run(Watching(command), [TimerExpired, TimerExpired, Received("POS 3"), TimerExpired]) ==
            (Watching(command).(timerRunning := false, timerStarts := 2, alerts := [StallWarning, StallWarning]), AwaitingInput)
  {
    var w := Watching(command);
    var warned := w.(timerRunning := false, alerts := [StallWarning]);
    var afterLast: seq<SessionEvent> := [];
    var afterPos := [TimerExpired] + afterLast;
    var afterSecond := [Received("POS 3")] + afterPos;
    var afterFirst := [TimerExpired] + afterSecond;
    assert [TimerExpired, TimerExpired, Received("POS 3"), TimerExpired] == [TimerExpired] + afterFirst;
    RunExpire(w, afterFirst);
    assert Elapse(w) == warned && Elapse(warned) == warned;
    RunExpire(warned, afterSecond);
    assert StartsWith("POS 3", PositionPrefix);
    RunProgress(warned, "POS 3", afterPos);
    var restarted := warned.(timerRunning := true, timerStarts := 2);
    RunExpire(restarted, afterLast);
    assert Elapse(restarted) == w.(timerRunning := false, timerStarts := 2, alerts := [StallWarning, StallWarning]);
  }

  /** MOVERR is reported and the watchdog stays attached and counting. */
  lemma MoveErrorScenario(command: string)
    ensures Deliver(Watching(command), "MOVERR") == Watching(command).(timerStarts := 2, alerts := [MoveError])
  {
    NotPositionReport("MOVERR");
  }
}
