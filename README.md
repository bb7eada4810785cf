# RotatingTableSerialDemo — a verified model of the terminal's token handling

RotatingTableSerialDemo is a console terminal for a rotating table driven over a serial port.
The operator types commands such as `STATUS`, `GET ACC` or `FM 10`. The terminal writes each
command to the port and waits up to 500 ms for the table's answer. A background loop reads one
token per line from the port and hands it to every handler attached to the listener's
`DataReceived` event.

Two handlers are involved:

- `CommandHandler` keeps the first token that answers the command in flight. An Int32 literal
  answers, and so do the status words `OK`, `ERR`, `READY`, `BUSY` and `UNKNOWN`.
- `RotateHandler` is the rotation watchdog. It is attached after an `FM ` command was answered
  `OK`. Every token restarts a one-shot 3000 ms stall timer. `END` detaches the watchdog and stops
  the timer. `MOVERR` is reported while the watchdog stays attached.

When the timer runs out, the terminal warns that the table stopped sending messages.

## Layout

- `basics.dfy` (`Basics`): `Option` and `Result`.
- `multicast.dfy` (`Multicast`): the invocation list of a C# multicast delegate. `+=` appends;
  `-=` removes the last occurrence and leaves the list alone when the handler is absent.
- `protocol.dfy` (`Protocol`): the pure decisions. These are `int.TryParse` as an Int32 parser,
  the accepted-response rule, the rotation-start rule and `SetPortName`.
- `transport.dfy` (`Transport`): the `SerialPort` as a class holding a name, an open flag and the
  lines written. Whether opening or writing fails is an input.
- `listener.dfy` (`Listener`): the `Listener` class, with the `DataReceived` list, the port it
  keeps and the `BeginListening` null check.
- `terminal_spec.dfy` (`TerminalSpec`): the shared state as a datatype, with one function for
  each handler, each dispatch, each send and each session event.
- `terminal.dfy` (`Terminal`): the `Terminal` class. Its fields are the response slot, the
  wake-up event, the stall timer, the alerts, the port and the listener. Each method is proved to
  change the abstract state `Abs()` exactly as the matching `TerminalSpec` function says.
- `terminal_properties.dfy` (`TerminalProperties`): the properties of those functions.
- `scenarios.dfy` (`Scenarios`): concrete sessions. These are `STATUS`/`READY`, a full rotation,
  a double arming, repeated stalls and `MOVERR`.

Time and threads are serialised into a trace. A session is a sequence of events:

- an input line, together with the replies the reader dispatches before the 500 ms wait ends and
  whether the write fails;
- a token dispatched while no command waits;
- an expiry of the stall timer.

The dispatch loops of `Listener.Listen` live in the `Terminal` class as `Publish` and `Listen`,
because the handlers they call are the terminal's own methods. The generic `Listener` class holds
the list that those loops read.

## Behaviour worth noting

Three behaviours of the code shape the model:

- The reading loop catches only `OperationCanceledException`. Any other read exception leaves the
  loop and faults its task instead of ending it silently. In both cases no subscriber is told.
  `ListenEnd` distinguishes the two outcomes.
- A timed-out command throws out of the `while` loop of `ProcessAsync`, because the `try` encloses
  the loop. The session therefore ends and the `finally` closes the port.
- Two acknowledged `FM ` commands attach `RotateHandler` twice. The dispatch of a single `END`
  takes a snapshot that holds both copies. Each copy removes one attachment, so one `END` leaves
  none attached (`Scenarios.DoubleArmScenario`). Per invocation, `-=` still removes exactly one
  (`TerminalProperties.FanoutEnd`).

## Model

| member | source | states |
|---|---|---|
| `Multicast.Combine` | RotatingTableSerialDemo/Terminal.cs:131 | `+=` appends the handler at the end: the old list is a prefix, the handler is last, and the multiset grows by exactly that handler |
| `Multicast.Remove` | RotatingTableSerialDemo/Terminal.cs:164 | `-=` takes away one copy of the handler and leaves every other handler's count unchanged; an absent handler leaves the list unchanged |
| `Multicast.LastIndexOf` | RotatingTableSerialDemo/Terminal.cs:211 | the position `-=` acts on holds the handler, and no copy of it comes later |
| `Multicast.RemoveTakesLastOccurrence` | RotatingTableSerialDemo/Terminal.cs:211 | `-=` removes exactly the last occurrence; the handlers before and after it keep their order |
| `Multicast.RemoveUndoesCombine` | RotatingTableSerialDemo/Terminal.cs:131-165 | detaching the handler that was attached last restores the list exactly |
| `Multicast.RemoveBeforeCombine` | RotatingTableSerialDemo/Terminal.cs:211 | detaching one handler does not disturb a different handler attached after it |
| `Multicast.RemoveTwice` | RotatingTableSerialDemo/Terminal.cs:211 | a second `-=` is harmless: it removes one more copy or nothing, and other handlers are untouched |
| `Protocol.ParseInt32` | RotatingTableSerialDemo/Terminal.cs:175 | a successful `int.TryParse` gives a value within the Int32 range, read from a token that is an optional sign followed by at least one digit and nothing else, so it ends in a digit |
| `Protocol.ParseSignedDigits` | RotatingTableSerialDemo/Terminal.cs:175 | a sign, or none, followed by digits parses to the signed value of the digits exactly when that value lies in the Int32 range, and fails otherwise |
| `Protocol.FormatNat` | RotatingTableSerialDemo/Terminal.cs:175 | the decimal form of a number is non-empty, all digits, without a leading zero, and denotes the number |
| `Protocol.ParseFormatRoundTrip` | RotatingTableSerialDemo/Terminal.cs:174-180 | every Int32 written in decimal parses back to itself, so every number reply to `GET ACC` is accepted |
| `Protocol.AcceptedResponseNotEmpty` | RotatingTableSerialDemo/Terminal.cs:171-172 | no accepted token is empty, so "the slot is null or empty" means "nothing accepted yet" |
| `Protocol.RotationTokensIgnored` | RotatingTableSerialDemo/Terminal.cs:182-194 | `POS …`, `END` and `MOVERR` never answer a command |
| `Protocol.OutOfRangeIgnored` | RotatingTableSerialDemo/Terminal.cs:175 | a number above 2147483647, unsigned or with `+`, or below -2147483648, with `-`, does not answer a command |
| `Protocol.IsAcceptedResponse` | RotatingTableSerialDemo/Terminal.cs:174-194 | definition: an Int32 literal or one of the five status words; its properties are in `AcceptedResponseNotEmpty`, `RotationTokensIgnored`, `OutOfRangeIgnored`, `ParseFormatRoundTrip` and `StatusWordsEndInLetters` |
| `Protocol.IsRotationStart` | RotatingTableSerialDemo/Terminal.cs:46 | definition: the command starts with `FM `; its properties are in `TerminalProperties.ArmingRule` and `TerminalProperties.OnlyArmingAttaches` |
| `Protocol.StatusWordsEndInLetters` | RotatingTableSerialDemo/Terminal.cs:184-188 | nothing ending in a digit is a status word |
| `Protocol.NotPositionReport` | RotatingTableSerialDemo/Terminal.cs:203 | a token not starting with `P` is not a progress report |
| `Protocol.ToLower` | RotatingTableSerialDemo/Terminal.cs:108 | lowering the case keeps the length |
| `Protocol.SetPortName` | RotatingTableSerialDemo/Terminal.cs:106-113 | the result is an error exactly when the input is null; a line whose first three letters spell "com" in any case is returned unchanged; any other line, the empty one included, gives the default name |
| `Transport.SerialPort.constructor` | RotatingTableSerialDemo/Terminal.cs:7 | a new port is closed, named `COM1`, with nothing written |
| `Transport.SerialPort.Open` | RotatingTableSerialDemo/Terminal.cs:81 | opening succeeds exactly when the device works and the port is not open yet; afterwards the port is open |
| `Transport.SerialPort.WriteLine` | RotatingTableSerialDemo/Terminal.cs:135 | a write succeeds exactly on an open port whose device works, and then appends exactly that line |
| `Transport.SerialPort.Close` | RotatingTableSerialDemo/Terminal.cs:61 | the port is closed afterwards; its name and written lines are kept |
| `Listener.Listener.constructor` | RotatingTableSerialDemo/Terminal.cs:82 | a new listener has no handler attached, no port and no reading loop |
| `Listener.Listener.Subscribe` | RotatingTableSerialDemo/Listener.cs:7 | `DataReceived += h` is `Combine` on the invocation list |
| `Listener.Listener.Unsubscribe` | RotatingTableSerialDemo/Listener.cs:7 | `DataReceived -= h` is `Remove` on the invocation list |
| `Listener.Listener.BeginListening` | RotatingTableSerialDemo/Listener.cs:11-15 | a null port fails with `ArgumentNull("port")` and starts no loop; otherwise the port is kept and exactly one reading loop starts; the handler list is untouched either way |
| `TerminalSpec.Classify` | RotatingTableSerialDemo/Terminal.cs:168-195 | definition of the command handler on the slot; its properties are in `TerminalProperties.AcceptedTokenFillsSlot`, `FilledSlotIsFinal`, `ClassifierKeepsFirstAccepted` and `ClassifyIdempotent` |
| `TerminalSpec.CommandStep` | RotatingTableSerialDemo/Terminal.cs:168-195 | definition: the command handler touches only the slot; its properties are in `TerminalProperties.CommandStepKeepsTimer` and `FanoutPending` |
| `TerminalSpec.RotateStep` | RotatingTableSerialDemo/Terminal.cs:197-218 | definition of the rotation handler; its properties are in `TerminalProperties.RotateHandlerEffect` and `RotateStepStartsOnce` |
| `TerminalSpec.InvokeStep` | RotatingTableSerialDemo/Listener.cs:24 | definition: one handler called on one token; its properties are in `TerminalProperties.InvokeStarts` |
| `TerminalSpec.Fanout` | RotatingTableSerialDemo/Listener.cs:24 | definition: every handler of a snapshot called in order; its properties are in `TerminalProperties.FanoutPending`, `FanoutDetachesOnlyRotation`, `FanoutOtherToken`, `FanoutEnd`, `FanoutStarts`, `FanoutKeepsPort` and `FanoutWithoutWatchdog` |
| `TerminalSpec.Deliver` | RotatingTableSerialDemo/Listener.cs:24 | definition: `DataReceived?.Invoke` over the list as it is at dispatch; its properties are in `TerminalProperties.UnobservedTokenDropped` and `EndDisarmsWatchdog` |
| `TerminalSpec.DeliverAll` | RotatingTableSerialDemo/Listener.cs:21-24 | definition: tokens dispatched in the order read; its properties are in `TerminalProperties.DeliverAllPending`, `DeliverAllDetachesOnlyRotation`, `DeliverAllWithoutWatchdog`, `DeliverAllKeepsPort` and `DeliverAllPotential` |
| `TerminalSpec.Elapse` | RotatingTableSerialDemo/Terminal.cs:14-22 | definition of the one-shot expiry; its properties are in `TerminalProperties.TimerIsOneShot` and `HandleEventPotential` |
| `TerminalSpec.ListenRun` | RotatingTableSerialDemo/Listener.cs:17-28 | definition of the reading loop; its properties are in `TerminalProperties.ListenDeliversLeadingLines` |
| `TerminalSpec.Attach` | RotatingTableSerialDemo/Terminal.cs:130-134 | definition: the slot cleared, the command handler attached, the event reset; its properties are in `TerminalProperties.SendDetachesCommandHandler` and `SendWithoutWatchdog` |
| `TerminalSpec.Detach` | RotatingTableSerialDemo/Terminal.cs:162-165 | definition of the `finally`; its properties are in `TerminalProperties.SendDetachesCommandHandler` and `Multicast.RemoveUndoesCombine` |
| `TerminalSpec.EndWait` | RotatingTableSerialDemo/Terminal.cs:141 | definition: the auto-reset event is clear once the wait ends; its properties are in `TerminalProperties.SendWritesCommand` |
| `TerminalSpec.Outcome` | RotatingTableSerialDemo/Terminal.cs:148-156 | the call fails exactly when the slot is empty, and then with the not-responding error whose message is the fixed prefix followed by the command; a filled slot gives back its token |
| `TerminalSpec.Send` | RotatingTableSerialDemo/Terminal.cs:127-166 | definition of the whole call; its properties are in `TerminalProperties.SendReturnsFirstAccepted`, `SendDetachesCommandHandler`, `SendWritesCommand`, `SendWithoutWatchdog` and `SendPotential` |
| `TerminalSpec.Opened` | RotatingTableSerialDemo/Terminal.cs:82-83 | definition: the port open and a new listener with no handler; `Terminal.Terminal.OpenPort` and `Process` are proved against it |
| `TerminalSpec.Arm` | RotatingTableSerialDemo/Terminal.cs:46-51 | definition of arming; its properties are in `TerminalProperties.ArmingRule`, `OnlyArmingAttaches` and `Scenarios.ArmWhenIdle` |
| `TerminalSpec.HandleEvent` | RotatingTableSerialDemo/Terminal.cs:32-62 | definition of one session event; its properties are in `TerminalProperties.EmptyLineEndsSession`, `UnansweredCommandEndsSession`, `OnlyArmingAttaches` and `HandleEventPotential` |
| `TerminalSpec.Run` | RotatingTableSerialDemo/Terminal.cs:32-62 | definition of the command loop over a session; its properties are in `TerminalProperties.OneWarningPerStart`, `WarningsNeverExceedStarts` and the `Scenarios` lemmas |
| `Terminal.Terminal.constructor` | RotatingTableSerialDemo/Terminal.cs:7-23 | a new terminal has an empty slot, no handler, a stopped timer that was never started, no alerts, and a closed port named `COM1` |
| `Terminal.Terminal.CommandHandler` | RotatingTableSerialDemo/Terminal.cs:168-195 | the handler changes the state exactly as `Classify` does; the properties follow below |
| `Terminal.Terminal.RotateHandler` | RotatingTableSerialDemo/Terminal.cs:197-218 | the handler restarts the timer, and on `END` detaches itself once and stops the timer, on `MOVERR` reports an error, exactly as `RotateStep`; the listener's port and reading loops are untouched |
| `Terminal.Terminal.TimerElapsed` | RotatingTableSerialDemo/Terminal.cs:14-22 | an expiry of a running one-shot timer stops it and writes one stall warning; a stopped timer does nothing |
| `Terminal.Terminal.Invoke` | RotatingTableSerialDemo/Listener.cs:24 | one handler of the invocation list is called on one token |
| `Terminal.Terminal.Publish` | RotatingTableSerialDemo/Listener.cs:24 | `DataReceived?.Invoke` calls every handler of the list as it was at dispatch, in attachment order, even when a handler detaches itself meanwhile |
| `Terminal.Terminal.Listen` | RotatingTableSerialDemo/Listener.cs:17-28 | the reading loop dispatches each line, in the order read, until a read throws; it then ends silently on a cancellation or faults on any other exception |
| `Terminal.Terminal.AwaitReplies` | RotatingTableSerialDemo/Terminal.cs:141 | the wait sees every reply dispatched, in order, and leaves the event reset; the listener's port and reading loops are untouched |
| `Terminal.Terminal.SendCommandAndGetResponse` | RotatingTableSerialDemo/Terminal.cs:127-166 | clear the slot, attach the command handler, reset the event, write, wait, detach in the `finally`; the state and result are those of `Send`; the port name and the listener's port and reading loops are kept |
| `Terminal.Terminal.OpenPort` | RotatingTableSerialDemo/Terminal.cs:72-92 | opening succeeds exactly when a line was read, the device works and the port was closed; the chosen name is the one `SetPortName` gives; success leaves a new listener with no handler, reading from this port in one loop |
| `Terminal.Terminal.Step` | RotatingTableSerialDemo/Terminal.cs:36-51 | one event of the session changes the state as `HandleEvent` does, and stops exactly when `HandleEvent` stops; the port name and the listener's port and reading loops are kept |
| `Terminal.Terminal.Process` | RotatingTableSerialDemo/Terminal.cs:25-63 | nothing happens unless the port opens; otherwise the session runs as `Run` from the opened state and ends as `Run` ends, with the port still named as `SetPortName` chose and one reading loop on it |
| `TerminalProperties.FirstAcceptedIndex` | RotatingTableSerialDemo/Terminal.cs:170-172 | the index of the first accepted token: every token before it is ignored |
| `TerminalProperties.AcceptedTokenFillsSlot` | RotatingTableSerialDemo/Terminal.cs:174-194 | on an empty slot, a token is stored with the event set exactly when it is accepted; otherwise nothing changes, so an ignored token never signals |
| `TerminalProperties.FilledSlotIsFinal` | RotatingTableSerialDemo/Terminal.cs:171-172 | once the slot holds a response, no later token changes the slot or the event |
| `TerminalProperties.ClassifierKeepsFirstAccepted` | RotatingTableSerialDemo/Terminal.cs:170-194 | starting from a cleared slot, the slot ends holding the first accepted token, and the event is set exactly when one arrived |
| `TerminalProperties.ClassifyIdempotent` | RotatingTableSerialDemo/Terminal.cs:168-195 | seeing the same token twice is the same as seeing it once |
| `TerminalProperties.FanoutPending` | RotatingTableSerialDemo/Listener.cs:24 | a dispatch changes the slot exactly as `Classify` when the command handler is in the snapshot, and not at all otherwise |
| `TerminalProperties.FanoutDetachesOnlyRotation` | RotatingTableSerialDemo/Listener.cs:24 | a dispatch never detaches the command handler and never attaches anything; it detaches nothing unless the token is `END` and the watchdog is in the snapshot |
| `TerminalProperties.DeliverAllDetachesOnlyRotation` | RotatingTableSerialDemo/Listener.cs:21-24 | a run of dispatches keeps the command handler count, never adds a watchdog, and changes the list only when an `END` reaches an attached watchdog |
| `TerminalProperties.DeliverAllPending` | RotatingTableSerialDemo/Listener.cs:21-24 | with the command handler attached, the slot follows the tokens in the order read |
| `TerminalProperties.UnobservedTokenDropped` | RotatingTableSerialDemo/Listener.cs:24 | a token dispatched with no handler attached has no effect at all |
| `TerminalProperties.SendReturnsFirstAccepted` | RotatingTableSerialDemo/Terminal.cs:130-156 | a refused write fails at once; otherwise the call returns the first accepted reply, whatever the slot held before, or fails with the error naming the command |
| `TerminalProperties.SendDetachesCommandHandler` | RotatingTableSerialDemo/Terminal.cs:131-165 | on every path the command handler is attached as often afterwards as before; unless a rotation ends during the wait, the list is exactly the one before the call |
| `TerminalProperties.FanoutWithoutWatchdog` | RotatingTableSerialDemo/Listener.cs:24 | without the watchdog in the snapshot, a dispatch changes nothing but the slot |
| `TerminalProperties.DeliverAllWithoutWatchdog` | RotatingTableSerialDemo/Listener.cs:21-24 | without the watchdog attached, a run of dispatches changes nothing but the slot |
| `TerminalProperties.SendWithoutWatchdog` | RotatingTableSerialDemo/Terminal.cs:127-166 | with no rotation watched, a send leaves everything but the slot and the written lines as it was, and the slot ends holding the first accepted reply with the event cleared |
| `TerminalProperties.SendWritesCommand` | RotatingTableSerialDemo/Terminal.cs:134-135 | the command, and only the command, is written exactly when the port accepts it; the event is clear after the call |
| `TerminalProperties.DeliverAllKeepsPort` | RotatingTableSerialDemo/Listener.cs:21-24 | dispatching tokens never writes to the port or opens or closes it |
| `TerminalProperties.FanoutKeepsPort` | RotatingTableSerialDemo/Listener.cs:24 | no handler writes to the port or opens or closes it |
| `TerminalProperties.RotateHandlerEffect` | RotatingTableSerialDemo/Terminal.cs:197-218 | after one call the timer runs exactly when the token is not `END`; only `END` detaches (one copy); only `MOVERR` adds an alert; the slot is untouched |
| `TerminalProperties.MoveErrors` | RotatingTableSerialDemo/Terminal.cs:214-217 | `n` move-error reports |
| `TerminalProperties.FanoutOtherToken` | RotatingTableSerialDemo/Terminal.cs:200-217 | a token other than `END` keeps the list; the timer runs if a watchdog is in the snapshot; `MOVERR` is reported once per attached watchdog |
| `TerminalProperties.RotationDetached` | RotatingTableSerialDemo/Terminal.cs:211 | taking one watchdog attachment away lowers the watchdog count by one, not below zero, and keeps the command handler count |
| `TerminalProperties.FanoutEndCount` | RotatingTableSerialDemo/Terminal.cs:211 | the watchdog count after `END` is the count before minus the watchdogs in the snapshot, not below zero |
| `TerminalProperties.FanoutEndStopsTimer` | RotatingTableSerialDemo/Terminal.cs:212 | `END` leaves the timer stopped when it reaches a watchdog and untouched otherwise |
| `TerminalProperties.FanoutEnd` | RotatingTableSerialDemo/Terminal.cs:207-213 | `END` removes one watchdog attachment per watchdog in the snapshot, and stops the timer if any was there; the command handler count is kept |
| `TerminalProperties.EndDisarmsWatchdog` | RotatingTableSerialDemo/Terminal.cs:207-213 | `END` dispatched while the watchdog is attached leaves no watchdog attached and the timer stopped |
| `TerminalProperties.TimerIsOneShot` | RotatingTableSerialDemo/Terminal.cs:14-22 | a second expiry without a restart does nothing; an expiry stops the timer, warns at most once, and leaves the handlers attached |
| `TerminalProperties.ArmingRule` | RotatingTableSerialDemo/Terminal.cs:46-51 | after a successful command the state differs from the one after the send exactly when the command starts with `FM ` and the response is `OK`; a watchdog is then added and the timer started |
| `TerminalProperties.OnlyArmingAttaches` | RotatingTableSerialDemo/Terminal.cs:46-51 | no event adds a watchdog attachment except a command starting with `FM ` whose response was `OK` |
| `TerminalProperties.EmptyLineEndsSession` | RotatingTableSerialDemo/Terminal.cs:36-38 | an empty line or the end of input ends the session at once, with nothing sent and the port closed |
| `TerminalProperties.UnansweredCommandEndsSession` | RotatingTableSerialDemo/Terminal.cs:148-154 | a command that no reply answers ends the session with the error naming the command, and the port is closed |
| `TerminalProperties.RotateStepStartsOnce` | RotatingTableSerialDemo/Terminal.cs:200-201 | one call of the rotation handler starts the timer exactly once, writes no stall warning, and raises the measure by at most that start |
| `TerminalProperties.CommandStepKeepsTimer` | RotatingTableSerialDemo/Terminal.cs:168-195 | the command handler leaves the timer, its start count and the alerts alone |
| `TerminalProperties.InvokeStarts` | RotatingTableSerialDemo/Listener.cs:24 | calling one handler starts the timer once if it is the watchdog and not at all otherwise |
| `TerminalProperties.FanoutStarts` | RotatingTableSerialDemo/Terminal.cs:200-201 | one dispatch starts the timer exactly once per watchdog attachment in the snapshot |
| `TerminalProperties.FanoutPotential` | RotatingTableSerialDemo/Terminal.cs:200-212 | a dispatch writes no stall warning and raises warnings-plus-running-timer by no more than the timer starts it makes |
| `TerminalProperties.DeliverAllPotential` | RotatingTableSerialDemo/Listener.cs:21-24 | over a run of dispatches, the measure grows by no more than the timer starts made |
| `TerminalProperties.SendPotential` | RotatingTableSerialDemo/Terminal.cs:127-166 | over a send, the measure grows by no more than the timer starts made by the replies |
| `TerminalProperties.InputPotential` | RotatingTableSerialDemo/Terminal.cs:36-51 | over an input line, the measure grows by no more than the timer starts made by the replies and by arming |
| `TerminalProperties.HandleEventPotential` | RotatingTableSerialDemo/Terminal.cs:18-22 | no event raises the measure by more than the timer starts it makes; an expiry turns a running timer into at most one warning |
| `TerminalProperties.OneWarningPerStart` | RotatingTableSerialDemo/Terminal.cs:14-22 | over a session, the new stall warnings never outnumber the timer starts made during it, plus one for a timer already counting |
| `TerminalProperties.WarningsNeverExceedStarts` | RotatingTableSerialDemo/Terminal.cs:14-22 | from a terminal with no alerts and a timer never started, the stall warnings never outnumber the calls of `_listeningTimer.Start()` |
| `TerminalProperties.LeadingLines` | RotatingTableSerialDemo/Listener.cs:21-23 | the lines read before the first read that throws |
| `TerminalProperties.ListenDeliversLeadingLines` | RotatingTableSerialDemo/Listener.cs:17-28 | the loop dispatches exactly the lines before the first failed read, in order; it then ends silently on a cancellation and faults otherwise, notifying nobody |
| `TerminalProperties.FirstMatchScenario` | RotatingTableSerialDemo/Terminal.cs:171-180 | `GET ACC` answered by `PING`, `7`, `9` returns `7` |
| `Scenarios.OkIsFirstAccepted` | RotatingTableSerialDemo/Terminal.cs:184 | `OK` alone is the first accepted reply |
| `Scenarios.ArmWhenIdle` | RotatingTableSerialDemo/Terminal.cs:46-51 | a rotation start answered `OK` with no watchdog attached stores `OK`, writes the command, attaches the watchdog and starts the timer once |
| `Scenarios.RunStep` | RotatingTableSerialDemo/Terminal.cs:34-52 | a session after an event that continues is the session from the next state |
| `Scenarios.RunArm` | RotatingTableSerialDemo/Terminal.cs:46-51 | an acknowledged rotation start sent on an idle port continues the session with the watchdog armed |
| `Scenarios.ProgressKeepsWatching` | RotatingTableSerialDemo/Terminal.cs:200-206 | a progress report seen by a single watchdog restarts the timer, counting one start, and changes nothing else |
| `Scenarios.RunProgress` | RotatingTableSerialDemo/Terminal.cs:200-206 | the same, as a step of a session |
| `Scenarios.EndStopsWatching` | RotatingTableSerialDemo/Terminal.cs:207-213 | `END` seen by a single watchdog detaches it and stops the timer, changing nothing else |
| `Scenarios.RunEnd` | RotatingTableSerialDemo/Terminal.cs:207-213 | the same, as a step of a session |
| `Scenarios.RunExpire` | RotatingTableSerialDemo/Terminal.cs:18-22 | an expiry of the stall timer continues the session after `Elapse` |
| `Scenarios.ArmAgain` | RotatingTableSerialDemo/Terminal.cs:49 | a rotation start answered `OK` attaches one more watchdog, whatever was attached before |
| `Scenarios.StatusScenario` | RotatingTableSerialDemo/Terminal.cs:127-166 | `STATUS` answered by `READY` returns `READY` and leaves no handler attached |
| `Scenarios.RotationScenario` | RotatingTableSerialDemo/Terminal.cs:197-213 | a rotation start such as `FM 10` answered by `OK`, then `POS 1`, `POS 2` and `END`: the watchdog is disarmed, the timer stopped, and no warning written |
| `Scenarios.SecondArm` | RotatingTableSerialDemo/Terminal.cs:49 | a second acknowledged rotation start attaches a second watchdog |
| `Scenarios.EndDetachesBoth` | RotatingTableSerialDemo/Terminal.cs:211 | one `END` also detaches a watchdog attached twice |
| `Scenarios.HandlerCount` | RotatingTableSerialDemo/Listener.cs:7 | every entry of the invocation list is one of the two handlers |
| `Scenarios.DoubleArmScenario` | RotatingTableSerialDemo/Terminal.cs:207-213 | two acknowledged rotation starts such as `FM 10` and `FM 20`, followed by one `END`, leave no watchdog attached |
| `Scenarios.StallScenario` | RotatingTableSerialDemo/Terminal.cs:14-22 | during a rotation, silence warns once, a second expiry does not warn, and a later token re-arms a second warning |
| `Scenarios.MoveErrorScenario` | RotatingTableSerialDemo/Terminal.cs:214-217 | `MOVERR` is reported, and the watchdog stays attached with the timer counting |

## Left out

- Console I/O is not modelled: prompts, coloured output (red for `ERR`, `MOVERR`), `PrintAvailableCommands` and the printing of exceptions. The model keeps the stall warnings and move errors as a list of alerts.
- `SerialPort.GetPortNames` is not modelled. It shows a list on the console and does not affect the choice.
- The baud rate, the read timeout and the write timeout are not modelled. They configure hardware; a write that times out appears as a write that fails.
- Real time is not modelled: the 500 ms wait, the 3000 ms stall interval and `Task.Run`. The replies a command receives before its wait ends are an input, and a timer expiry is an explicit event.
- Thread races are not modelled: the reader against the waiter on `_response`, and the timer thread against the reader. The session is a serialised trace of events.
- `Debug.WriteLine` tracing and the `#if DEBUG` stopwatch are not modelled. They are diagnostics with no effect.
- `Protocol.ParseInt32`: leading or trailing white space and culture-specific signs, which `int.TryParse` accepts, are not modelled. It reads an optional `+` or `-` and ASCII digits within the Int32 range.
- `Protocol.ToLower`: maps only ASCII capitals. Culture-sensitive case mapping and the culture-sensitive `StartsWith` are not modelled.
- `Protocol.SetPortName`: the validation inside the `PortName` setter, for names that are not valid device names, is not modelled. Only the refusal on an open port is.
- `Terminal.Terminal.constructor`: creates an empty listener where the C# field is null until `OpenPort` runs. Every method that touches the listener runs only after `OpenPort`, which replaces it with a new one.
- Exceptions raised inside a handler are not modelled. No handler in the source raises one on a string token.
- `ReceivedDataHandler` and `ReceivedDataEventArgs` are reduced to the token string. The sender argument is unused.
- The remaining time of the stall countdown is not modelled. The timer is whether it counts plus how often `Start` was called; a restart while it runs (`Stop` then `Start`) counts as one start.
