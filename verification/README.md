# Verified models of Genode PinePhone drivers

This project models five components and proves properties of them over whole runs:

- the **AT-protocol driver** of the modem (`AtText`, `ReadBuffer`, `Qcfg`, `Status`, `Control`,
  `Driver`), and the **power states** of the modem that are driven together with it (`Power`,
  `ModemMain`);
- the **mailbox scheduler of the system-control processor** with any number of sessions (`Scp`,
  `ScpDriver`, `ScpRuns`, `ScpClient`);
- the **YUV/RGB conversion** of the camera driver (`Yuv`, `YuvImages`, `YuvFromRgb`);
- the **single-slot request protocol** of the Lima GPU session (`Gpu`);
- the **multi-touch slot tracker** of the touch driver (`Touch`).

Each object whose methods update its attributes is a class. Its methods are proved equal to
functions on values, and the theorems about runs are lemmas about those functions. Loops over
buffers work in place on arrays. The modules `Coherence`, `Settling`, `Guarantees`, `Cutting` and
`RebootOnce` hold the results about runs of the AT driver, `Passes`, `Lines` and `Report` say in literal
commands and lines what it sends, hears and reports, and `PinChange` holds the run that shows where the
bound on reboots ends. `Modem` describes a modem that answers in order and truthfully, of which
`src/test/at_protocol/modem.h` is an instance for the settings it knows.

The environment is nondeterministic: the modem may say anything at any time (`Coherence`,
`Guarantees`, `Settling`), pins may read anything, clocks advance arbitrarily, interrupts and signals
may be spurious, programs have arbitrary outputs, and the kernel decides freely which calls fail or
block. Where a result needs more, its precondition says so.

## Where the code differs from what one would expect

- A CR and LF that arrive in separate reads produce an additional empty line. It makes the driver forget
  that the modem is powered down (`Cutting.SplitLineEndHidesPowerDown`). Otherwise it is harmless exactly
  if no call is known or the call list is valid already (`Cutting.EmptyLineIsHarmlessExactlyIf`): a poll
  of the call list that is requested between the two halves is lost (`Cutting.LateLineEndLosesPoll`).
- `+CME ERROR:` without a blank ends the pending command without noting a result; this is the only
  way to lose coherence (`Coherence.MalformedErrorBreaksCoherence`,
  `Coherence.MalformedErrorIsReachable`). The operation in flight then stays so until a pass finds one
  of the conditions of `Settling.SurvivesExactlyIfSpared` violated: a later OK or ERROR, a call list
  that has become known, or a changed pin, for instance. No timeout retires it, for want of a pending
  command (`Coherence.TimeoutNeedsPendingCommand`).
- A pass that starts a reboot goes on to construct operations, which may be sent before the reboot
  (`Settling.RebootIsPending`). The bound of one reboot holds nevertheless.
- The comment at `src/driver/camera/pinephone/yuv_rgb.c:75` gives a closed range for the clamp; its
  upper end indexes entry 512 of a table of 512 entries (`YuvPixels.UpperEndIsOutside`). The model
  follows the code: a conversion requires its sums to be below that end.
- When the 25 seconds have passed at the moment POWERED DOWN is heard, the grace delay is skipped;
  `MayFollow` in `ModemMain.dfy` admits this step.
- `complete` of the GPU session may report an object as completed on account of an interrupted wait
  for another object (`Gpu.WaitMayAnswerForAnother`), and unmapping a buffer while the worker is
  blocked leaks it for as long as the session is used (`Gpu.UnmapWhileBlockedLeaks`, `Gpu.LeakIsPermanent`).
- When the configured pin changes while a pin command is unanswered and the modem is known to ask for a
  pin, the new pin is sent at once, and every later answer is taken for the one to the next command. In an
  aligned exchange this, and the same with a ring command, is the only way for a pass to send a command
  while another is pending (`RebootOnce.PendingPassSendsExactlyIfOvertaking`). The driver may then reboot
  the modem repeatedly for a setting that was never accepted (`PinChanges.PinChangeMayRebootTwice`); a pin
  that is entered later, or corrected once the first was answered, does no harm
  (`RebootOnce.RebootsAtMostOnce`).
- The driver does not recognise its own assignment exactly if the value has no number or quoted string
  in front of its first comma (`Modems.OwnCommandsAreRecognised`). Such an entry never becomes modified,
  so that the bound on reboots needs no assumption about values.

## Model

| member | source | states |
|---|---|---|
| RebootOnce.RebootsAtMostOnce | src/driver/modem/at_protocol/control.h:471-495 | In every run from the beginning, with any calls, any distinct plain entry names, values and initial settings, and with pins and ring commands that may be set or changed between passes, the reboot command is sent at most once, and only when no entry is unknown or mismatching and the modem already holds every wanted value. The modem answers in order and truthfully, or not at all, and its CME errors have the blank before the number; a ring command concerns neither a setting nor a reboot; no pass sends a changed pin or another ring command while the last one is unanswered; a timeout concerns neither the reboot nor a command that is still going to be answered. |
| RebootOnce.RunBounded | src/driver/modem/at_protocol/control.h:234-263 | The same from any state of such a run, with the number of reboots that may still be sent as a bound. |
| RebootOnce.PassBounded | src/driver/modem/at_protocol/control.h:532-548 | One pass of the driver, unless it overtakes an unanswered pin or ring command, keeps the bound; a pass that sends the reboot uses it up. |
| RebootOnce.HearBounded | src/driver/modem/at_protocol/status.h:252-339 | One line heard keeps the bound: the exchange of commands and answers stays aligned, or the reboot was confirmed with all settings as wanted. |
| RebootOnce.RebootReconciles | src/driver/modem/at_protocol/status.h:309-321 | The confirmation of the reboot is only heard when every setting is as wanted, with nothing under way that could change that. |
| RebootOnce.ReconciledForGood | src/driver/modem/at_protocol/control.h:471-495 | From then on, or once telephony has started, no command assigns a setting or reboots the modem, and no entry is ever found to mismatch: over every further run, with any timeouts, pins, inert ring commands and calls. |
| PinChanges.PinChangeMayRebootTwice | src/driver/modem/at_protocol/control.h:343-347 | Without the condition on pins the bound fails: a run from the beginning with a truthful modem and no timeout, in which a second pin overtakes the first, sends the reboot twice although the modem never takes the wanted value over. |
| RebootOnce.ConfirmedEntries | src/driver/modem/at_protocol/status.h:227-249 | A positive result marks exactly the entry that the pending command assigns as modified and leaves all others alone, and the modem has taken the value over. |
| RebootOnce.ReportedEntries | src/driver/modem/at_protocol/status.h:200-225 | A reported setting confirms an entry only if the modem holds the wanted value, and arrives only while a query is in flight. |
| RebootOnce.TelephonyReconciles | src/driver/modem/at_protocol/control.h:177-190 | When a telephony command is sent, every entry is confirmed and the modem holds every wanted value. |
| RebootOnce.PendingPassIsSilent | src/driver/modem/at_protocol/control.h:532-548 | While a command is pending in such a run, a pass that does not overtake a pin or ring command neither sends anything, nor drops the operation in flight, nor starts a reboot. |
| RebootOnce.PendingPassSendsExactlyIfOvertaking | src/driver/modem/at_protocol/control.h:314-348 | The exact condition: while a command is pending in such a run, a pass without new lines sends another one if and only if the pin is being set, the modem still asks for one and a different pin is configured, or a ring command is in flight, the modem has reported another ring and a ring command is still configured. |
| RebootOnce.ExpireKeepsAligned | src/driver/modem/at_protocol/driver.h:211-230 | A timeout of a command other than the reboot that is not going to be answered any more keeps commands and answers aligned. |
| RebootOnce.TimeoutRestartsReboot | src/driver/modem/at_protocol/control.h:483-495 | A reboot that times out is started again by the next pass, whatever the configuration. |
| RebootOnce.EntriesHeard | src/driver/modem/at_protocol/status.h:200-250 | What a message does to each single entry, for distinct names. |
| RebootOnce.CommandMeans | src/driver/modem/at_protocol/control.h:43-147 | Which commands assign a setting, query one or reboot the modem, as the modem reads them; a ring command does not, given that its text does not. |
| Modems.RequestsAreUnderstood | src/driver/modem/at_protocol/control.h:112-136 | A modem that takes the text between the first two quotes as the name reads every query and assignment as it is meant. |
| Modems.OwnCommandsAreRecognised | src/driver/modem/at_protocol/types.h:63-91 | The driver never takes a query for an assignment; it recognises its own assignment exactly if the value has a number or quoted string before its first comma. |
| Modems.ResponsesAreUnderstood | src/driver/modem/at_protocol/status.h:200-217 | A response in the modem's format yields exactly the name and the value. |
| Settling.OnlyTheFirstPassSends | src/driver/modem/at_protocol/control.h:497-548 | From every state with at most one operation in flight and with any configuration: of repeated passes without new lines only the first can send a command, and from the second on nothing changes. |
| Settling.SilenceSendsAtMostOnce | src/driver/modem/at_protocol/control.h:532-548 | However often such a pass is repeated, at most one command is sent and the state reached after two passes is final. |
| Settling.SilenceAfterAnyRun | src/driver/modem/at_protocol/control.h:497-548 | After any run from the beginning, against any modem, repeated passes send at most one command while the modem is silent. |
| Settling.PassSettles | src/driver/modem/at_protocol/control.h:497-548 | A pass leaves nothing to do, except when it starts a reboot or notices a refused pin; then the reboot or the request for the pin count is left. |
| Settling.SurvivesExactlyIfSpared | src/driver/modem/at_protocol/control.h:249-264 | Exactly when an operation in flight is still so after a pass: no result completes it, no reboot is started, and the step concerned neither drops it nor starts it anew. A changed pin, for instance, starts an unanswered pin command anew, and a known call list drops the request for it. |
| Settling.RebootIsPending | src/driver/modem/at_protocol/control.h:489-524 | A pass that starts a reboot drops all operations and goes on; the reboot is pending afterwards whatever the rest of the pass adds. |
| Settling.UnsettledPassSends | src/driver/modem/at_protocol/control.h:234-247 | A pass that starts a reboot or notices a refused pin submits an operation. |
| Coherence.RunsStayCoherent | src/driver/modem/at_protocol/control.h:219-264 | In every run against any modem whose CME errors have a blank before the number: at most one operation is submitted; a pending command excludes results; a submitted operation is the pending command, or a result was noted. |
| Coherence.RunsNeverOverlap | src/driver/modem/at_protocol/control.h:219-264 | In every run against any modem, whatever its lines look like: at most one operation is submitted, a pending command excludes results, and a submitted operation together with a pending command are the same command. |
| Coherence.CoherenceAddsResults | src/driver/modem/at_protocol/control.h:249-257 | What coherence adds is that a submitted operation without a pending command has a result. |
| Coherence.StepCoherent | src/driver/modem/at_protocol/driver.h:105-137 | Each pass, timeout and request to poll the call list keeps this. |
| Coherence.LinesAccount | src/driver/modem/at_protocol/status.h:336-350 | A sequence of lines leaves a command pending without result, or ends it with one. |
| Coherence.MalformedErrorBreaksCoherence | src/driver/modem/at_protocol/status.h:135-139 | Exactly the malformed error `+CME ERROR:` without a blank that hits an operation in flight breaks it. |
| Coherence.MalformedErrorIsReachable | src/driver/modem/at_protocol/status.h:336-338 | A run from the beginning loses coherence after two passes, for every configuration. |
| Coherence.TimeoutNeedsPendingCommand | src/driver/modem/at_protocol/driver.h:211-220 | A timeout retires no operation unless a command is pending. |
| Coherence.PreparedKeeps | src/driver/modem/at_protocol/control.h:497-544 | Whatever is submitted when a pass comes to its submission was submitted before, as the same operation: the steps of a pass submit nothing. |
| Guarantees.OnlyProbesUntilEchoIsDisabled | src/driver/modem/at_protocol/control.h:497-509 | As long as the echo has not been disabled, only AT and ATE0 are sent. |
| Guarantees.UnreadyPassSendsOnlyAT | src/driver/modem/at_protocol/control.h:536-544 | A pass without the modem's readiness that does not start a reboot sends nothing but AT. |
| Guarantees.DialsAtMostOnce | src/driver/modem/at_protocol/control.h:284-297 | While every pass asks for the same accepted number and every listed voice call carries it, the number is dialled at most once, across timeouts, disconnects and reboots. |
| Guarantees.StepDialsOnce | src/driver/modem/at_protocol/control.h:400-447 | Deciding to dial leaves a note, and the note is kept for as long as the number is asked for. |
| Guarantees.ReportedCallIsBacked | src/driver/modem/at_protocol/driver.h:105-137 | The reported call and the current call were always listed after the most recent NO CARRIER, provided that a pass reads fewer than 2^32 lines. |
| Guarantees.LinesCountHangups | src/driver/modem/at_protocol/status.h:83-89 | The 32-bit disconnect counter advances by the number of NO CARRIER lines. |
| Passes.PassSendsFirstWish | src/driver/modem/at_protocol/control.h:497-548 | For every state with nothing in flight, a pass sends the first of fourteen wishes, each given by the state of the modem, the settings and the configuration, with its literal command text: readiness, echo, power, ring, pin, pin state, pin count, reboot, query, assignment, hang-up, call list, dialling, answering. A reboot makes it forget what was waiting. |
| Passes.AtEaseSends | src/driver/modem/at_protocol/control.h:314-447 | With all settings confirmed and nothing else to do: AT+CPIN= and the wanted pin; AT+CPIN? without known pin state; ATH for a rejected incoming or active call and a cancelled one; AT+CLCC for an outdated list; ATD with the number and a semicolon for an accepted number without a call; ATA for an accepted incoming call; otherwise nothing. |
| Passes.PassNotes | src/driver/modem/at_protocol/control.h:369-467 | Which pin, which number of rings and which placed call a pass notes. |
| Passes.CallsOnDemandOnly | src/driver/modem/at_protocol/control.h:369-447 | In every run, every ATH, ATA and ATD is asked for by the pass that sends it or an earlier one: a call is rejected or cancelled, an incoming call is listed and accepted, or this very number is accepted without any call. |
| Passes.DialTextAtMostOnce | src/driver/modem/at_protocol/control.h:400-447 | While the configuration keeps one accepted call, a text that begins with ATD is sent at most once in every run from the beginning. |
| Passes.RefusedPinAsksForCount | src/driver/modem/at_protocol/control.h:314-348 | A refused pin is not sent again; AT+QPINC? is sent instead. |
| Passes.TimeoutIsFollowedByAT | src/driver/modem/at_protocol/driver.h:211-230 | After a timeout the next command is AT, unless a reboot starts. |
| Reports.CallIsTheOneListedLast | src/driver/modem/at_protocol/status.h:252-339 | In every run, the current call is the one listed last, unless a RING, a NO CARRIER, a confirmed command for calls or reboots, or a new request for the list came since; and the list counts as valid exactly if it was completed since then and is not to be polled. |
| Reports.ReportAfterAnyRun | src/driver/modem/at_protocol/driver.h:105-137 | After every run from the beginning and one more pass, the report is the call listed last if the list is valid, and otherwise the previous report exactly as long as the pass heard no NO CARRIER. |
| Reports.OnlyPassesReport | src/driver/modem/at_protocol/driver.h:127-136 | Timeouts and polls leave the report alone. |
| Lines.CallSays | src/driver/modem/at_protocol/status.h:144-183 | A +CLCC line with any numbers and any quoted number stands for a voice call exactly if its mode is 0 and its state is 0, 2, 3 or 4, namely active, dialing, alerting or incoming. |
| Lines.OkDoes | src/driver/modem/at_protocol/status.h:252-339 | The whole new state after OK, for each command that it may confirm. |
| Lines.WordsDo | src/driver/modem/at_protocol/status.h:252-303 | The whole new state after RDY, POWERED DOWN, RING, NO CARRIER and ERROR. |
| Lines.SimLinesDo | src/driver/modem/at_protocol/status.h:252-264 | Pin state and pin count are taken over as they are, whatever they are. |
| Lines.EquipmentErrorsDo | src/driver/modem/at_protocol/status.h:252-284 | The whole new state after a CME error with or without the blank; 10 and 14 count as busy, 16 forgets the pin state. |
| Lines.CallLinesDo | src/driver/modem/at_protocol/status.h:266-303 | The whole new state after a line of the call list. |
| Lines.OtherLinesDoNothing | src/driver/modem/at_protocol/status.h:252-303 | Any other line only clears the note of being powered down and completes a known call list. |
| Lines.CountedExactlyIf | src/driver/modem/at_protocol/status.h:59-89 | Exactly which lines count as a change of the protocol state. |
| Lines.CommandsDo | src/driver/modem/at_protocol/driver.h:187-230 | What submitting a command, a timeout and a poll change, and that they change nothing else. |
| Cutting.LineMakesCallKnown | src/driver/modem/at_protocol/status.h:298-303 | After any line, a known current call implies a valid call list. |
| ReadBuffers.ConsumeIsSplit | src/driver/modem/at_protocol/read_buffer.h:53-105 | Apart from empty lines, consuming the buffer hands out the lines of a character-wise reference splitter and keeps its unfinished line if it fits. |
| ReadBuffers.ConsumeLeavesNoLine | src/driver/modem/at_protocol/read_buffer.h:78-105 | No line end remains in the buffer. |
| ReadBuffers.CuttingDoesNotMatter | src/driver/modem/at_protocol/read_buffer.h:39-105 | For every stream whose lines fit and every way of cutting it into reads, the non-empty lines handed out are those of the uncut stream, and the unfinished line is kept. |
| ReadBuffers.TextIsHandedOut | src/driver/modem/at_protocol/read_buffer.h:78-105 | A text of any characters other than CR and LF is handed out as it is once CR, LF or both follow. |
| ReadBuffers.UnfinishedTextIsKept | src/driver/modem/at_protocol/read_buffer.h:53-77 | Without CR and LF nothing is handed out; the text is kept if it fits. |
| Cutting.DrainIsSplit | src/driver/modem/at_protocol/driver.h:111-120 | The same for the driver's reading loop with its bounded buffer: there is always room, and a modem that does not pause is read to the end. |
| Cutting.CutsOnlyAffectPowerDown | src/driver/modem/at_protocol/driver.h:105-126 | Two ways of cutting the same stream lead to the same status and settings, except for the note that the modem is powered down. |
| Cutting.PowerDownIsTheLastLine | src/driver/modem/at_protocol/status.h:257-271 | That note holds exactly if POWERED DOWN is the last line handed out, empty lines included. |
| Cutting.SplitLineEndHidesPowerDown | src/driver/modem/at_protocol/read_buffer.h:82-104 | A line end that is split across two reads adds an empty line and makes the driver miss POWERED DOWN. |
| Cutting.EmptyLineIsHarmlessExactlyIf | src/driver/modem/at_protocol/status.h:298-303 | Apart from that note, an empty line changes nothing exactly if no call is known or the call list is valid already. |
| Cutting.LateLineEndLosesPoll | src/driver/modem/at_protocol/read_buffer.h:82-104 | With a known call, a request to poll the call list that falls between the two halves of a line end is lost: the stale list counts as valid. |
| ModemMains.ModemMain.SettleAll | src/driver/modem/pinephone/main.cc:286-334 | The settle loop terminates for every configuration, every finite modem output and whatever the status pin reads; it moves the power state by at least the step that is due, and ends with an AT driver that has nothing left to submit unless the modem is busy. |
| ModemMains.ModemMain.Settle | src/driver/modem/pinephone/main.cc:315-334 | An iteration moves the power state as is due and lets the AT driver in charge make a pass. If it makes progress, the measure is lower (power states left, steps of the power sequence left, bytes left, whether a command may still be submitted); if not, the AT driver has nothing left to submit. |
| ModemMains.ProgressIsBounded | src/driver/modem/pinephone/main.cc:322-328 | A pass that changes the protocol version has read data or has submitted a command; after one that only submitted, the next one needs data. |
| ModemMains.PoliteShutdown | src/driver/modem/pinephone/main.cc:175-270 | In every history whose entries follow each other as the code has it: a modem that talks the AT protocol is powered off only after AtShutdown, and then at least 1000 ms after POWERED DOWN was heard or more than 25 whole seconds after the shutdown was triggered. |
| ModemMains.ModemMain.Serve | src/driver/modem/pinephone/main.cc:272-374 | Over any number of configuration updates and timeouts the history only grows, and every power-off in it is polite in this sense. |
| ModemMains.ModemMain.AwaitShutdown | src/driver/modem/pinephone/main.cc:238-255 | Destructs the AT driver exactly if POWERED DOWN was heard, and enters the grace delay only then; extends the history of power states and keeps it in order. |
| ModemMains.ModemMain.TriggerShutdown | src/driver/modem/pinephone/main.cc:219-236 | Leaves the AT states only if the AT driver is powering down or has powered down; only without a driver straight to PoweringOff. |
| ModemMains.ModemMain.ApplyPowerState | src/driver/modem/pinephone/main.cc:175-270 | The next power state exactly, by configuration, power driver, AT driver and delays; keeps the driver alive while it is in charge, extends the history, and enters the grace delay only if POWERED DOWN was heard. |
| ModemMains.ModemMain.HandleConfig | src/driver/modem/pinephone/main.cc:272-353 | Extends the history and settles as above; the timer is scheduled exactly if it was or something needs polling; a busy modem is noted; the time of the last progress is noted exactly if the protocol state changed. The AT driver is in a state that a run from the beginning leads to, and made passes only. |
| ModemMains.ModemMain.HandleTimer | src/driver/modem/pinephone/main.cc:355-374 | The same after polling the call list of a placed call and cancelling an overdue command. |
| ModemMains.ModemMain.CancelOverdueCommand | src/driver/modem/pinephone/main.cc:366-371 | A pending command is cancelled exactly if its response has been overdue for more than 90 s for a hang-up and 600 ms for any other. |
| Powers.Power.PowerEnabled | src/driver/modem/pinephone/power.h:137-156 | Terminates whatever the pin reads; the power key is pressed at most once, namely to leave a settled state, and the final state follows from the last reading of the pin. |
| Powers.DrivenMeans | src/driver/modem/pinephone/power.h:60-104 | Which state and how many key presses the sequence leads to, by the reading of the pin. |
| ReadBuffers.ReadBuffer.ConsumeLines | src/driver/modem/at_protocol/read_buffer.h:53-105 | The in-place consume loop hands out and keeps what the reference functions say. |
| ReadBuffers.ReadBuffer.Fill | src/driver/modem/at_protocol/read_buffer.h:39-51 | Appends what one read obtains; done exactly if it obtains nothing. |
| ReadBuffers.ReadBuffer.NextLine | src/driver/modem/at_protocol/read_buffer.h:83-103 | One iteration of the consume loop takes off exactly the first complete line and its line end. |
| Drivers.DriverObject.Listen | src/driver/modem/at_protocol/driver.h:111-120 | The reading loop interprets exactly the lines of the drained channel, in order, and terminates. |
| Drivers.DriverObject.Apply | src/driver/modem/at_protocol/driver.h:105-137 | New state, commands sent, buffer and channel after a pass equal the functions that the run theorems are about. |
| Drivers.DriverObject.CancelCommand | src/driver/modem/at_protocol/driver.h:211-230 | A timeout drops the operation in flight and asks for resynchronisation. |
| AtText.CommaSeparatedElement | src/driver/modem/at_protocol/types.h:63-91 | The scanning loop finds the first number or quoted string of the element. |
| AtText.QcfgElementOne | src/driver/modem/at_protocol/types.h:63-91 | A query has no second element; an assignment has the one of its value. |
| AtText.QuotedNameIsElementZero | src/driver/modem/at_protocol/types.h:83-87 | A quoted plain name is read back. |
| AtText.EscapedQuoteIsKept | src/driver/modem/at_protocol/types.h:83-87 | A quote behind a backslash does not end a quoted element. |
| AtText.WordIsSkipped | src/driver/modem/at_protocol/types.h:63-91 | A word, even one with digits in it, is no element. |
| Statuses.StatusObject.ApplyLine | src/driver/modem/at_protocol/status.h:252-339 | Effect of a line on all attributes and on the settings. |
| Statuses.StatusObject.ApplyQcfgResponse | src/driver/modem/at_protocol/status.h:200-250 | Effect of a line on the settings, including the invalidation by a reboot. |
| Statuses.StatusObject.ApplyCalls | src/driver/modem/at_protocol/status.h:286-334 | Effect of a line on the call list. |
| Statuses.StatusObject.CommandSubmitted | src/driver/modem/at_protocol/status.h:341-350 | Submitting a command resets all results. |
| Controls.ControlObject.ApplyConfig | src/driver/modem/at_protocol/control.h:532-548 | Operations and commands after a pass. |
| Controls.ControlObject.SubmitOnePendingOperation | src/driver/modem/at_protocol/control.h:234-247 | Submits exactly the pending operation of highest priority. |
| Controls.ControlObject.CompleteOperation | src/driver/modem/at_protocol/control.h:249-264 | Drops exactly the submitted operation of highest priority, and only on a positive result. |
| Controls.ControlObject.ApplyQcfg | src/driver/modem/at_protocol/control.h:471-495 | Queries, assigns and starts the reboot. |
| Controls.ControlObject.ApplyPin | src/driver/modem/at_protocol/control.h:314-348 | Pin state, pin and pin count requests. |
| Controls.ControlObject.ApplyHangUp | src/driver/modem/at_protocol/control.h:369-398 | Hangs up cancelled and rejected calls. |
| Controls.ControlObject.ApplyCall | src/driver/modem/at_protocol/control.h:400-447 | Accepts and initiates calls. |
| Controls.ControlObject.CancelCommand | src/driver/modem/at_protocol/control.h:550-557 | Drops exactly what is in flight. |
| Qcfgs.Qcfg.NeedsReboot | src/driver/modem/at_protocol/qcfg.h:114-129 | A reboot is needed exactly if something was modified and nothing is unknown or mismatching. |
| Qcfgs.Qcfg.AnyEntryInState | src/driver/modem/at_protocol/qcfg.h:70-80 | Yields the first entry in the state, if any. |
| Qcfgs.Qcfg.SetState | src/driver/modem/at_protocol/qcfg.h:102-112 | Changes the state of the first entry with the name, and nothing else. |
| ScpRuns.EveryAnswerIsRight | src/driver/platform/a64/scp.h:365-397 | For any number of sessions opening, calling and closing in any order, spurious interrupts and wake-ups and any program outputs: every call that ended got the answer to the execution of its own program, no execution answered two calls, the processor ran exactly the submitted non-empty programs in order, and while it is idle no request waits. |
| ScpRuns.EveryCallIsAnswered | include/scp_session/scp_session.h:71-119 | After as many services of the processor as there were outstanding requests, each non-empty call has a response signal to handle, then finds its answer and ends with exactly one outcome. |
| ScpClients.Connection.Execute | include/scp_session/scp_session.h:71-119 | The waiting loop reports the end of a call exactly once, by the first signal that brings a response, whatever spurious signals precede it; a too large program is reported at once. |
| ScpClients.Connection.AwaitSignal | include/scp_session/scp_session.h:93-95 | Blocks until the 32-bit response counter has changed, and loses no response. |
| ScpRuns.ServiceLowersOutstanding | src/driver/platform/a64/scp.h:464-491 | Each service settles exactly one outstanding request. |
| ScpRuns.CollectKeepsInv | src/driver/platform/a64/scp.h:365-397 | A response reaches exactly the session that waits for it. |
| ScpRuns.SubmitKeepsInv | src/driver/platform/a64/scp.h:420-438 | A request that is picked up is what the processor will see. |
| ScpRuns.ExecuteKeepsInv | include/scp_session/scp_session.h:78-86 | A call of execute, admissible or too large, keeps the invariant of the system. |
| ScpRuns.WakeKeepsInv | include/scp_session/scp_session.h:90-118 | A wake-up ends the call exactly if there is a response. |
| ScpRuns.WakeIsOneIteration | include/scp_session/scp_session.h:90-118 | A wake-up does to a call in the runs what one iteration of the waiting loop does with the same result. |
| ScpRuns.CloseKeepsInv | src/driver/platform/a64/scp.h:318-321 | A session may close in the middle of a request without disturbing the others. |
| ScpRuns.StepsTakeEffect | src/driver/platform/a64/scp.h:365-397 | Every step does what it stands for: an admissible call begins, a too large one ends at once, the processor runs the program that was submitted next, and an interrupt leaves no request waiting at an idle processor. |
| ScpRuns.SubmissionsAreNumbered | src/driver/platform/a64/scp.h:433-437 | In every run the submissions are numbered consecutively modulo 2^32. |
| ScpDrivers.ResponseIsTaken | src/driver/platform/a64/scp.h:365-397 | A response empties the mailbox, is noted by its number and makes the processor available. |
| ScpDrivers.ScheduledIsBusyOrDone | src/driver/platform/a64/scp.h:464-491 | After scheduling, the processor is busy or no session has a pending request. |
| ScpDrivers.ResponseLowersOutstanding | src/driver/platform/a64/scp.h:365-397 | A response lowers the number of outstanding requests by one, a spurious interrupt leaves it alone. |
| ScpDrivers.ScpDriver.HandleIrq | src/driver/platform/a64/scp.h:365-397 | The interrupt handler delivers a response and schedules, in this order. |
| ScpDrivers.ScpDriver.Schedule | src/driver/platform/a64/scp.h:464-491 | The loop over the sessions submits exactly the first pending request if the processor is idle. |
| ScpDrivers.ScpDriver.TrySubmit | src/driver/platform/a64/scp.h:179-189 | A request that is picked up always gets an execution id: the busy and capacity errors are unreachable from the scheduler. |
| ScpDrivers.ScpDriver.SubmitToScp | src/driver/platform/a64/scp.h:420-438 | When each submit error occurs, and what a submission writes. |
| ScpDrivers.ScpDriver.RetrieveFromScp | src/driver/platform/a64/scp.h:444-457 | A response of 1000 bytes or more, or larger than the destination, is refused without touching the destination; any other is copied completely. |
| ScpDrivers.ScpDriver.DeliverToAll | src/driver/platform/a64/scp.h:357-363 | Only a session with the number of the response changes. |
| ScpDrivers.ScpDriver.Request | src/driver/platform/a64/scp.h:233-244 | Too large requests change nothing; others are recorded and scheduled. |
| ScpDrivers.ScpDriver.CreateSession | src/driver/platform/a64/scp.h:307-316 | A session opens without a request, and no other changes. |
| ScpDrivers.ScpDriver.DestroySession | src/driver/platform/a64/scp.h:318-321 | A session closes, and no other changes. |
| ScpBuffers.SwizzleIsInvolution | src/driver/platform/a64/scp.h:405-415 | The index swizzle undoes itself and keeps each aligned group of four, for all indices. |
| ScpBuffers.RetrieveUndoesSubmit | src/driver/platform/a64/scp.h:420-457 | What one side stores is what the other side retrieves, for every length up to the capacity. |
| ScpBuffers.SubmittedWordsAreReversed | src/driver/platform/a64/scp.h:405-431 | A submitted text lies byte-reversed in its aligned words, also in a partly filled last one; everything behind it is as before. |
| ScpBuffers.FourBytesAreReversed | src/driver/platform/a64/scp.h:428-431 | Four characters are stored in reverse order at the beginning of the buffer. |
| ScpBuffers.RetrievedWordsAreReversed | src/driver/platform/a64/scp.h:453-456 | A retrieved text consists of the bytes of each aligned word in reverse order. |
| ScpBuffers.SharedBuffer.Put | src/driver/platform/a64/scp.h:428-431 | All swizzled writes stay in the buffer, and the recorded count is the length. |
| ScpBuffers.SharedBuffer.Get | src/driver/platform/a64/scp.h:453-454 | The retrieving loop. |
| YuvFromRgb.ImageRoundTrip | src/driver/camera/pinephone/yuv_rgb.c:187-242 | For every image of even size with uniform blocks and each standard: the way back keeps every look-up inside the clamp table and every channel of every pixel within 12 levels. |
| YuvPixels.PixelRoundTrip | src/driver/camera/pinephone/yuv_rgb.c:36-59 | The same for one colour. |
| YuvPixels.RoundTripIsTight | src/driver/camera/pinephone/yuv_rgb.c:46-56 | The bound of 12 is attained. |
| YuvPixels.RgbIsConvertible | src/driver/camera/pinephone/yuv_rgb.c:208-232 | From RGB, every look-up stays inside the table, whatever the four colours of a block are. |
| YuvPixels.ClampIsCorrect | src/driver/camera/pinephone/yuv_rgb.c:76-94 | The look-up is safe exactly from -128 * 64 up to but excluding 384 * 64, and clamps correctly there. |
| YuvPixels.UpperEndIsOutside | src/driver/camera/pinephone/yuv_rgb.c:74-75 | The documented closed upper end lies outside of the table. |
| YuvPixels.SomeBytesAreNotConvertible | src/driver/camera/pinephone/yuv_rgb_std_func.h:110-141 | In each standard some bytes lead out of the table. |
| YuvPixels.Coefficients | src/driver/camera/pinephone/yuv_rgb.c:43-59 | The rounded fixed-point coefficients. |
| YuvImages.Convert | src/driver/camera/pinephone/yuv_rgb_std_func.h:72-217 | The block-wise loops over 420, 422 and NV12 layouts and all six pixel formats equal the conversion of each pixel with the chroma sample it shares, for all sizes of at least one pixel and all sufficient strides, given sums in the range of the table; all other bytes are kept. |
| YuvImages.EveryPixelIsConverted | src/driver/camera/pinephone/yuv_rgb_std_func.h:143-217 | Every pixel is written, including odd last columns and rows. |
| YuvImages.PaddingIsKept | src/driver/camera/pinephone/yuv_rgb_std_func.h:96-104 | Row padding and everything behind the image are left alone. |
| YuvImages.EveryPixelIsPacked | src/driver/camera/pinephone/yuv_rgb_std_func.h:10-69 | In each format, the bytes at a pixel's place are the word of its colour, in arithmetic; the colour is the clamped sum of the pixel's luma and shared chroma samples with the integer coefficients of its standard, and the samples are where the layout has them. |
| YuvImages.PixelLocated | src/driver/camera/pinephone/yuv_rgb_std_func.h:104-108 | The bytes of different pixels do not overlap. |
| YuvImages.ConvertStrip | src/driver/camera/pinephone/yuv_rgb_std_func.h:97-165 | One pass of the outer loop, with its four advancing pointers. |
| YuvImages.PackPixel | src/driver/camera/pinephone/yuv_rgb_std_func.h:10-69 | Stores the bytes of a pixel and nothing else. |
| YuvFromRgb.Convert | src/driver/camera/pinephone/yuv_rgb.c:187-242 | The loops write the luma of every pixel and the averaged chroma of every block, leave out an odd last column and row, and keep all other bytes. |
| YuvFromRgb.BlockChroma | src/driver/camera/pinephone/yuv_rgb.c:208-232 | Chroma is the sum over the block, quartered towards zero. |
| YuvFromRgb.EveryLumaIsCoded | src/driver/camera/pinephone/yuv_rgb.c:208-225 | Every luma byte is the clamped weighted sum of the three bytes of its pixel. |
| YuvFromRgb.EveryChromaIsCoded | src/driver/camera/pinephone/yuv_rgb.c:208-232 | Every chroma byte comes from a quarter, rounded towards zero, of the weighted sums of the twelve bytes of its block. |
| Gpu.RunsKeepHandles | src/driver/gpu/lima/main.cc:1042-1087 | In every run with a kernel that hands out unused handles and closes them: a pending request is a blocked wait with an empty completed slot, and the open handles are exactly the registered ones. |
| Gpu.OwnResult | src/driver/gpu/lima/main.cc:1078-1086 | A success function only sees the result of its own request. |
| Gpu.ResultMeans | src/driver/gpu/lima/main.cc:1047-1086 | For each kind of request, exactly when its success function is called. |
| Gpu.ScheduledMeans | src/driver/gpu/lima/main.cc:1042-1087 | Which buffers and which slot a request leaves behind, by its kind. |
| Gpu.PerformMeans | src/driver/gpu/lima/main.cc:1366-1386 | A request that is neither an allocation nor a free gets a new tag, changes no buffer, and leaves its result or a blocked wait behind, or nothing at all if it is refused. |
| Gpu.WokenWaitEnds | src/driver/gpu/lima/main.cc:912-924 | A blocked wait that is woken up ends with the kernel's answer. |
| Gpu.NewTagIsFresh | src/driver/gpu/lima/main.cc:1042-1087 | No earlier request that is pending or completed has the tag of a new one. |
| Gpu.WaitAnswerMeans | src/driver/gpu/lima/main.cc:1388-1431 | Exactly when `complete` is answered positively, and whether an interrupted wait is remembered. |
| Gpu.UnmapMeans | src/driver/gpu/lima/main.cc:1205-1255 | Exactly what unmapping drops, and that it drops nothing else. |
| Gpu.BlockedRefuses | src/driver/gpu/lima/main.cc:1047-1053 | While the worker is blocked, every other request is refused and changes nothing. |
| Gpu.MapIsAllOrNone | src/driver/gpu/lima/main.cc:1484-1553 | Mapping adds buffer, exported object and local entry together, or nothing at all; it adds them exactly if the worker is free, the id is not in use, and kernel and memory allow it. |
| Gpu.RefusedCloseLeaks | src/driver/gpu/lima/main.cc:841-854 | Freeing keeps the handles matched exactly if the kernel closes the handle. |
| Gpu.UnmapWhileBlockedLeaks | src/driver/gpu/lima/main.cc:1205-1255 | Unmapping drops the bookkeeping at once but keeps the buffer exactly if the worker is blocked. |
| Gpu.LeakIsPermanent | src/driver/gpu/lima/main.cc:1484-1493 | A leaked buffer stays leaked over every sequence of calls, and its id can never be mapped again. |
| Gpu.LeakIsReachable | src/driver/gpu/lima/main.cc:1205-1255 | Mapping a buffer, waiting for something else, and unmapping the buffer leaks it. |
| Gpu.WaitAnswersFor | src/driver/gpu/lima/main.cc:1388-1431 | A positive answer is about the asked-for object exactly unless an interrupted wait for another one has finished meanwhile. |
| Gpu.WaitMayAnswerForAnother | src/driver/gpu/lima/main.cc:1401-1413 | Such a wrong answer is reachable. |
| Gpu.GpuSession.ScheduleRequest | src/driver/gpu/lima/main.cc:1042-1087 | Which requests are refused, and what the caller gets. |
| Gpu.GpuSession.Complete | src/driver/gpu/lima/main.cc:1388-1431 | Handling of interrupted waits. |
| Gpu.GpuSession.MapGpu | src/driver/gpu/lima/main.cc:1484-1553 | Allocation, registration and rollback; the answer is positive exactly if all three were added. |
| Touch.FramesKeepConsistent | src/driver/touch/goodix/input.c:136-234 | Over every sequence of frames: a finger is present exactly if its last event was a touch, and every release ends a touch of the same finger. |
| Touch.OneEventPerFinger | src/driver/touch/goodix/input.c:198-230 | A frame yields at most one event per finger, in the order of the fingers. |
| Touch.EventMeans | src/driver/touch/goodix/input.c:201-230 | Exactly which event a finger has: touched if it is featured and new or moved, released if it was present and is not featured, silent otherwise; the coordinates are the last ones captured for it in this or an earlier frame. |
| Touch.FeaturedMeans | src/driver/touch/goodix/input.c:166-196 | A finger is featured exactly if one of the 14 axis values follows a selection of its slot with no other selection in between. |
| Touch.LatestMeans | src/driver/touch/goodix/input.c:166-196 | Its latest value for an axis is the last such value for that axis, or else the one before the frame. |
| Touch.MovesMeans | src/driver/touch/goodix/input.c:166-196 | It has moved exactly if one of these values differs from the one before it on the same axis. |
| Touch.InputDev.SyncFrame | src/driver/touch/goodix/input.c:136-234 | The three loops compute the slots and events that these lemmas are about. |
| Touch.InputDev.InputEvent | src/driver/touch/goodix/input.c:101-121 | Captures absolute events up to the capacity, in order. |

## Left out

- Genode plumbing: RPC, signals, `Constructible` and `Registry` internals, quotas and timers appear
  as optional values, sequences and nondeterministic steps; the `Token` scanner of the Genode base
  library is not part of this model's sources and is given by `KindOf` and `TokenLen`.
- Truncation by fixed-size strings: texts are assumed to fit.
- Wrap-around of the status version: the counter is unbounded, so that a change is never overlooked.
- XML parsing and report generation: the configuration is a datatype, and of the report only the
  call that it is based on.
- The operation state `TIMED_OUT`, which is declared but never assigned, and
  `incorrect_password_count`, which is never changed.
- The bytes behind the terminator of a settings response that is one byte too short: its value is
  taken as empty.
- `Driver::send_command_to_modem`, which bypasses the operations and serves the test only.
- RebootOnce.RebootsAtMostOnce: does not cover a pass that overtakes an unanswered pin or ring command, nor a timeout of a command still to be answered, because later answers are then taken for the ones to other commands (PinChanges.PinChangeMayRebootTwice gives a run that breaks the bound); nor a timeout of the reboot, because the reboot is then started again (RebootOnce.TimeoutRestartsReboot); nor a ring command that itself assigns a setting or reboots the modem.
- Guarantees.UnreadyPassSendsOnlyAT: excludes the pass that starts a reboot, because it drops the readiness check and may send pin or power commands.
- ScpRuns.EveryAnswerIsRight: assumes a processor that reflects each submitted number once; fairness among the sessions is not claimed, because the scheduler always takes the first pending request.
- ScpRuns.EveryCallIsAnswered: calls with an empty program are excluded, because they are never executed.
- The transport of response signals: a delivered response leaves a signal to handle, but when the
  client gets to handle it is arbitrary.
- Mailbox registers and interrupts of the platform beyond one value in each direction.
- ModemMains.ModemMain.HandleConfig: the channel to the modem is kept when the AT driver is constructed anew, where the code opens a new terminal session.
- YuvImages.Convert: requires all sums in the range of the clamp table, because other sums index outside of it; words are stored with the least significant byte first.
- YuvFromRgb.ImageRoundTrip: is about blocks of one colour, because other blocks lose their chroma differences by averaging.
- Gpu: import and export of buffers of other sessions, execution lists, opening and tearing down the
  session, and buffers without a valid dataspace capability; only waits are taken to block.
- Touch: capabilities and axis information of the input device.
- The camera rotation loops, register-level drivers, Linux emulation stubs and the pin driver, which
  would add no property that spans more than one body.
