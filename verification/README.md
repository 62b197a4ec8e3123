# Verified model of the pipeline runner

The server takes pipeline runs from a bounded queue per pipeline, executes each run's script of
stages and steps on an agent or on its own machine, streams the output to browsers and records the
run in a table. This project models that machinery and proves what it keeps over every script,
every outcome of a step, every interleaving of goroutines and every store error.

Where the source changes state in place the model does too: the executor's loops, the run queue and
its worker, the stores, the cancel map, the client map, the registry, the event printer and the
`.env` file are methods and classes, and each method is proved to compute a function or to follow a
transition system. The theorems are about those functions and systems.

What the model takes as given is collected in a few parameters:

- `ScriptMachine.Oracle` says of every step which lines the scanners of its command's stdout and stderr
  deliver (they may be fewer than the command prints, as its pipes are closed when it exits) and
  whether the call passes, returns a command error, times out or is cancelled. After a cancellation
  the source's select may also take the timeout branch (`internal/service/run_queue.go` 625-642), so
  the oracle may give any outcome; only a pass is known to have waited for both scanners.
- `RunQueue.RunEnv` holds the outcomes of the worker's other dependencies: each store call, the SSH
  connection, the clone, the script file, the clock, whether the run is cancelled, and how many lines
  the scanners of a failed script still deliver before and after the FAIL banner.
- A channel is the sequence of what has been sent on it: receivers take every message. The one
  channel where that would be wrong, `done`, has a model of its own with unbuffered semantics.
- A store method that reports an error has changed nothing.

How the files hang together:

- `StepGroup` and `GroupOutcome`: one group of steps as a system of goroutines - for each step a
  caller and two scanners - and what every interleaving keeps, with a ledger of the events and errors
  a group still owes (`Ledgers`).
- `Grouping`: the partition of a stage's steps that the two index loops carry out.
- `ScriptMachine`, `PlanOrder`, `ScriptTheorems`: a whole script as a transition system; barrier,
  fail-stop, trace of a passed run, confluence, termination, absence of deadlock.
- `StageMessages`, `StepCalls`: the messages of the stages and the calls of the steps, one by one.
- `Executor`: the executor's loops, which send the trace of a schedule of that system and return its
  result. The agent copy and the controller copy of the source differ only in how a step call is
  made, so one method stands for both.
- `RunStore`, `CancelMap`, `RunQueue`, `OutputHandler`: the row and its column updates, the cancel
  functions, the queue with its worker, and the goroutine that stores and broadcasts the output.
- `RunStream`, `LastBanner`: all messages of a run that passes, fails, or does not get to its script, and
  when the FAIL banner is the last of them.
- `RunVerdict`, `RunLifecycle`: the status a run ends with, and all runs of a queue together with the
  output goroutines, cancellations and rejected offers in any order.
- `RunProgress`, `RunOrder`: every run being served can be finished; how its writes and messages stand to
  each other.
- `OutputText`: what the stored output says, word for word.
- `RunCancellation`: what a row that says cancelled tells about its run.
- `DoneChannel`: the completion signal as it is coded.
- `SSEClientMap`, `EventStream`, `EventMarshal`, `EventSurvival`: broadcasting, the WHATWG HTML Living
  Standard's event stream parser (sections 9.2.5 and 9.2.6), the printer whose output it reads back,
  and streams of events whose fields hold line breaks. `EventStream.LineEndings` holds the parser
  against the standard's rules for line ends, unfinished lines and byte order marks.
- `Dotenv`, `PipelineRegistry`, `ArtifactNames`: the `.env` round trip, one queue per pipeline, and the
  artifact directories.

## Where the code and what it is meant to do part

- `done` is unbuffered and the worker itself sends on it before it receives from it. `DoneChannel`
  proves that no second run is ever taken from a queue, with or without calls of `Shutdown`.
  `RunLifecycle` lets the worker return to its queue in a step that may or may not be taken, so its
  invariants cover both the code as it is and a queue that goes on; nothing is claimed about progress.
- A cancellation is recorded as such only when a sequential step returns it. Met while cloning it is
  wrapped, in a parallel group it is joined with the other errors, and the run is recorded as failed
  (`RunVerdict.Verdict`).
- A passed run whose row cannot be read back is overwritten as failed (`RunLifecycle.StatusMoves`), and
  a failure that cannot be written leaves the row queued, running or passed
  (`RunVerdict.UnrecordedFailure`).
- A carriage return in a message's data is not carried by the event stream format, and line breaks in
  the other fields are not escaped. `EventMarshal.StreamRoundTrip` says exactly which data, types and
  ids survive; line breaks in a comment or reconnection time do harm exactly when they bring in a
  data field, or another type or id before the first blank line (`EventSurvival.SurvivesExactly`).
- A generated key appended to a `.env` file whose last line has no line feed is lost
  (`Dotenv.ReadBackExactly` says exactly when it is read back).
- After a failed script the FAIL banner need not be the last message: scanners of the steps that were
  given up go on delivering. It is the last one in every execution exactly when the failing steps of
  the group the script stops at deliver no line at all (`LastBanner.BannerIsLastExactly`).
- Deleting a pipeline while its creation is still registering the queue leaves a queue and a worker
  behind (`PipelineRegistry.OverlapLeaks`).
- The example pipelines in the repository's documentation leave out `timeout_seconds`; the code then
  uses a timeout of zero. How such a step ends is left to the oracle.

## Model

| member | source | states |
|---|---|---|
| PlanOrder.ExecutorGrouping | internal/service/run_queue.go:430-485 | the spans of the groups the executor forms are the only ones that tile a stage's steps in order, put several steps together only when all are parallel, and never part a parallel run |
| PlanOrder.GroupsConcatenate | internal/service/run_queue.go:430-485 | the steps of the groups the executor forms, laid end to end, are the stage's steps: none lost, duplicated or moved |
| Executor.NextMembers | internal/service/run_queue.go:432-440 | the inner index loop collects exactly the parallel run that starts here, or one sequential step, and leaves the index behind it |
| Executor.RunGoroutines | internal/service/run_queue.go:441-464 | running a group to the end of its wait is a schedule of the group's moves after which every caller is through; what was sent is its trace, what is returned its errors; it terminates |
| Executor.ExecutePipelineScript | internal/service/run_queue.go:420-489 | the agent executor's loops send the trace of some schedule of the script machine and return the result that schedule ends with, and after an error leave behind the goroutines of the group it stopped at |
| Executor.LateScanners | internal/service/run_queue.go:599-612 | after the executor has returned with an error the scanners left behind send what a continuation of its schedule adds to the trace |
| StepGroup.MoveKeepsInv | internal/service/run_queue.go:585-642 | every move of a caller or scanner keeps each thread's order, puts no line before the call, and none after the return of a call that passed |
| StepGroup.CompletePassShape | internal/service/run_queue.go:445-462 | the acts of a passed step are: announced, called, a merge of all its stdout and stderr lines each in order, returned, PASSED |
| GroupOutcome.MoveKeepsBalance | internal/service/run_queue.go:441-468 | produced plus owed events and errors are the same total after every move |
| GroupOutcome.CompleteErrors | internal/service/run_queue.go:455-467 | a group whose callers are through has collected exactly one error per failing step, and none iff all passed |
| GroupOutcome.InterleavingKeeps | internal/service/run_queue.go:441-464 | every sequence of moves keeps shape and balance, and its length plus what is owed is the group's total |
| GroupOutcome.OwnOrderIsKept | internal/service/run_queue.go:597-612 | in every interleaving the messages of a caller and of each scanner keep their own order, and are complete once the group has settled |
| GroupOutcome.Confluence | internal/service/run_queue.go:441-468 | two complete interleavings agree on nil or error, on the multiset of errors, on each caller's acts in order, and, settled, on the multiset of messages |
| GroupOutcome.UnsettledCanMove | internal/service/run_queue.go:585-623 | a group that has not settled always has a move: no interleaving deadlocks |
| ScriptMachine.EveryScheduleKeepsInv | internal/service/run_queue.go:420-489 | in every schedule each finished item left its own block on the trace, all finished groups passed, the open group is in shape, and a failed executor stands at a complete group with errors |
| PlanOrder.PlanFollowsTheScript | internal/service/run_queue.go:428-486 | the unfolded items follow the script's order and each group is the one that starts at its step |
| PlanOrder.EarlierGroupsComeFirst | internal/service/run_queue.go:428-485 | of two steps the first one's group comes earlier iff its stage does, or some step from it to the second is not parallel: exactly the pairs the barrier speaks of |
| ScriptTheorems.Barrier | internal/service/run_queue.go:428-487 | for every script, oracle and schedule: before anything happens in a step, every step of every earlier group has returned nil, and nothing of it comes later |
| ScriptTheorems.FailStop | internal/service/run_queue.go:464-486 | the executor returns nil iff every step passes; else it stops at one group: all its calls were made and returned, no later step starts, no STAGE PASSED for this or a later stage |
| ScriptTheorems.PassedRunTrace | internal/service/run_queue.go:428-488 | the trace of a passed run is one block per item, with nothing before, between or after |
| StageMessages.PassedStages | internal/service/run_queue.go:428-488 | in a passed run every stage's header is sent exactly once, before everything else of the stage, and its STAGE PASSED line exactly once, after everything else; the stages follow each other and the executor itself sends nothing more |
| StageMessages.StoppedStages | internal/service/run_queue.go:428-488 | in a failed run the same holds of every stage before the one it stops at, whose header is sent once and whose STAGE PASSED line never; no later stage has any event |
| StepCalls.CallsAreComplete | internal/service/run_queue.go:585-642 | the acts of every caller of a complete group, act by act, when it passes, fails, times out or is cancelled |
| StepCalls.StoppedCalls | internal/service/run_queue.go:441-484 | in the group a script stops at each step is announced, called and returned exactly once; a step says once that it timed out, after how many seconds and with which script, or that it was cancelled; only one that passed is said to have |
| StepCalls.ReturnedError | internal/service/run_queue.go:465-482 | the executor returns the error of a single sequential step as it is, and of a parallel group the errors of exactly its failing steps, joined |
| ScriptTheorems.RunsAgree | internal/service/run_queue.go:420-489 | two schedules of one script that have returned agree on nil, on the multiset of errors, on the place they stopped at, and, once quiet, on the multiset of messages |
| ScriptTheorems.BareCancelOnlyFromSequential | internal/service/run_queue.go:465-482 | the executor returns a bare cancel error iff the first failing group is one cancelled sequential step |
| ScriptTheorems.EveryScheduleEnds | internal/service/run_queue.go:420-489 | the length of every schedule is bounded by the script and its outcomes |
| ScriptTheorems.CanReturn | internal/service/run_queue.go:420-489 | every schedule can be continued to one in which the executor returns |
| ScriptTheorems.NoScheduleIsStuck | internal/service/run_queue.go:464-486 | a schedule can be continued exactly when the executor has not returned or a scanner still has a line |
| RunStore.RunSQLiteStore.CreatePipelineRun | internal/store/run_sqlitestore.go:19-40 | adds one row under an id that was never used, queued, with the given pipeline, branch and time and all else empty, or changes nothing and reports the error |
| RunStore.RunSQLiteStore.ReadRunByID | internal/store/run_sqlitestore.go:42-49 | returns a copy of the row, or nothing when the row is missing or the read fails |
| RunStore.RunSQLiteStore.UpdatePipelineRunStartedOn | internal/store/run_sqlitestore.go:51-71 | updates three columns of one row; a missing row is not an error |
| RunStore.RunSQLiteStore.UpdatePipelineRunEndedOn | internal/store/run_sqlitestore.go:73-93 | updates status, artifacts and end time of one row; a missing row is not an error |
| RunStore.RunSQLiteStore.AppendPipelineRunOutput | internal/store/run_sqlitestore.go:95-122 | appends to the output column, null counting as empty; refused on a cancelled context and for a missing row |
| RunStore.WritersCommute | internal/store/run_sqlitestore.go:51-122 | however worker writes, appends and writes to other rows interleave, a row gets the worker's columns as if alone and its output plus the appended texts in order |
| RunStore.InterleavingsAgree | internal/store/run_sqlitestore.go:51-122 | two interleavings of the same worker writes and the same appends leave the same row |
| RunStore.OtherRowsUnchanged | internal/store/run_sqlitestore.go:51-122 | no write adds, drops or touches another row |
| CancelMap.CancelMap.AddCancel | internal/service/cancel_map.go:19-23 | maps the id to its cancel function |
| CancelMap.CancelMap.RemoveCancel | internal/service/cancel_map.go:25-32 | removes the id and nothing else |
| CancelMap.CancelMap.Call | internal/service/cancel_map.go:34-36 | cancels exactly the context of the key; for a missing key it panics and cancels nothing |
| RunQueue.RunQueue.Enqueue | internal/service/run_queue.go:67-74 | takes the run at the end of the queue iff there is room or the worker waits; otherwise the queue is unchanged and the queue-full error is returned |
| RunQueue.RunQueue.StartRun | internal/service/run_queue.go:135-178 | which failure, status write, copy of the row and status message the first half of a run ends with |
| RunQueue.RunQueue.Prepare | internal/service/run_queue.go:180-208 | which setup failure is reported, and all messages sent, also on each of the failures |
| RunQueue.RunQueue.RecordPass | internal/service/run_queue.go:214-241 | banner, passed write, read-back; the row is sent and done signalled iff both succeed |
| RunQueue.RunQueue.ProcessRun | internal/service/run_queue.go:131-295 | result, status writes, table, completion signal, all messages and all status rows, for every combination of outcomes |
| RunQueue.RunQueue.HandleProcessingFailed | internal/service/run_queue.go:774-807 | writes cancelled for a bare cancel error and failed for any other, keeps the run's artifacts, sends the row if it can be read back, then the banner, then one signal |
| RunQueue.RunQueue.RecordFailure | internal/service/run_queue.go:774-807 | the same while the scanners of a failed script go on: the banner stands among their lines |
| RunQueue.RunQueue.ServeNext | internal/service/run_queue.go:76-93 | takes the oldest run, makes it cancellable, and on every combination of outcomes reaches exactly one send on done, after the last status write attempted and the worker's last message; all messages and status rows of the run, passed or failed |
| RunStream.AfterReturn | internal/service/run_queue.go:597-642 | once the executor has returned, only lines of the group it stopped at can follow, and none after a pass |
| RunStream.PassedStream | internal/service/run_queue.go:180-219 | a passed run sends its setup messages, the trace of a schedule that returns nil, the PASS banner, and nothing else |
| RunStream.FailedStream | internal/service/run_queue.go:464-482 | a run whose script fails sends its setup messages, the trace of a schedule, and the FAIL banner somewhere among the late lines of the one group it stopped at |
| RunStream.UnrecordedStream | internal/service/run_queue.go:214-241 | a run whose script passes but whose passed write or read-back fails sends its setup messages, the trace, and both banners |
| RunStream.SetupFailureStream | internal/service/run_queue.go:180-208 | a run that does not get to its script sends its setup messages and the FAIL banner |
| LastBanner.BannerIsLastExactly | internal/service/run_queue.go:585-642 | the FAIL banner is the last message in every execution of a failing script iff the failing steps of the group it stops at deliver no line |
| LastBanner.TimedOutStepOutlivesTheBanner | internal/service/run_queue.go:625-634 | a script of one step that times out with a line still to deliver: some execution sends it after the banner |
| OutputHandler.HandleOutput | internal/service/run_queue.go:116-123 | every message is appended unless the context is cancelled or the append fails, and is broadcast in any case, in order |
| OutputHandler.StoredUpToTheCancel | internal/service/run_queue.go:116-123 | with a cancellation as the only failure the row's output grows by exactly the messages before it |
| OutputHandler.EveryMessageIsBroadcast | internal/service/run_queue.go:116-123 | a client connected throughout receives every message, stored or not |
| RunVerdict.SettleIsWhatLands | internal/service/run_queue.go:163-237 | the attempts that succeed leave in the table what they leave in the one row they address |
| RunVerdict.SetupExactly | internal/service/run_queue.go:135-208 | a run gets to its script iff data, start write, read-back, clone and script file are all had and, unless it runs on this machine, the key and the connection |
| RunVerdict.LocalSetup | internal/service/run_queue.go:242-258 | a run on this machine says nothing of a connection and does not depend on one; its setup messages in full |
| RunVerdict.RemoteSetup | internal/service/run_queue.go:297-324 | a run on an agent first says one of three things about its connection; its setup messages in full |
| RunVerdict.StartColumns | internal/service/run_queue.go:158-171 | working directory and start time are those of the start, if it was written, and otherwise as they were; pipeline, branch, creation time, archive flag and output never change |
| RunVerdict.FinalStatus | internal/service/run_queue.go:221-237 | with the failure write applied, every column of the final row: status, end time and artifacts follow from processRun's result, the stored artifacts after a pass and the queued run's own after a failure |
| RunVerdict.StatusesSent | internal/service/run_queue.go:173-178 | the status clients get the running row if it can be read back, then the passed one, or the cancelled or failed one if it can be read back |
| RunVerdict.UnrecordedFailure | internal/service/run_queue.go:782-790 | the status left behind when the failure write fails too |
| RunVerdict.Verdict | internal/service/run_queue.go:774-790 | passed iff setup, every step, the passed write and its read-back succeed; cancelled iff a sequential step's cancellation stops it; else failed, provided the failure write succeeds |
| RunLifecycle.WritesAreLegal | internal/service/run_queue.go:163-230 | the writes of one worker pass, with any of them failing, only make legal moves from queued on |
| RunLifecycle.EveryRunOfTheSystem | internal/service/run_queue.go:67-98 | from any table the program starts with, conservation, row columns and stored output hold after every sequence of creations, offers, dequeues, writes, messages, appends, cancellations and writes of other queues |
| RunLifecycle.BeginIsPossible | internal/service/run_queue.go:79-89 | for every combination of outcomes a run that has been taken can be served |
| RunLifecycle.OnePlace | internal/service/run_queue.go:67-98 | a row is of another queue or an earlier start, or its run is in exactly one of not offered, rejected, pending, active, finished; pending is bounded; runs are taken in acceptance order; only the active run can be cancelled |
| RunLifecycle.CreatedIsQueued | internal/store/run_sqlitestore.go:19-40 | over every reached system a created run gets a new row, queued, with its pipeline, branch and time, and is still to be offered |
| RunLifecycle.RejectedExactly | internal/service/run_queue.go:67-74 | over every reached system a run can be offered once; it is rejected iff the queue is full and the worker is not waiting, and otherwise the last to be taken |
| RunLifecycle.OldestIsTaken | internal/service/run_queue.go:79 | a waiting worker takes the run that was accepted first |
| RunOrder.WritesAndMessages | internal/service/run_queue.go:158-241 | over every reached system the start write comes before the first message, an end write after all that processRun sends, and the FAIL banner after the last write |
| RunProgress.CanFinish | internal/service/run_queue.go:79-98 | from every reached state in which a run is served, the run can be brought to its end |
| RunLifecycle.StatusMoves | internal/store/run_sqlitestore.go:51-93 | status moves queued to running to one terminal value or queued to failed, passed to failed only after a failed read-back; ended_on is set iff the status is terminal; pipeline, branch, creation time and archive flag never change |
| RunLifecycle.FinishedRow | internal/service/run_queue.go:89-98 | whatever the other runs did, a finished row is what its own setup, steps and writes make of it: directory and start time of the start if it was written, no artifacts, the rest as created |
| RunLifecycle.FinishedVerdict | internal/service/run_queue.go:774-790 | the verdict above is the status of every finished run of the whole system whose failure write did not fail |
| RunLifecycle.StoredOutput | internal/service/run_queue.go:116-123 | if no append failed for another reason than cancellation, the stored output is the text of a prefix of the messages the run itself sends; none of it was received after a cancel; without one all that was received is stored |
| RunCancellation.CancelledRow | internal/service/run_queue.go:635-639 | a row that says cancelled belongs to a run that has been cancelled, before its goroutine received the notice; unless an append failed otherwise, neither the notice nor the FAIL banner is stored |
| RunLifecycle.FinishedOutput | internal/service/run_queue.go:116-123 | the output of a finished, uncancelled run begins with the text of everything sent before the signal, so with the FAIL banner of a failed one |
| RunLifecycle.PassedOutput | internal/service/run_queue.go:116-123 | the output of a passed run is in full the text of its setup messages, of the trace of its script and of the PASS banner |
| OutputText.PassedOutputSays | internal/service/run_queue.go:214-219 | the stored output of a passed run ends with the words of the PASS banner, has the header and PASSED lines of every stage and step by name, and every line their commands delivered |
| OutputText.StoppedRunSays | internal/service/run_queue.go:625-642 | what a stopped run has said when it signals has, for every timed-out step of the group it stops at, its seconds and script, and for every cancelled one that it was |
| OutputText.FailedOutputSays | internal/service/run_queue.go:800-805 | the stored output of a failed, uncancelled run begins with what it had said when it signalled, the last of which are the words of the FAIL banner |
| Messages.DecimalIsRight | internal/service/run_queue.go:627-631 | numbers are printed in decimal notation without leading zeros |
| DoneChannel.AtMostOneRunIsTaken | internal/service/run_queue.go:76-104 | whoever shuts down and when, a queue's worker never takes a second run |
| DoneChannel.StuckAtTheSend | internal/service/run_queue.go:241 | without a shutdown the worker stays at the send that ends its first run |
| DoneChannel.OneRunIsTaken | internal/service/run_queue.go:67-93 | the worker does take a first run and come to the send that ends it, so the two rows above are not empty |
| DoneChannel.ShutdownTwicePanics | internal/service/run_queue.go:93-114 | one Shutdown takes the worker's signal, a second closes the channel, and the worker's own close of it panics |
| DoneChannel.ShutdownEarly | internal/service/run_queue.go:99-114 | a Shutdown of a waiting worker lets it leave, one during a run makes its send panic |
| SSEClientMap.SSEClientMap.AddClient | internal/service/sse_client_map.go:18-22 | registers the client with an empty channel |
| SSEClientMap.SSEClientMap.RemoveClient | internal/service/sse_client_map.go:24-32 | closes the client's channel and forgets it; panics, changing nothing, when it is not there |
| SSEClientMap.SSEClientMap.SendToClients | internal/service/sse_client_map.go:34-40 | every registered client gets the message once, in whatever order the map is walked |
| SSEClientMap.Slice | internal/service/sse_client_map.go:18-40 | with fresh ids a client receives exactly the contiguous slice of broadcasts between its add and its remove, whatever the others do |
| EventMarshal.MarshalTo | internal/handler/sse.go:17-58 | writes the whole text of an event, or a proper beginning of it when a write fails |
| EventMarshal.PrintedText | internal/handler/sse.go:17-58 | the printed text, character by character: nothing without data and comment, else id, data with every line feed beginning another data line, type, reconnection time, comment, and a blank line |
| EventMarshal.StreamRoundTrip | internal/handler/sse.go:17-58 | the standard's parser dispatches one equal message per event with data, in order, and nothing else, only if no data holds a CR, no type or id a line break, no id a NUL; and if so, provided no retry or comment holds a line break |
| EventSurvival.SurvivesExactly | internal/handler/sse.go:17-58 | an event of any kind, read alone, is dispatched as it should be iff its data, type and id can be carried, no line behind its data is a data field, and the lines before the first blank one leave its type and id as they were |
| EventSurvival.StreamSurvivesExactly | internal/handler/sse.go:17-58 | a stream of events of any kind is dispatched as it should be iff each of them meets that condition: none harms another or makes up for it |
| EventSurvival.CommentBecomesData | internal/handler/sse.go:47-51 | a comment with a line break before a data field is read as a message |
| EventMarshal.CarriageReturnIsLost | internal/handler/sse.go:27-32 | an event with a carriage return in its data that does not survive |
| Dotenv.MatchesTheExpression | internal/settings/settings.go:73 | the line test is the regular expression read literally: a character that is no digit, name characters, an equals sign, something |
| Dotenv.PlainValue | internal/settings/settings.go:81-89 | an unquoted value, with white space around it or not, is set as it is |
| Dotenv.QuotedValue | internal/settings/settings.go:81-89 | a quoted value, with white space around the quotes or not, is set to what stands between the quotes |
| Dotenv.SecondEquals | internal/settings/settings.go:82-84 | what follows a second equals sign is dropped |
| Dotenv.IgnoredLine | internal/settings/settings.go:81 | empty lines, comments, lines that begin with a digit and lines without an equals sign set nothing |
| Dotenv.RefusedLine | internal/settings/settings.go:87 | an empty name, or a NUL in the value, sets nothing |
| Dotenv.LineEndsAreAlike | internal/settings/settings.go:78-80 | a carriage return before the line feed is no part of a line |
| Dotenv.LineLimit | internal/settings/settings.go:78-80 | a line is read iff it has at most 65535 characters |
| Dotenv.ReadDotenv | internal/settings/settings.go:72-91 | the environment after the line loop is that of all scanned lines set in order, as far as the operating system accepts them |
| Dotenv.StringWithCharset | internal/security/encryption.go:18-24 | as many characters as asked for, each the charset's at the drawn index |
| Dotenv.File.WriteToDotenv | internal/security/encryption.go:116-125 | appends one entry to the file and keeps what was there |
| Dotenv.File.NewKeys | internal/security/encryption.go:89-114 | takes each key from the environment, or generates one of the right length and writes it down |
| Dotenv.CharsetIsHarmless | internal/security/encryption.go:14 | no charset character is white space, a quote, an equals sign or a line break |
| Dotenv.CharsetExactly | internal/security/encryption.go:14 | the charset is the letters, the digits and five signs |
| Dotenv.RoundTrip | internal/settings/settings.go:72-91 | after appending generated entries to a file that is empty or ends with a line feed and reading it, each name has the value last written for it and every other name what the file gave it before |
| Dotenv.ReadBackExactly | internal/settings/settings.go:72-91 | every key of a length is read back iff no earlier line is too long for the scanner, the unfinished last line is empty or one space, and the completed line fits |
| Dotenv.UnfinishedLineSwallowsTheKey | internal/security/encryption.go:116-125 | a key appended to a file with an unfinished last line, other than an assignment to the same name, is read back iff the name had that very value without it |
| Dotenv.DebugLineSwallowsTheKey | internal/security/encryption.go:116-125 | so behind the unfinished line DEBUG=1 every key under another name is lost, unless the environment holds it anyway |
| Dotenv.KeysSurviveExactly | internal/security/encryption.go:89-114 | all keys a start may use are in the environment of the next one iff the first found both in its own, or its file has no too long line and ends, but for one white space character, with a line feed |
| Dotenv.NextStart | internal/security/encryption.go:89-114 | keys that are there are the only ones the next start can use, and it leaves the file alone |
| PipelineRegistry.PipelineService.InitializeRunQueues | internal/service/pipeline_service.go:107-121 | every stored pipeline gets an idle queue of its own and one worker; if the pipelines cannot be listed nothing changes |
| PipelineRegistry.PipelineService.AddRunQueues | internal/service/pipeline_service.go:586-592 | exactly the listed ids get new, distinct, empty queues; the others keep theirs |
| PipelineRegistry.PipelineService.StartRunQueues | internal/service/pipeline_service.go:594-600 | one more worker for every queue and registration |
| PipelineRegistry.PipelineService.CreatePipeline | internal/service/pipeline_service.go:123-144 | a new row, a new empty queue under its id, one worker on it; a store error changes nothing |
| PipelineRegistry.PipelineService.DeletePipeline | internal/service/pipeline_service.go:288-297 | row and queue go together; a store error changes nothing |
| PipelineRegistry.PipelineService.EnqueueRun | internal/service/pipeline_service.go:631-639 | missing queue, full queue or accepted, and what each does to the one queue concerned |
| PipelineRegistry.AlwaysSettled | internal/service/pipeline_service.go:107-144 | after start-up and any complete creations and deletions the registry's keys are the ids in the store, no queue serves two pipelines, each has one worker |
| PipelineRegistry.LivePipelinesAreServed | internal/service/pipeline_service.go:586-629 | from start-up on, in every interleaving of the calls' steps, no two pipelines share a queue and no queue has two workers; and if only ids already given out are deleted, every registered live pipeline has its queue |
| PipelineRegistry.UnservedExactly | internal/service/pipeline_service.go:288-297 | from start-up on, a registered live pipeline is without a queue iff a deletion begun before its id was given out ended after its registration |
| PipelineRegistry.EarlyDeletionTakesTheQueue | internal/service/pipeline_service.go:288-297 | such an interleaving |
| PipelineRegistry.QueueIsKept | internal/service/pipeline_service.go:602-629 | a live pipeline with no deletion under way keeps the same queue |
| PipelineRegistry.QuietAgreement | internal/service/pipeline_service.go:586-629 | with no call in progress registry and store agree iff no queue has leaked and none is missing |
| PipelineRegistry.LeaksOnlyWhenRegisteredLate | internal/service/pipeline_service.go:602-629 | a queue leaks exactly when it is registered after a complete deletion of its pipeline |
| PipelineRegistry.OrderedCallsAgree | internal/service/pipeline_service.go:123-297 | from start-up on, if every deletion begins after its pipeline has been registered, registry and store agree whenever no call is in progress |
| PipelineRegistry.OverlapLeaks | internal/service/pipeline_service.go:123-297 | a deletion between the two halves of a creation leaves a queue and a worker behind |
| ArtifactNames.RemoveNonAlphabetChars | internal/util/strings.go:5-16 | the letters of the lower-cased text in order, and only a to z |
| ArtifactNames.CollectArtifacts | internal/service/pipeline_service.go:386-397 | one directory per stage with artifacts, in order, all different and without path characters; the first failing download ends it |
| ArtifactNames.NamesDetermine | internal/service/pipeline_service.go:386-393 | a directory name determines its stage's index, whatever the stages are called |
| ArtifactNames.NumberCountsFromOne | internal/service/pipeline_service.go:386-393 | the number in front of a directory counts the stages from one, and the stage's letters follow the underscore |
| ArtifactNames.LettersConcat | internal/util/strings.go:9-13 | the letters of a text are those of its parts, in order |
| ArtifactNames.LetterOf | internal/util/strings.go:5-16 | what becomes of each character of a stage's name |

## Left out

- SSH, SFTP, git, subprocesses, YAML decoding and time: outcome parameters, as described above. The
  operating system's path separator, mkdir command and command separator go with them.
- Executor.ExecutePipelineScript: stands for the agent and the controller copy, and treats a sequential
  step as a group of one; of a command that goes on after its call was given up only the remaining
  output is modelled.
- RunLifecycle.EveryRunOfTheSystem: its last step of a run, the return to the queue, is taken more
  often than in the code (see `DoneChannel`); a run is never deleted from the table, as no request does that, and the pipeline column, which the
  database empties when a pipeline is deleted, stays.
- RunQueue.RunQueue.ServeNext: the code after the receive from `done` is modelled apart, as
  `FinishRun`; that a step is cancelled only when the run is, is part of `RunLifecycle`, not of the
  outcomes given here; an agent whose pipeline has no credential, which the code dereferences unchecked, is not
  modelled.
- Messages.Text: the seconds of a timeout are printed as the step's number; overflow of the source's
  64-bit nanoseconds is not modelled.
- Dotenv.ReadDotenv: a file is a sequence of characters, so bytes that are not UTF-8 and the difference
  between characters and bytes in the scanner's line limit are not modelled; a missing file ends the
  program and a scanner error goes unnoticed, as in the source.
- Dotenv.File.NewKeys: the random source is a parameter; file errors, which end the program, are left out.
- EventStream: works on characters; decoding the stream's UTF-8 is left out, and a reconnection time is
  kept as digits.
- SSEClientMap.SSEClientMap.SendToClients: a send is taken to complete; a client that does not receive
  blocks the source, and `GetClient` ignores the run id it is given, so nothing is claimed about either.
- PipelineRegistry.LivePipelinesAreServed: that a live pipeline has its queue is promised while only ids
  that have been given out are deleted. The service takes any id, but the handler looks the pipeline
  up first (`internal/handler/pipelines.go` 282), so no request sends another; complete calls with any
  id are covered by `AlwaysSettled`. The columns of a pipeline other than its id are left out.
- ArtifactNames.CollectArtifacts: what a stage's own artifacts path does when it is joined to its
  directory, and the downloads themselves.
- The behaviour of Shutdown beyond `DoneChannel`, and enqueueing after it: the source closes channels
  twice and locks a mutex again, so no useful contract holds.
- Schedules and cron jobs: replaced jobs are not removed, and the scheduler is a foreign library.
- Encryption, sessions, roles, handlers, views, migrations and the other stores: library calls and
  plumbing about which only easy statements could be made.
