# Event streams, worker loops and reconcilers of the agent platform

This project models the stateful parts of the platform in Dafny and proves what they
promise. Text is `seq<char>`; JSON is already decoded into datatypes; ids that the code
draws at random come from an oracle that never repeats.

| files | what they model |
|---|---|
| `Text`, `Folds`, `Wire` | trimming in Python and Go; runs of a step over a list; wire and raw events |
| `Emit`, `TurnListener`, `Assemble`, `Fidelity`, `ThinkingProtocol`, `UsageSpans`, `Pipeline` | the streaming emitter with its trackers, the listener and queue that call it chunk by chunk, the two assemblers, and what reaches the consumer |
| `WireLaws`, `ThoughtLaws`, `TextLaws` | what a run says, told from the fields of its raw events: calls, results, messages between threads, thinking, texts |
| `Delivery` | the NDJSON producer, queue, keepalives and reader under every interleaving |
| `CustomTools`, `HitlWindow`, `Selections`, `CustomEmission` | pending custom tools on both sides, the reported window, and their link to the emitter |
| `EvalState`, `EvalCodec`, `EvalWorker`, `EvalTrials`, `EvalRuns`, `EvalHistory`, `EvalVerdicts`, `EvalTallies`, `EvalSends`, `EvalFaults` | eval runs: stored form, the worker's three nested loops and conditional write, whole histories, which trials pass and what their tasks show, and histories with refused writes |
| `Threads`, `SubAgentRun`, `SubAgentLaws` | derived session threads, the sub-agent lifecycle they are derived from, and what a run tells the log |
| `Projection`, `PromptLaws` | the prompt of a stateless turn: thread filter, compaction boundaries, history, and what each event adds to it |
| `ManagedStreams`, `DeepSeekStreams`, `StreamLaws`, `TurnLaws` | Hermes, OpenClaw and DeepSeek streams mapped to session events, and what they show, told from their lines and frames |
| `RuntimeRefresh`, `Paths`, `MemoryMount`, `Wakeups`, `WakeupLaws`, `ThreadPaging` | tenant and key reconciliation, memory files and how their names are cleaned, self-wakeups, paging |

Where the source loops or updates fields, the model has a method or class with the same
loop, proved against a specification function or relation; the lemmas are about those.
The modules named `...Laws`, `EvalVerdicts` and `EvalTallies` say the same functions' results
again, over whole runs and by the kinds and fields of the inputs alone.

The main results:

* `Pipeline.Rebuilt`: for any cut into chunks, any auxiliary events in between and any
  interleaving of the stream, what the model said last is what both assemblers rebuild,
  its turn_end and other repetitions included.
* `Fidelity.DeltaFidelity`: exactly when the deltas of a message concatenate to its text;
  `Fidelity.DroppedSuffix` is the failing family at work.
* `CustomEmission.PendingAsPromised`: exactly when the pending custom calls are the
  promised ones, over every raw list.
* `EvalHistory.MessageOrder`, `WriteBound`, `Ends`, `NoLostUpdate`, `TerminalForever`,
  `Outcome`: every history of an eval run from its creation on;
  `EvalFaults.RefusedWriteEnds` and `SendsAgain`: what refused writes make of it.
* `WireLaws.RunAnswers` and `RunUses`, `ThoughtLaws.RunThoughts`, `Assemble.SeparatesTexts`:
  what any run of the emitter says of calls, results and thoughts, and where texts divide.
* `EvalVerdicts.CompletedExactly`, `FailedExactly`, `EvalTallies.Tallies`: which trials pass,
  which fail and with what error, and what their tasks then show, in every history.
* `SubAgentRun.ThreadsFollowRuns`: derived threads follow any number of interleaved runs;
  `SubAgentLaws.OneResultTold`: a closed run leaves one result, an error exactly if it failed.
* `PromptLaws.ResumedPrompt`: what an event after the question does to the prompt.
* `StreamLaws.HermesTells`, `ClawTells`, `TurnLaws.TurnTells`: what a vendor stream shows and
  how it ends, from its lines or frames.
* `Projection.CompactionForgets`: exactly when a prompt is independent of older events.
* `HitlWindow.DrainsInWindows`, `Delivery.ReaderGetsAll`, `ManagedStreams.DoRun` and
  `DoResponse`, `DeepSeekStreams.DeltasShowOwnMessage`, `RuntimeRefresh.RefreshedExactly`
  and `NoOrphanKeys`, `MemoryMount.Converges`, `Wakeups.BatchesDrain`,
  `ThreadPaging.FollowPages`, `EvalCodec.RoundTrip`.

Where the code and its documentation disagree, or a plausible promise fails, the code is
kept and the exact condition is proved:

* A suffix that was not streamed is dropped when the whole text was said before
  (`Fidelity.DeltaFidelity`).
* `turn_end` after `message_end` adds no text and no thinking, but a second usage span
  exactly if both carry a usage that is not all zero (`UsageSpans.OneSpan`).
* The two pending lists agree exactly when the first five unanswered calls of the log
  carry distinct ids: one side removes duplicates before the window and the other does
  not (`CustomTools.ListsAgree`).
* A declared custom call is still waiting exactly when every result under its id finds a
  declared name, so one that carries two different ids can lose its pending state
  (`CustomEmission.DeclaredCallWaits`, `PendingAsPromised`).
* A stored eval trial keeps its index and reward only if they are not negative (a failed
  trial keeps any reward) (`EvalCodec.RoundTrip`).
* A refused write marks a run failed with the results it had, so a finished run then
  holds open trials unless it has no tasks (`EvalFaults.RefusedWriteEnds`). When that
  write is refused too, a running trial's message is sent again exactly if two of the
  ticks on the same row send (`EvalFaults.SendsAgain`).
* The reader hands on every event of a stream exactly when each line fits the scanner's
  buffer and none calls itself a keepalive (`Delivery.ReaderGetsAll`).
* A later compaction boundary with a blank summary undoes an earlier one
  (`Projection.CompactionForgets`).
* A vendor delta after a completion that already spoke breaks the growing texts unless
  the first delta continues the first completion (`ManagedStreams.Succeeds`).
* A DeepSeek delta shows earlier messages' text too exactly when one of them had streamed
  some (`DeepSeekStreams.DeltaShows`, `DeltasShowOwnMessage`).
* A refresh replies even when deleting an old key failed; it did all it means to exactly
  when no key whose deletion failed is left (`RuntimeRefresh.RefreshedExactly`).
* A membership listed twice leaves a minted key that no tenant uses (`NoOrphanKeys`). Of
  the keys that were live exactly "" and `__legacy__` survive a refresh in which every
  deletion succeeded (`RuntimeRefresh.Reconciled`).
* Edits of a memory's file reach it exactly when its path has a leading slash and nothing
  behind it that joining paths would clean away; those of `//x` and `/./x` do not
  (`MemoryMount.EditsReach`, `LostSlashes`).
* An empty `at` beside a cron expression counts as absent and is then parsed anyway, so
  the cron is refused (`Wakeups.Check`, `EmptyAtRefusesCron`).
* A handled wakeup stays due exactly when it has no expression or its next time is not
  after the tick; an accepted cron that never comes is such a row (`Wakeups.StillDue`,
  `NeverComes`).
* Paging looks at 10000 log events per request and stops short when such a window holds
  less than a page of the thread (`ThreadPaging.FollowPages`).

## Model

| member | source | states |
|---|---|---|
| Text.TrimMonotone | harness/oma_adapter/emit.py:440-452 | stripping is monotone on prefixes, the fact behind streaming deltas |
| Text.StripDelta | harness/oma_adapter/emit.py:87-97 | the delta after what was streamed completes the stripped text, and no longer text means the same text |
| Text.PyStripFixed | internal/eval/agent_output.go:30-39 | text stripped by Python is left alone by Go's TrimSpace |
| Text.Trimmed | harness/oma_adapter/emit.py:440-452 | stripping takes spaces off both ends, all of them and nothing else |
| Text.StrippedChars | internal/eval/agent_output.go:30-39 | which characters count as space: the 25 of Go, and four separators more in Python |
| Emit.Emitter.EmitThinkingStream | harness/oma_adapter/emit.py:231-281 | a thinking part updates the live set and emits start, chunk or end, stray parts repaired or dropped; any other part says nothing |
| Emit.Emitter.EmitThinkingFromMessage | harness/oma_adapter/emit.py:284-349 | closes streams of the kept blocks and announces each thinking block not announced yet |
| Emit.Emitter.EmitClose | harness/oma_adapter/emit.py:109-150 | what message_end and turn_end say, and the trackers they reset |
| Emit.Emitter.ToolNameForCall | harness/oma_adapter/emit.py:370-398 | the name of the latest event that names a call id |
| Emit.Emitter.EmitOne | harness/oma_adapter/emit.py:59-228 | one raw event: the step of the specification whose runs WireLaws, ThoughtLaws, TextLaws and UsageSpans describe by the event's own fields |
| Emit.Emitter.Emit | harness/oma_adapter/emit.py:28-228 | a chunk with any lookup buffer, or none, as the fold of single events from the old trackers |
| Emit.LooseRunIsRun | harness/oma_adapter/emit.py:38-58 | when the buffer ends in the chunk, each event is looked up in exactly the past before it |
| WireLaws.RunUses | harness/oma_adapter/emit.py:151-174 | the announced calls of any run are its tool calls, in order, each with its id, name and input, custom exactly if its name is declared or no built-in |
| WireLaws.RunHandoffs | harness/oma_adapter/emit.py:151-184 | the messages sent to threads are those of the agent calls, in order, with the call's message or task |
| WireLaws.RunAnswers | harness/oma_adapter/emit.py:185-215 | the tool results of any run are, in order, the ids and texts of exactly those results that find no declared name among the calls before them |
| WireLaws.RunReturns | harness/oma_adapter/emit.py:185-227 | the messages received from threads are the results of agent calls, in order, with their text and the agent's name |
| ThoughtLaws.RunChunks | harness/oma_adapter/emit.py:231-281 | the thinking chunks of any run are its thinking deltas that are not empty, in order, under their index |
| ThoughtLaws.RunLive | harness/oma_adapter/emit.py:231-349 | the thinking streams open after any run, as starts, deltas, ends and closing messages tell |
| ThoughtLaws.RunThoughts | harness/oma_adapter/emit.py:284-367 | the announced thoughts of any run are the thinking blocks not announced since the last message_start, in order, each with its text and its signature or redacted data |
| TextLaws.ContentText | harness/oma_adapter/emit.py:440-467 | the text of a message is its own or its text blocks' one after the other, other blocks left out |
| TextLaws.RunSeen | harness/oma_adapter/emit.py:66-150 | a text counts as said exactly if it did before the run or an event of the run makes it known as a whole |
| TextLaws.AssistantTextSaid | harness/oma_adapter/emit.py:104-108 | an assistant text is said whole exactly unless it is empty or was said before |
| TextLaws.StepOrdered | harness/oma_adapter/emit.py:109-228 | what an event adds comes thinking first, then text, then usage; a call or result before its thread message |
| TurnListener.ChunkedIsBatch | harness/oma_adapter/turn.py:586-601 | however the raw events are cut into consecutive chunks, the output and trackers are those of one call |
| TurnListener.BatchSplits | harness/oma_adapter/emit.py:38-58 | a call on a list equals a call on its first part and one on the rest with the first part as lookup past |
| TurnListener.Listener.OnEvent | harness/oma_adapter/turn.py:586-601 | after every event the queue holds, tagged, exactly what one emitter call on the whole buffer says |
| TurnListener.Listener.EmitAux | harness/oma_adapter/turn.py:417-420 | an event put beside the listener goes to the end of the queue and changes nothing else |
| TurnListener.Listener.CloseQueue | harness/oma_adapter/turn.py:699 | the sentinel goes to the end of the queue |
| TurnListener.Listener.DrainEvents | harness/oma_adapter/turn.py:575-584 | drains through the first sentinel, in order, nothing lost |
| TurnListener.LeavesTheRest | harness/oma_adapter/turn.py:575-584 | a drain leaves exactly what stands behind the first sentinel, and nothing when there is none |
| Assemble.CollectSegments | internal/eval/agent_output.go:41-69 | the segments of the specification: runs of agent messages, empty texts skipped; SeparatesTexts and OthersNeverSeparate say where they divide |
| Assemble.AssembleAssistantText | harness/oma_adapter/assistant_text.py:33-61 | the last segment that is not blank, stripped as Python does |
| Assemble.LastAgentOutput | internal/eval/agent_output.go:30-39 | the same with Go's trimming |
| Assemble.ReadsBack | harness/oma_adapter/assistant_text.py:33-61 | after a log that is empty or ends in a break, the assembler returns what was said since, trimmed |
| Assemble.SeparatesTexts | internal/eval/agent_output.go:41-69 | after a tool call, tool result, custom call or user message only what is said from there on is returned, trimmed, or if that is blank what stood before |
| Assemble.OthersNeverSeparate | harness/oma_adapter/assistant_text.py:15-55 | events of any other kind never divide two texts, wherever they stand |
| Fidelity.MessageSaid | harness/oma_adapter/emit.py:66-150 | all a streamed message says: its stripped text, or only the streamed part when the text was said before |
| Fidelity.DeltaFidelity | harness/oma_adapter/emit.py:66-150 | the deltas concatenate to the stripped final text if and only if that text was not said before or was streamed in full |
| Fidelity.EndToEnd | harness/oma_adapter/assistant_text.py:33-61 | then both assemblers recover exactly that text, after any earlier log that is empty or ends in a break |
| Fidelity.TurnEndAddsNoText | harness/oma_adapter/emit.py:109-150 | a turn_end repeating the message adds no text |
| Fidelity.TailSaysNothing | harness/oma_adapter/emit.py:81-150 | after a message, ends and texts that repeat it, thinking updates and unknown events say nothing and break no segment |
| Fidelity.DroppedSuffix | harness/oma_adapter/emit.py:123-126 | a text said whole, then streamed halfway, loses its second half |
| Pipeline.EventsArrive | harness/oma_adapter/main.py:111-193 | a consumer of a finished stream receives exactly the emitted events if and only if each line fits the reader's buffer and none calls itself a keepalive |
| Pipeline.Rebuilt | harness/oma_adapter/turn.py:575-601 | for any chunking, any auxiliary events queued in between and any interleaving, the consumer rebuilds the final text of a turn's last message, whatever repeats it afterwards, when the log before it is empty or ends in a break |
| ThinkingProtocol.StreamsWellFormed | harness/oma_adapter/emit.py:231-281 | stream events open and close in step with the live set, exactly unless some event resets trackers while a stream is open |
| ThinkingProtocol.ClosedMessagesWellFormed | harness/oma_adapter/emit.py:109-150 | messages each closed by an assistant end with a block list emit (start chunk* end)* per id and leave nothing open |
| ThinkingProtocol.OneThoughtPerBlock | harness/oma_adapter/emit.py:284-349 | each thinking block of the final message is announced exactly once, and nothing before the next message_start, turn_ends included, announces it again |
| UsageSpans.RunSpans | harness/oma_adapter/emit.py:109-150 | one usage span for every closing event that carries a usage which is not all zero, in order, and no other |
| UsageSpans.OneSpan | harness/oma_adapter/emit.py:143-150 | a message and its turn leave exactly one span if and only if exactly one of the two ends carries one |
| CustomTools.TablesAgree | internal/harness/pending_custom_tools.go:13-51 | both sides call the same names built in |
| CustomTools.BuiltinNames | harness/oma_adapter/custom_tools.py:19-83 | exactly eighteen names and what starts with mcp_ or call_agent_ are built in, on both sides |
| CustomTools.WaitingTells | internal/harness/pending_custom_tools.go:53-99 | waiting are, in order, the custom calls and calls of tools not built in that no result anywhere in the log answers; the first five are shown |
| CustomTools.HarnessPending | harness/oma_adapter/custom_tools.py:86-117 | the first five of the custom calls, duplicates removed, that nothing answered |
| CustomTools.ServerPending | internal/harness/pending_custom_tools.go:53-99 | the first five of the custom calls that nothing answered |
| CustomTools.ListsAgree | internal/harness/pending_custom_tools.go:53-99 | both lists are equal if and only if the first five unanswered calls of the log carry distinct ids, in particular if all do |
| HitlWindow.SortStrings | internal/harness/pending_custom_tools.go:101-115 | an ordered permutation |
| HitlWindow.OneOrder | internal/harness/pending_custom_tools.go:101-115 | there is only one ordered arrangement of the ids |
| HitlWindow.LexicalOrder | internal/harness/pending_custom_tools.go:101-115 | the order of the ids is that of their first differing characters, prefixes first |
| HitlWindow.BuildIdleStopReason | internal/harness/pending_custom_tools.go:101-115 | end_turn exactly when nothing is pending, else the ordered pending ids |
| HitlWindow.IndexToolUses | internal/harness/pending_tool_calls.go:35-60 | the map holds for every id its latest announcement |
| HitlWindow.BuildPendingToolCalls | internal/harness/pending_tool_calls.go:16-33 | the resolvable ids with their calls, in order |
| HitlWindow.PendingResolves | internal/harness/pending_tool_calls.go:16-60 | every pending id resolves, in the same order |
| HitlWindow.CallOf | internal/harness/pending_tool_calls.go:35-60 | an id leads to the name and input of the call last announced under it, and to nothing if there was none |
| HitlWindow.Drains | internal/harness/pending_custom_tools.go:53-99 | answering k windows leaves exactly the waiting calls from position 5k on |
| HitlWindow.DrainsInWindows | internal/harness/pending_custom_tools.go:53-115 | the window is empty exactly from round ⌈n/5⌉ on, and no id is reported in two rounds |
| CustomEmission.PendingAfterEmission | harness/oma_adapter/emit.py:151-215 | for every raw list the pending list over the emitted events is the window of the custom calls no surfaced result answers |
| CustomEmission.OrderlyPending | harness/oma_adapter/emit.py:370-398 | with distinct findable ids a call is answered if and only if it is not declared custom and has a result |
| CustomEmission.DeclaredCallWaits | harness/oma_adapter/emit.py:370-398 | a declared custom call is still waiting if and only if every result under its id finds a declared name |
| CustomEmission.PendingAsPromised | harness/oma_adapter/emit.py:186-215 | the pending list is the first five promised calls (declared custom, or not built in and without result) if and only if every custom call before the fifth promised one is waiting exactly when it is promised, told by the results under its id and the names they find |
| CustomEmission.WaitingAsPromised | harness/oma_adapter/custom_tools.py:64-117 | the same for all waiting calls, not only the reported ones |
| CustomEmission.OrderlyKeepsPromise | harness/oma_adapter/emit.py:370-398 | lists whose ids are distinct and findable keep the promise |
| CustomEmission.LostDeclaredCall | harness/oma_adapter/emit.py:370-398 | the failing input: a declared call carrying two ids is promised, yet its stub's result leaves the pending list empty |
| Delivery.Safety | harness/oma_adapter/main.py:111-193 | in every reachable state the lines sent and the queue are the produced events in order, and no failure line comes before the end |
| Delivery.Delivered | harness/oma_adapter/main.py:146-193 | an ended stream carried every produced event once and in order, then one failure line exactly if the producer raised |
| Delivery.GeneratorEnds | harness/oma_adapter/main.py:146-158 | the generator is never stuck and, once the producer is done, every step brings its end nearer |
| Delivery.StepsTell | harness/oma_adapter/main.py:111-193 | in every reachable state the produced events are those put, the task ended as the producer did, and there is one keepalive line for every wait that timed out while it ran |
| Delivery.ReadStream | internal/harness/client.go:276-297 | hands on every line but blanks and keepalives up to the first that does not fit or is refused; it ends with the handler's error exactly if the handler refuses any of them, else with the scanner's, if there is one |
| Delivery.ReaderGetsAll | internal/harness/client.go:276-297 | the reader hands on exactly the produced events and the failure if and only if each of their lines fits and none calls itself a keepalive; it never hands on anything else |
| EvalCodec.ParseRunState | internal/eval/worker.go:328-404 | the state a stored document parses to, or none |
| EvalCodec.MarshalRunState | internal/eval/worker.go:406-463 | the stored document of a state |
| EvalCodec.RoundTrip | internal/eval/worker.go:328-463 | a run state survives being stored if and only if it is in normal form |
| EvalCodec.ParseMarshalParse | internal/eval/worker.go:328-463 | a parsed document parses to the same after being stored if and only if its dropped-when-zero numbers are not negative |
| EvalCodec.CutTowardZero | internal/eval/worker.go:474-492 | a stored number is cut toward zero, and anything else counts as 0 |
| EvalCodec.TrialKeys | internal/eval/worker.go:378-395 | every key of a stored trial lands in its own field, absent ones as empty or 0 |
| EvalCodec.SpecKeys | internal/eval/worker.go:353-376 | the same for a task's specification and rubric |
| EvalCodec.TaskKeys | internal/eval/worker.go:341-399 | the same for a task |
| EvalCodec.RunKeys | internal/eval/worker.go:328-404 | the same for a run; a missing or zero task count becomes the number of tasks read |
| EvalCodec.ListKeys | internal/eval/worker.go:353-376 | of a list the items that are text are kept, in order, and blank criteria dropped; what is no list is empty |
| EvalCodec.DocsKeys | internal/eval/worker.go:340-399 | of the stored tasks and trials exactly those that are no objects are dropped |
| EvalWorker.Worker.AdvanceTrialAt | internal/eval/worker.go:170-277 | one trial's step, unless it stops out of range: the specification that StepFate (pass, failure, error, reward) and MessageOrder (what was sent) describe |
| EvalWorker.Worker.AdvanceTaskAt | internal/eval/worker.go:116-168 | the trials in order, then status, counts and first error of the task |
| EvalWorker.Worker.AdvanceTasksAt | internal/eval/worker.go:63-72 | open tasks in order, others skipped |
| EvalWorker.Worker.AdvanceRun | internal/eval/worker.go:33-114 | the row, the sessions, the number of writes and the error after one run's pass, for every answer to its writes |
| EvalWorker.Worker.Save | internal/eval/worker.go:86-113 | the conditional write: finished runs always, others only after progress; a refused write leaves the row and is the error |
| EvalWorker.Worker.TickRun | internal/eval/worker.go:42-46 | a run that fails to advance is marked failed with the results it had, if that can be stored |
| EvalTrials.TrialKeeps | internal/eval/worker.go:170-277 | one step keeps the message order of its trial and leaves all other sessions alone |
| EvalTrials.TrialProgress | internal/eval/worker.go:170-277 | a step progresses exactly when fewer steps lie ahead of the trial, changes nothing otherwise, never touches terminal trials |
| EvalTrials.AheadCounts | internal/eval/worker.go:135-166 | nothing lies ahead of a task exactly when its trials are all counted passed or failed |
| EvalRuns.TaskProgress | internal/eval/worker.go:116-168 | a task progresses exactly when fewer steps lie ahead; otherwise reassigning status and counts changes nothing |
| EvalRuns.RunDone | internal/eval/worker.go:74-86 | completed and failed tasks are all tasks exactly when nothing lies ahead of the run |
| EvalHistory.BuildInitialEvalResults | internal/api/eval_runs.go:224-252 | the document a run is created with |
| EvalHistory.Created | internal/api/eval_runs.go:224-252 | a created run is consistent and has one step per message and one to finish ahead of every trial |
| EvalHistory.TickKeeps | internal/eval/worker.go:51-114 | one tick keeps the row consistent, writes only with fewer writes left, and a skipped write leaves memory equal to the row |
| EvalHistory.MessageOrder | internal/eval/worker.go:170-277 | in every reachable state a running trial at index k was sent exactly messages 0..k of its request, a completed one all of them, a failed one a prefix, in a session of its own |
| EvalHistory.WriteBound | internal/eval/worker.go:86-113 | a run is written at most once per planned step and is finished exactly when none is left |
| EvalHistory.NoLostUpdate | internal/eval/worker.go:104-113 | in every reachable state a skipped write means memory equals the stored state |
| EvalHistory.Outcome | internal/eval/worker.go:86-103 | a finished run, none of whose writes was refused, has only terminal trials; score and status follow from the tasks all of whose trials completed |
| EvalHistory.TerminalForever | internal/eval/worker.go:116-133 | a terminal trial is the same in every later state |
| EvalHistory.Ends | internal/eval/worker.go:33-114 | a run is finished once it saw as many idle ticks as it had steps planned, whatever failed and however many other ticks lie between |
| EvalVerdicts.StepFate | internal/eval/worker.go:170-277 | a trial's step completes it, with reward 1, exactly if it was sent all its messages, is idle and in time, and has no rubric or a satisfied judge; and fails it exactly on a create, send, time-out or judge error or an unsatisfied judge, with that error or feedback |
| EvalVerdicts.TickTrial | internal/eval/worker.go:51-114 | in any consistent state a tick makes of every trial what that trial's own step makes of it |
| EvalVerdicts.CompletedExactly | internal/eval/worker.go:252-276 | in every reachable state a trial is completed, and then with reward 1, exactly if an earlier tick found it passing |
| EvalVerdicts.FailedExactly | internal/eval/worker.go:170-277 | in every reachable state it is failed with an error exactly if an earlier tick failed it with that error |
| EvalVerdicts.RequestJudged | internal/eval/outcome.go:17-28 | a created task is judged exactly if its request's rubric has a description |
| EvalTallies.Tallies | internal/eval/worker.go:116-168 | in every reachable state a task shows how many trials it has and how many completed, is completed when all did, failed when all ended and one failed, and then shows the first error of any |
| EvalTallies.TasksAsAsked | internal/api/eval_runs.go:224-252 | in every reachable state there is a task for every request, with its id, messages, time-out and number of trials, at least one |
| EvalTallies.RunningSince | internal/eval/worker.go:188-212 | in every reachable state a running trial's start is the time of the tick that found it pending |
| EvalTallies.UnreadableRow | internal/eval/worker.go:42-62 | a row whose results are no JSON object is marked failed and keeps them |
| EvalFaults.Undisturbed | internal/eval/worker.go:42-113 | as long as no write was refused the history is the one without refusals, whatever happens later |
| EvalFaults.RefusedWriteEnds | internal/eval/worker.go:42-46 | the first refused write marks the run failed with its earlier results, for good; it then holds an open trial if and only if it has tasks |
| EvalSends.PassAdds | internal/eval/worker.go:63-72 | in any world a pass over the tasks sends a running trial's session its next message, exactly if that trial's step sends, and nothing else |
| EvalFaults.SendsAgain | internal/eval/worker.go:42-113 | after any number of ticks whose writes were all lost the row is as it was, and with the next tick a running trial's session got its next message once for every tick that sends; so it repeats if and only if two of them do |
| Threads.CollectThreads | internal/api/session_threads.go:27-78 | the threads after all events of the log |
| Threads.OrderSubs | internal/api/session_threads.go:80-92 | the other threads, each once, by creation time, from a map taken in any order |
| Threads.DeriveSessionThreads | internal/api/session_threads.go:22-103 | the primary thread first, the others each once by creation time, archived ones only on request |
| Threads.OnlyOwnEvents | internal/api/session_threads.go:37-78 | a thread depends only on the lifecycle events that name it |
| Threads.UniqueIds | internal/api/session_threads.go:80-102 | listed ids are unique |
| Threads.ThreadTells | internal/api/session_threads.go:37-78 | there is a thread under an id exactly if one was created; its agent, parent and time are those of the first creation, its status and archival those of what happened to it last since |
| Threads.PrimaryTells | internal/api/session_threads.go:27-78 | the primary thread is the session's own from the start, with the status of what happened to it last |
| Threads.ListedExactly | internal/api/session_threads.go:93-102 | a listing leaves out exactly the archived threads, and none on request |
| SubAgentRun.Runtime.RunTurns | harness/oma_adapter/workflow_sub_agent_runner.py:277-340 | the sub-turn and its repairs: events emitted, last text, structured output or error |
| SubAgentRun.Runtime.EmitClosing | harness/oma_adapter/workflow_sub_agent_runner.py:341-364 | the events of the finally block up to one the sink refuses; ClosingTells says which they are |
| SubAgentRun.Runtime.Execute | harness/oma_adapter/workflow_sub_agent_runner.py:198-377 | everything a run emits on every path, with any sink or none, and its result or the error it raises |
| SubAgentRun.StopsEarly | harness/oma_adapter/workflow_sub_agent_runner.py:75-77 | with a sink a run emits a prefix of its events, all of them if and only if none was refused |
| SubAgentRun.AttemptsBounded | harness/oma_adapter/workflow_sub_agent_runner.py:302-337 | at most one sub-turn more than the allowed retries, and structured output is what the last text yields |
| SubAgentRun.ThreadsFollowRuns | internal/api/session_threads.go:37-78 | in any interleaving of runs, stopped ones included, a thread exists from its first event on, is running exactly between started and completed, and idle after |
| SubAgentRun.OneResultEach | harness/oma_adapter/workflow_sub_agent_runner.py:115-164 | whatever other runs do, a run leaves its tool use and then at most one result under its tool id, exactly one once it closed; OneResultTold says which |
| SubAgentLaws.FailsExactly | harness/oma_adapter/workflow_sub_agent_runner.py:277-340 | a run fails exactly if a sub-turn it took raised, or a schema was asked for and no text of any has valid output |
| SubAgentLaws.OpeningTells | harness/oma_adapter/workflow_sub_agent_runner.py:80-138 | the four opening events, the tool named after the agent with all other characters replaced |
| SubAgentLaws.ClosingTells | harness/oma_adapter/workflow_sub_agent_runner.py:141-164 | the result, completed and idle events: the last text cut at 500 characters, else the error, else a fixed wording, marked an error exactly if there was one |
| SubAgentLaws.RunTells | harness/oma_adapter/workflow_sub_agent_runner.py:277-364 | between opening and closing come the events of exactly the sub-turns taken, in order |
| SubAgentLaws.OneResultTold | harness/oma_adapter/workflow_sub_agent_runner.py:115-164 | once a run closed, the primary thread holds its call and one result for it, an error exactly if it failed, whatever other runs did meanwhile |
| SubAgentLaws.RefusalTells | harness/oma_adapter/workflow_sub_agent_runner.py:75-77 | without a sink only the sub-turns' events are emitted; with one all up to its first refusal, with whose error the run ends |
| SubAgentLaws.Concludes | harness/oma_adapter/workflow_sub_agent_runner.py:362-377 | the caller gets the error, a warning when there is neither text nor output, or both |
| Projection.LatestUserText | harness/oma_adapter/project.py:59-78 | the text of the last user message with text |
| Projection.LatestCompactionBoundary | harness/oma_adapter/compaction.py:57-67 | the last boundary with a summary list |
| Projection.HistorySlice | harness/oma_adapter/project.py:106-135 | the events after the latest boundary with a summary that is not blank, else all |
| Projection.EventsToConversationText | harness/oma_adapter/compaction.py:75-122 | one line for every model event with text |
| Projection.ProjectOmaEvents | harness/oma_adapter/project.py:157-202 | the prompt of the specification, a function of the thread's own events; QuestionPrompt, AnswerAppended and ResumedPrompt say what each of them adds |
| Projection.OtherThreadsInvisible | harness/oma_adapter/project.py:33-56 | events of other threads anywhere in the log leave the prompt unchanged |
| Projection.CompactionForgets | harness/oma_adapter/project.py:106-135 | a prompt is independent of everything before a suffix if and only if the latest boundary before its last user message has a summary that is not blank |
| Projection.LogForgets | harness/oma_adapter/project.py:157-202 | for whole logs with other threads interleaved: earlier log leaves no trace if and only if the thread is sealed in what follows, or its id has surrounding space and so no events |
| Projection.BlankBoundaryReopens | harness/oma_adapter/project.py:106-118 | a later boundary with a blank summary brings older events back |
| Projection.BoundaryWaits | harness/oma_adapter/project.py:181-190 | a boundary after the last user message changes nothing yet |
| Projection.BoundaryActsNextTurn | harness/oma_adapter/project.py:181-202 | from the next user message on only its summary is left |
| PromptLaws.ConversationNext | harness/oma_adapter/compaction.py:75-122 | an event with a role and text adds one line, labelled by its kind, below the earlier ones; any other adds none |
| PromptLaws.QuestionPrompt | harness/oma_adapter/project.py:157-202 | the prompt of a user message with text: the summary, the history of what came before, then its text |
| PromptLaws.AnswerAppended | harness/oma_adapter/project.py:138-154 | an event after the question adds its line to the end of the history and changes nothing else |
| PromptLaws.ResumedPrompt | harness/oma_adapter/project.py:138-202 | it changes the prompt exactly if it is an agent message, a call or a result with text, or a user message that asks anew |
| PromptLaws.AllHistory | harness/oma_adapter/project.py:106-135 | without a boundary there is no summary and all is history |
| PromptLaws.BoundaryHistory | harness/oma_adapter/project.py:106-135 | after the latest boundary with a summary list: its summary and what follows, or everything if the summary is blank |
| PromptLaws.ThreadOf | harness/oma_adapter/project.py:33-56 | an event belongs to the thread it names, surrounding space left out, or to the primary one |
| ManagedStreams.DoRun | internal/harness/hermes_client.go:247-390 | callback or slice receive the stream's events, or all up to the one refused, and the matching end, a read error on record after the loop included; a stream that succeeds is well said (see Succeeds) |
| ManagedStreams.DoResponse | internal/harness/openclaw_client.go:226-391 | the same for OpenClaw, with the preview of the function call added last |
| ManagedStreams.AssembleOutputText | internal/harness/openclaw_client.go:397-410 | the output texts of the message items, joined |
| ManagedStreams.Succeeds | internal/harness/hermes_client.go:320-390 | well said: at least one message, one usage span and that last, texts ending in all deltas, and a growing chain exactly unless a completion spoke first with a text the first delta does not continue |
| ManagedStreams.DeltaAfterCompletion | internal/harness/openclaw_client.go:300-331 | the failing input on both wires: a completion that speaks, then a delta, say two texts one after the other |
| ManagedStreams.CallbackAndCollect | internal/harness/hermes_client.go:247-258 | callback and collected events coincide up to the first refusal |
| StreamLaws.HermesTells | internal/harness/hermes_client.go:247-390 | for any lines: the tool events and texts are those of the lines before the first that ends the stream, in order; it ends with their last usage as the one span and that last, or with the failed run's reason, else text, else a fixed wording, or with the read error |
| StreamLaws.ClawTells | internal/harness/openclaw_client.go:226-391 | the same for OpenClaw lines; a call done without arguments shows those it was last added with |
| DeepSeekStreams.CollectTurn | internal/harness/deepseek_client.go:194-366 | events, usage and error of a collected turn on every frame stream |
| DeepSeekStreams.RunTurnStream | internal/harness/deepseek_client.go:371-568 | the same events and error handed to a callback, or up to the one it refuses |
| DeepSeekStreams.LoopsAgree | internal/harness/deepseek_client.go:211-568 | both loops produce the same events and error; a turn without error says something; no usage span is emitted |
| DeepSeekStreams.DeltaShows | internal/harness/deepseek_client.go:258-275 | a delta shows the text of its own message if and only if no earlier message had streamed any; otherwise that text comes first |
| DeepSeekStreams.DeltasShowOwnMessage | internal/harness/deepseek_client.go:258-275 | all deltas of a stream do if and only if none follows the end of a message that follows a delta |
| DeepSeekStreams.SecondMessageRepeatsFirst | internal/harness/deepseek_client.go:258-275 | the failing input: two streamed messages, the second's delta repeating the first |
| TurnLaws.TurnTells | internal/harness/deepseek_client.go:194-366 | for any frames: the tools are those of the session's events before the turn ends or the stream breaks, in order; a chunk shows all chunks so far, a message its whole text, and a turn that ends without any one empty text; usage is the last reported, the error that of the last frame or of reading |
| RuntimeRefresh.Repositories.DeleteByID | internal/store/api_keys.go:172-183 | deletes the key but for the two reserved ids, or fails and deletes nothing |
| RuntimeRefresh.Repositories.Reconcile | internal/api/runtime_daemon.go:298-378 | revoke, rotate, add: the resulting bindings and keys, given which deletions went through; revoked tenants exact; other keys spared even when a call fails |
| RuntimeRefresh.Repositories.Refresh | internal/api/runtime_daemon.go:275-411 | also the reply, given even when deletions failed: every member with the key now bound, added and revoked as the two set differences |
| RuntimeRefresh.ReconciledBut | internal/api/runtime_daemon.go:291-378 | whatever deletions failed: live tenants are the memberships, each with a fresh key of its own, live keys gone exactly if deleted, all others untouched |
| RuntimeRefresh.Reconciled | internal/api/runtime_daemon.go:291-378 | when all deletions succeeded, a key that was live is left if and only if its id is reserved |
| RuntimeRefresh.RefreshedExactly | internal/api/runtime_daemon.go:331-352 | a refresh that replied did all it means to if and only if no key is left whose deletion failed; bindings are right anyway and surplus keys are among those |
| RuntimeRefresh.NoOrphanKeys | internal/api/runtime_daemon.go:336-378 | no minted key is left without a tenant if and only if no membership is listed twice, whatever deletions failed |
| RuntimeRefresh.SecondChangesNothing | internal/api/runtime_daemon.go:312-328 | a second refresh adds and revokes nothing |
| RuntimeRefresh.ReplyTells | internal/api/runtime_daemon.go:379-411 | the reply shows every membership in its place, named after its tenant when it has no name, with the fresh key its tenant is now bound to; added are the tenants that were not live |
| Paths.WalkedClean | internal/harness/memory_materialize.go:36 | joining a name to the mount gives a clean name, the same one exactly if it was clean |
| Paths.WalkCancels | internal/harness/memory_materialize.go:36 | joining cancels a name and the .. behind it, an empty segment and a ., wherever they stand, and leaves the mount when it goes up from it |
| MemoryMount.Mount.Materialize | internal/harness/memory_materialize.go:15-60 | existing files stay, new files hold what the store has under the cleaned name, and without error every memory with a place in the mount has a file or a directory there |
| MemoryMount.Mount.SyncMemoryTree | internal/harness/memory_sync.go:92-145 | every file that is not blank replaces the memory of its path; all others stay; it fails exactly if one is refused |
| MemoryMount.SyncStores | internal/harness/memory_sync.go:65-90 | stores mounted read-only are never written, a writable one ends up as the last of its mounts |
| MemoryMount.StoreFollowsDisk | internal/harness/memory_sync.go:112-145 | after a sync the store agrees with the disk at every file that is not blank and keeps what has no file |
| MemoryMount.Converges | internal/harness/memory_sync.go:92-145 | over any number of rounds disk and store change only in the first, and if all paths are plain what the store shows not even then |
| MemoryMount.EditsReach | internal/harness/memory_materialize.go:32-36 | edits of a memory's file reach the memory if and only if its path is plain: a leading slash and no empty, . or .. segment behind it |
| MemoryMount.LeadsBack | internal/harness/memory_materialize.go:32-36 | a path is plain if and only if the file it leads to is written back to that very path |
| MemoryMount.LostSlashes | internal/api/memory_stores.go:139-148 | accepted paths with a leading slash whose edits are lost |
| MemoryMount.KeptWhere | internal/store/memory_blob_helpers.go:15-36 | a synced memory holds its file's text, in a blob exactly when there are blobs and the text is large |
| MemoryMount.UnreadableBlobs | internal/harness/memory_materialize.go:38-50 | a new file holds a memory's text, and never that of a blob where there is no blob store |
| Wakeups.Check | internal/api/wakeup.go:104-198 | exactly the accepted requests, and the kind, time and expression they mean |
| Wakeups.EmptyAtRefusesCron | internal/api/wakeup.go:160-168 | the failing input: an accepted cron is refused beside an empty at |
| Wakeups.ListDue | internal/store/wakeups.go:157-205 | at most the limit of due rows, each once, the earliest first |
| Wakeups.Wakeups.ScheduleWakeup | internal/api/wakeup.go:104-241 | adds exactly the meant row and announces it when admitted; fails otherwise only if a call failed, and leaves the row if that was the announcement; no session passes the cap |
| Wakeups.Wakeups.CancelWakeup | internal/api/wakeup.go:243-255 | removes exactly that row of that session |
| Wakeups.Wakeups.HandleRow | internal/api/wakeup_worker.go:41-62 | one listed row: fired, then removed or rescheduled; on an error the table is as before |
| Wakeups.Wakeups.Tick | internal/api/wakeup_worker.go:26-66 | keeps that whatever left the table was fired or cancelled; without error each listed row is handled once and others are untouched; when listing fails nothing happens |
| Wakeups.StillDue | internal/api/wakeup_worker.go:46-60 | a handled row is still due if and only if it is a cron row without expression or whose next time is not after the tick |
| Wakeups.NeverComes | internal/api/wakeup.go:180-198 | the failing input: an accepted cron that never comes again is due at once and stays so |
| Wakeups.BacklogShrinks | internal/api/wakeup_worker.go:26-66 | one tick takes 50 off a backlog, or all of it, plus exactly the listed rows that stay due |
| Wakeups.RequestsEdit | internal/api/wakeup.go:104-255 | a request scheduled between ticks is such an edit if and only if it is due later and looks ahead; cancelling always is |
| Wakeups.BatchesDrain | internal/api/wakeup_worker.go:26-66 | n ticks take 50 n off a backlog, whatever else comes due, is cancelled or is scheduled for later meanwhile, when the cron rows at hand look ahead |
| WakeupLaws.AcceptedWhen | internal/api/wakeup.go:104-198 | a request of one kind is accepted from a session that is not archived exactly with a prompt that is not blank, fewer than 20 pending, and a delay within bounds, a timestamp that parses, or an expression of allowed length that parses |
| WakeupLaws.OneKind | internal/api/wakeup.go:128-142 | every accepted request is of exactly those kinds |
| WakeupLaws.WakesAsAsked | internal/api/wakeup.go:150-241 | an accepted request is due from the time it asked for on and not before, and firing it sends its session the trimmed prompt unless the session is gone or archived by then |
| WakeupLaws.FiredTells | internal/api/wakeup.go:286-325 | firing rows sends, in order, the prompts of exactly those whose sessions are there |
| WakeupLaws.FiredOnce | internal/api/wakeup_worker.go:41-62 | after a tick without error a one-shot row is gone and a recurring one has its next time, or is gone when its expression does not parse |
| ThreadPaging.HandleSessionThreadEvents | internal/api/session_threads_handlers.go:85-135 | the page of a thread after a cursor |
| ThreadPaging.OwnExactly | internal/api/session_threads_handlers.go:226-249 | a thread's events are, in order, those that name it, and for the primary thread those that name none |
| ThreadPaging.CursorSkips | internal/store/events.go:109-157 | a cursor skips exactly the log up to its event |
| ThreadPaging.PageLeads | internal/api/session_threads_handlers.go:101-133 | a page leads to the next full page or was the last |
| ThreadPaging.FollowPages | internal/api/session_threads_handlers.go:85-135 | following next_page yields the thread's events once and in order, from the start; all of them if and only if no window starves |
| ThreadPaging.SmallLogs | internal/api/session_threads_handlers.go:106-112 | sessions of at most 10000 events never starve |
| ThreadPaging.CrowdedOut | internal/api/session_threads_handlers.go:106-112 | a window full of other threads' events hides what follows |

## Left out

- `turn.py` beyond the listener, the drainer and the queue: session creation, tool and memory set-up, and the second emission path after a session without subscription.
- `emit.py:137-140`: this branch cannot be reached, and neither can the second search of `project.py:125-133`; boundaries are told apart by position.
- The order in which Python walks a set of open thinking streams is a parameter: any arrangement of the set.
- The race by which a timed-out queue read could lose an item in old Python versions: a timeout never takes an item here.
- JSON and SQL: documents and rows start out decoded; which lines fit the scanner's buffer is a parameter of `Delivery`; for the vendor streams a line that does not fit is one of the read errors.
- Integer width: sequence numbers, counts and times stay far below 2^63 and are unbounded here; text is counted in characters where Go counts bytes.
- EvalWorker.Worker.AdvanceTrialAt: excludes exactly the step that sends the message after an index under -1, where the source indexes out of range and the process stops.
- EvalWorker.Worker.AdvanceRun: one run; a worker tick calls it for every active run, and runs share nothing but the session ids drawn. Deletion and cancellation of runs, and a crash between sending a message and storing the row, are not modelled.
- EvalWorker.Worker.Save: a write that fails makes the worker mark the run failed with its earlier results, so the results of EvalHistory hold up to the first such write and EvalFaults says what follows; once even the failure cannot be stored `SendsAgain` says what running trials' sessions get; a pending trial then starts anew, in another session, in every such tick.
- The judge is a verdict per trial: satisfied, not satisfied with feedback, or failed; timeouts are an error text per trial and tick.
- Threads.DeriveSessionThreads: order among threads created at the same time is any, as in the source; the wire form of a thread is not modelled.
- SubAgentRun.Runtime.Execute: a refused event leaves nothing behind; without a sink the sub-turns' own events are taken as they come.
- Projection.ProjectOmaEvents: events are objects; entries that are not would raise in the source.
- Token estimates and the model call that writes a summary.
- ManagedStreams.DoRun: starting the run and HTTP errors; conversion of vendor usage blocks; message ids.
- DeepSeekStreams.CollectTurn: a cancelled context is one of the ways reading ends.
- RuntimeRefresh.Repositories.Refresh: only one runtime; plaintext keys are stood for by their ids, and the authorised-rooms notification is left out.
- MemoryMount.Mount.Materialize: where a path leads that climbs out of the mount is a parameter, as is whether writing works there; symbolic links, permissions and empty directories are not modelled.
- Wakeups.Wakeups.ScheduleWakeup: ids and timestamps other than the firing time, and delivery of the span event to subscribers.
- Wakeups.Wakeups.Tick: works on tables reached by scheduling, where every cron row parses; `HandleRow` has the other branch.
- ThreadPaging.FollowPages: the log does not grow between pages, and the thread is found within the first 10000 events.
- HTTP routing, authentication, vaults, web pages, proxies, stores, sandboxes and language-model calls.
