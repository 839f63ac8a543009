# A verified model of the agent runtime

This project models, in Dafny, the stateful cores of an agent runtime and proves what they promise over every run.

* **The agent loop and its budgets.** A run alternates between injecting messages, passing a budget gate, streaming an
  answer from a model provider and executing the answer's tool calls, one at a time or concurrently. It writes an event
  log and keeps the transcript in three places. The outside world (model answers, tool outcomes, hooks, aborts, clock
  readings, messages that users queue) is a script with one entry a turn; every theorem holds for every script.
* **The client/server protocol.** A frame decoder that is fed arbitrary chunks, the life of a client connection, request
  correlation, the subscription handshake, and the session router behind the server. A stretch of code between two
  suspensions is one atomic step, and runs interleave the steps arbitrarily. Client and server are joined by one FIFO
  channel each way.
* **Publication of model catalogs**, a small concurrent protocol in which newer refreshes supersede older ones, and
  **the JSON check**, whose cycle detection turns out to be redundant.

Each protocol is given twice: as an object whose methods change its fields the way the program does, and as functions on
its state that specify those methods exactly. The invariants are proved of the functions, over all runs; the objects keep
them, each method promises what follows for its caller, and an `AnyRun` drives the objects through whole runs.

| file | what it models |
|---|---|
| `Framing.dfy` | length-prefixed frames: encoder, incremental decoder, and a one-pass parser as the reference |
| `RunBudget.dfy` | a run's budget controller, the composite of two, and a family of runs under one ledger |
| `RepeatedToolErrors.dfy` | the tracker of identical failed tool calls against a plain multiset |
| `AgentTrace.dfy` | messages, events, the grammar of a trace, and the state the agent derives from events |
| `ToolBatch.dfy` | execution of the tool calls of one answer |
| `PendingMessages.dfy`, `AgentLoop.dfy`, `Agent.dfy` | message queues, the loop, and the agent around it |
| `Protocol.dfy`, `ServiceServer.dfy`, `ServiceClient.dfy` | envelopes, and the two sides of a connection |
| `Session.dfy`, `SessionStreams.dfy` | the two sides joined: request correlation and subscription streams |
| `SessionService.dfy`, `SessionObjects.dfy` | which requests are served; a client object and a server object joined by their channels |
| `Connection.dfy` | the life of a client connection, with callbacks that call back |
| `PromiseChain.dfy` | the promise-chain idiom by which operations of one key are queued |
| `RouterState.dfy`, `SessionRouter.dfy` | the session router: its steps, and the object |
| `RouterSafety.dfy`, `RouterReleases.dfy`, `RouterTheorems.dfy` | its invariants and theorems |
| `RouterAims.dfy` | what an attach operation is after, and what it achieves |
| `RouterHistory.dfy`, `RouterOrphans.dfy`, `RouterLateCalls.dfy` | two claims that fail of it, and exactly when |
| `ModelCatalog.dfy` | catalog refresh and publication, and the overlay of dynamic models |
| `JsonCheck.dfy` | the strict JSON check on finite object graphs |

Where the program and what is said about it differ, the program is followed:

* The comment at `packages/agent/src/run-budget.ts:89-95` says that a refusal by stock controllers never charges the
  other one. It can: see `RunBudget.CompositeToolCallIsExact` for the exact condition and
  `RunBudget.RefusalCanChargeThePrimary` for an input.
* The frame decoder loses the frames it has already decoded in the call that fails
  (`Framing.FailingChunkLosesItsFrames`), so what a stream delivers before a failure does depend on how it is cut.
* `removeSession` keeps a session listed while its handle closes, so a client can end up attached to a session that is
  gone (`RouterOrphans.RemovalCanLeaveAnAttachment`), exactly when it registers while such a removal is under way
  (`RouterOrphans.RegistrationIsLeftBehindExactly`).
* A release begun from outside a client's queue can miss operations
  (`RouterLateCalls.OutsideReleaseCanMissOperations`): exactly those admitted since it began
  (`RouterLateCalls.MissedOperationsExactly`), which `startServiceCall` does not prevent.
* `#handleData` compares the connection state but not the connection id between the messages of one chunk;
  `Connection.StraysExactlyAfterReconnecting` says exactly when a message reaches a newer connection, and
  `Connection.NothingStraysWithoutReconnecting` that none does while no callback of the chunk reconnects.
* The last turn of a run lacks its `turn_end` exactly when the budget gate refuses, also when the run was aborted and
  the ending therefore says so.

## Model

| member | source | states |
|---|---|---|
| Framing.EncodeFrame | packages/protocol/src/framing.ts:28-39 | the four header bytes computed by shifts are the big-endian length: the frame equals the reference encoding, or is refused beyond 32 bits |
| Framing.HeaderIsUnique | packages/protocol/src/framing.ts:33-36 | reading a header and writing it back are inverse, so a length has one header |
| Framing.ParseAppend | packages/protocol/src/framing.ts:66-130 | parsing a concatenation continues where parsing the first part stopped |
| Framing.ParseEncoded | packages/protocol/src/framing.ts:28-130 | encoded payloads in front of any bytes parse back to themselves |
| Framing.ParsedFramesEncodeBack | packages/protocol/src/framing.ts:66-130 | what was parsed encodes back to exactly the bytes consumed |
| Framing.ChunkIndependence | packages/protocol/src/framing.ts:59-130 | for every stream and every way to cut it: it fails or not, and if not delivers the reference parser's frames and keeps its rest, whatever the cuts |
| Framing.FailingChunkLosesItsFrames | packages/protocol/src/framing.ts:64-79 | a failing call delivers none of the frames it had decoded: what is delivered is what the earlier calls delivered |
| Framing.DroppedFrameExample | packages/protocol/src/framing.ts:77-83 | two cuts of the same bytes that deliver different frames before failing |
| Framing.RoundTrip | packages/protocol/src/framing.ts:28-130 | payloads within the limit, encoded and cut anyhow, come back in order and the stream can end |
| Framing.EndSucceedsIffWholeFrames | packages/protocol/src/framing.ts:132-139 | `end` succeeds exactly when the bytes seen are encoded frames within the limit |
| Framing.StoppedIsAbsorbing | packages/protocol/src/framing.ts:60-61 | an ended or failed decoder delivers nothing and stays what it is |
| Framing.FrameDecoder.constructor | packages/protocol/src/framing.ts:44-57 | a fresh decoder has read nothing |
| Framing.FrameDecoder.Push | packages/protocol/src/framing.ts:59-130 | pushing a chunk is the reference step `Feed`, with the buffers refilled in place |
| Framing.FrameDecoder.Consume | packages/protocol/src/framing.ts:64-129 | the loop over the chunk delivers what parsing unread bytes and chunk delivers |
| Framing.FrameDecoder.Advance | packages/protocol/src/framing.ts:66-128 | one turn of the loop consumes bytes and yields at most the next parsed frame |
| Framing.FrameDecoder.StartFrame | packages/protocol/src/framing.ts:67-89 | the header phase, with its limit and empty-frame exits |
| Framing.FrameDecoder.TakePayload | packages/protocol/src/framing.ts:93-109 | the payload phase moves bytes from the chunk into the blocks |
| Framing.FrameDecoder.FinishPayload | packages/protocol/src/framing.ts:110-127 | a complete payload is the concatenation of its blocks, and the buffers are reset |
| Framing.FrameDecoder.FieldsEncodeUnread | packages/protocol/src/framing.ts:93-109 | the fields encode exactly the unread suffix, never a whole frame, and less than one block more than received is allocated |
| Framing.FrameDecoder.End | packages/protocol/src/framing.ts:132-139 | `end` is the reference step `Finish` |
| Framing.FrameDecoder.Fail | packages/protocol/src/framing.ts:141-150 | failing drops everything held |
| Framing.CreateDecoder | packages/protocol/src/framing.ts:19-25 | a limit is accepted exactly when it is between 0 and the 32-bit maximum |
| RunBudget.RunBudgetController.constructor | packages/agent/src/run-budget.ts:16-28 | counters start at zero, the clock now |
| RunBudget.RunBudgetController.ExhaustedLimit | packages/agent/src/run-budget.ts:30-41 | the first exhausted limit in the program's order; none exactly when no limit is exhausted |
| RunBudget.RunBudgetController.TryBeginProviderRequest | packages/agent/src/run-budget.ts:54-60 | allowed exactly while requests, tool calls and time are each under their limit; charges one on success, nothing on refusal; limits are kept |
| RunBudget.RunBudgetController.TryAcceptToolCall | packages/agent/src/run-budget.ts:43-67 | allowed exactly while tool calls and time are under their limits; charges one on success, nothing on refusal |
| RunBudget.RunBudgetController.RecordMaintenanceRequest | packages/agent/src/run-budget.ts:68-70 | counts maintenance and nothing else |
| RunBudget.CompositeBudgetController.TryBeginProviderRequest | packages/agent/src/run-budget.ts:112-118 | test both, then charge both, each with its own clock reading |
| RunBudget.CompositeBudgetController.TryAcceptToolCall | packages/agent/src/run-budget.ts:119-124 | the same for tool calls, blocking only on tool-call and time limits |
| RunBudget.CompositeRequestIsExact | packages/agent/src/run-budget.ts:104-118 | with one clock reading the answer is the conjunction of both gates, and a refusal changes neither |
| RunBudget.CompositeToolCallIsExact | packages/agent/src/run-budget.ts:106-124 | the tool gate too answers the conjunction; the primary pays for a refused call if and only if it would accept while the ledger is at its request limit and another one |
| RunBudget.RefusalCanChargeThePrimary | packages/agent/src/run-budget.ts:89-124 | concrete controllers for which a refusal consumes the primary's counter |
| RunBudget.MovingClockCanChargeThePrimary | packages/agent/src/run-budget.ts:112-118 | concrete controllers and readings for which a request misfires |
| RunBudget.RequestMisfiresExactly | packages/agent/src/run-budget.ts:112-118 | for every clock: a refused request is charged to the primary if and only if both tests and its own recording pass and the ledger runs out of time before recording |
| RunBudget.ToolCallMisfiresExactly | packages/agent/src/run-budget.ts:119-124 | the exact condition for a tool call, for every clock: the ledger is at its request limit and at another, or runs out of time between test and recording |
| RunBudget.LedgerConservation | packages/agent/src/run-budget.ts:100-146 | over every run of every number of children: what the children paid is what the ledger paid plus the misfires |
| RunBudget.SteadyClockMisfires | packages/agent/src/run-budget.ts:104-124 | with a steady clock no request misfires, and a tool call only while the ledger is at its request limit |
| RunBudget.FamilyStaysWithinLimits | packages/agent/src/run-budget.ts:30-67 | every counter of the family stays within its own limits |
| RunBudget.FamilyBudget | packages/agent/src/run-budget.ts:100-146 | from fresh counters the ledger's requests are the sum of the children's and within the ledger's limit |
| RepeatedToolErrors.RepeatedToolErrors.Reset | packages/agent/src/repeated-tool-errors.ts:11-13 | forgets everything |
| RepeatedToolErrors.RepeatedToolErrors.Record | packages/agent/src/repeated-tool-errors.ts:15-34 | a success forgets everything; otherwise the failures are counted, and `true` means that one of them failed at least three times since the last reset |
| RepeatedToolErrors.RepeatedToolErrors.CountFailures | packages/agent/src/repeated-tool-errors.ts:20-33 | counting a batch is counting its signatures one by one |
| RepeatedToolErrors.RepeatedToolErrors.CountFailure | packages/agent/src/repeated-tool-errors.ts:24-31 | one more of a key, then the oldest key goes if there are too many |
| RepeatedToolErrors.FindsFirst | packages/agent/src/repeated-tool-errors.ts:22 | a result is matched with the first call of its id |
| RepeatedToolErrors.EveryFailureCounts | packages/agent/src/repeated-tool-errors.ts:21-24 | every failure of a batch that answers its calls is counted, in order, under the name and arguments of its call and its own content |
| RepeatedToolErrors.TableIsBounded | packages/agent/src/repeated-tool-errors.ts:28-31 | never more than 64 keys, and never a count above the true number of failures |
| RepeatedToolErrors.RepeatsMeansThree | packages/agent/src/repeated-tool-errors.ts:20-33 | a report means a signature that failed three times since the last reset |
| RepeatedToolErrors.SmallHistoryIsCountedExactly | packages/agent/src/repeated-tool-errors.ts:20-33 | with at most 64 distinct signatures the table is the multiset of failures |
| RepeatedToolErrors.SmallHistoryReportsExactly | packages/agent/src/repeated-tool-errors.ts:20-33 | and a report then comes if and only if a signature of the batch has failed three times |
| RepeatedToolErrors.FreshFailuresEvict | packages/agent/src/repeated-tool-errors.ts:28-31 | new signatures push the oldest out, keeping the newest 64 |
| RepeatedToolErrors.SixtyFourOthersForget | packages/agent/src/repeated-tool-errors.ts:28-31 | after 64 other signatures a third failure goes unreported |
| RepeatedToolErrors.TableIsNewestInsertions | packages/agent/src/repeated-tool-errors.ts:24-31 | for every history: the signatures tracked are the newest 64 insertions, in order |
| RepeatedToolErrors.TrackedExactly | packages/agent/src/repeated-tool-errors.ts:24-31 | so a signature is still tracked if and only if fewer than 64 insertions followed its own latest one |
| AgentTrace.OneStartOneEnd | packages/agent/src/agent-loop.ts:119-126 | a trace has `agent_start` first and only there, and `agent_end` last and only there |
| AgentTrace.BracketsClose | packages/agent/src/agent-loop.ts:462-517 | after a `message_start` come only updates until its `message_end` |
| AgentTrace.TurnsClose | packages/agent/src/agent-loop.ts:210-274 | turns do not nest, and a finished trace leaves at most its last turn open, exactly when it says so |
| AgentTrace.CallsPair | packages/agent/src/agent-loop.ts:578-741 | a started call has one start, then updates, then once it is closed exactly one end, which carries its result, and nothing after it |
| AgentTrace.AgentStateFollows | packages/agent/src/agent.ts:670-718 | reducing a sound trace grows the shown messages by exactly the messages ended, streams exactly inside a bracket, and shows as pending only open calls |
| AgentTrace.NothingPendingAtTheEnd | packages/agent/src/agent.ts:655-710 | a finished trace leaves nothing streaming and nothing pending |
| AgentTrace.DeclaringKeepsMessages | packages/agent/src/agent-loop.ts:383-413 | declaring tool changes loses, duplicates and reorders no message and touches only tool fields |
| AgentTrace.DeclaringDeclares | packages/agent/src/agent-loop.ts:383-413 | the last system message then carries the changes; one is put first if there are changes and none is pending, and nothing changes if there is nothing to declare |
| AgentTrace.GapGrows | packages/agent/src/agent-loop.ts:207-223 | what is added to a transcript without an answer fills the gap since the last answer, and no earlier one |
| AgentTrace.AnswersAndGaps | packages/agent/src/agent-loop.ts:223-260 | a transcript has one gap more than it has answers |
| ToolBatch.Emitter.BeginRequest | packages/agent/src/agent-loop.ts:225 | the answer is exactly the gate's, for whatever the clock shows; every controller behind it is charged for a request let through and stays within its limits |
| ToolBatch.Emitter.AcceptToolCall | packages/agent/src/agent-loop.ts:605 | the same for a tool call, and a call turned away is noted by its number |
| ToolBatch.Emitter.EmitToolStart | packages/agent/src/agent-loop.ts:590-595 | opens the next call of the trace |
| ToolBatch.Emitter.Prepare | packages/agent/src/agent-loop.ts:787-855 | a call runs only if it is found, valid, not blocked and the run is not aborted; otherwise its error says which; the run is aborted afterwards exactly if it was or this preparation was interrupted |
| ToolBatch.Emitter.Admit | packages/agent/src/agent-loop.ts:597-617 | a call goes on exactly if it is prepared, the run is not aborted and the gate accepts it; it ends over budget only if the gate refused it, aborted only if the run was |
| ToolBatch.Emitter.FailTruncated | packages/agent/src/agent-loop.ts:526-551 | every call of a truncated answer is started, ended, failed and answered in order, none runs |
| ToolBatch.Emitter.RunBody | packages/agent/src/agent-loop.ts:857-897 | a body reports only between its start and its end, and the call is noted as run |
| ToolBatch.Emitter.ExecuteSequential | packages/agent/src/agent-loop.ts:578-645 | every outcome has its fate and exactly the content that fate gives; the calls that ran and that the gate refused are known by number; results answer a prefix of the calls in order, all unless aborted, and are what the ends in the trace carry; the new events are calls made one at a time, each over and answered before the next is started; none is made once the run is known to be aborted, and it is not aborted for nothing |
| ToolBatch.Emitter.Launch | packages/agent/src/agent-loop.ts:657-725 | a call of a concurrent batch is started, then ends at once or waits, paid for |
| ToolBatch.Emitter.Begin | packages/agent/src/agent-loop.ts:700-710 | a waiting call runs, unless the run was aborted meanwhile |
| ToolBatch.Emitter.Act | packages/agent/src/agent-loop.ts:700-721 | any waiting or running call may act next; the open calls stay exactly the unfinished ones, and the fates stay accounted for |
| ToolBatch.Emitter.RunAll | packages/agent/src/agent-loop.ts:727-729 | whatever the interleaving, every launched call finishes |
| ToolBatch.Emitter.ExecuteParallel | packages/agent/src/agent-loop.ts:647-741 | the same under every interleaving, with the results in the order of the calls, and all tool events before the first result message |
| ToolBatch.Emitter.ExecuteToolCalls | packages/agent/src/agent-loop.ts:553-571 | which of the two happens, said of the log: in a truncated or sequential batch at most one call is open at any point and the end of a call is followed at once by the message with its result; in any other every tool event precedes every result message. At least one call is made if there is one, all unless the run is aborted, and `terminate` means that there are results and all ask for it |
| ToolBatch.AloneKeepsOneOpen | packages/agent/src/agent-loop.ts:587-637 | one more call after the others are over leaves none open and never has two open |
| ToolBatch.ToolsThenMessages | packages/agent/src/agent-loop.ts:657-736 | tool events and then messages: no tool event comes after a result message |
| ToolBatch.WhoAsksToEnd | packages/agent/src/agent-loop.ts:769-771 | an outcome asks for its batch to be the last exactly if its call ran and its body does, or it was blocked and the hook does |
| ToolBatch.AccountsMore | packages/agent/src/agent-loop.ts:283-298 | the books of one batch after another: the calls that ran and that were refused are those of either |
| ToolBatch.TracksFinish | packages/agent/src/agent-loop.ts:719-720 | ending one call keeps open calls and outcomes complementary |
| ToolBatch.TracksWaiting | packages/agent/src/agent-loop.ts:700-721 | so does adding one that waits |
| ToolBatch.FaithfulOutcomes | packages/agent/src/agent-loop.ts:727-735 | in call order every outcome is one its own call may end with |
| ToolBatch.MarksOutcomes | packages/agent/src/agent-loop.ts:727-741 | when nothing is left to run, the calls noted as run and as refused have grown by exactly those of either fate |
| PendingMessages.PendingMessageQueue.Enqueue | packages/agent/src/agent.ts:182-184 | appended at the end |
| PendingMessages.PendingMessageQueue.Peek | packages/agent/src/agent.ts:190-194 | a prefix, empty only if the queue is, at most one in one-at-a-time mode and everything otherwise |
| PendingMessages.PendingMessageQueue.Drain | packages/agent/src/agent.ts:196-200 | takes the peeked messages off the front; what was enqueued is always what was taken followed by what is held |
| PendingMessages.PendingMessageQueue.Clear | packages/agent/src/agent.ts:202-204 | takes everything away |
| AgentLoop.DrainingConserves | packages/agent/src/agent-loop.ts:179-209 | draining moves messages from a queue to what is pending |
| AgentLoop.InjectingConserves | packages/agent/src/agent-loop.ts:213-221 | injecting moves what is pending into the transcript, each message once and in order |
| AgentLoop.InjectingKeepsGaps | packages/agent/src/agent-loop.ts:213-221 | and it stays in the gap between two answers that it came in |
| AgentLoop.PollFills | packages/agent/src/agent-loop.ts:179-209 | a poll fills the open gap, by itself |
| AgentLoop.TerminatingBatch | packages/agent/src/agent-loop.ts:769-771 | the calls of an answer call for another request exactly if it was cut off or some call of its batch does not ask to end; otherwise the batch terminates |
| AgentLoop.AccountedOneMore | packages/agent/src/agent-loop.ts:278-298 | one more turn keeps the books of the run: every answer's calls are one batch, every call has its number, its fate and its own result in the trace |
| AgentLoop.AgentRun.PollSteering | packages/agent/src/agent-loop.ts:207-209 | what is polled becomes pending, and is the one poll since the last answer; nothing pending means nothing queued; at most one message in one-at-a-time mode |
| AgentLoop.AgentRun.Prepare | packages/agent/src/agent-loop.ts:187-211 | steering is polled again only if nothing is pending, so that one poll at most precedes a request |
| AgentLoop.AgentRun.Inject | packages/agent/src/agent-loop.ts:213-221 | prepared and pending messages enter event log, context and new messages alike, and nothing stays pending |
| AgentLoop.AgentRun.StreamAssistantResponse | packages/agent/src/agent-loop.ts:431-517 | however it streams, the answer ends up in the context once and in one bracket |
| AgentLoop.AgentRun.Ask | packages/agent/src/agent-loop.ts:225-260 | exactly the gate's answer; one answer for every request it lets through, nothing otherwise |
| AgentLoop.AgentRun.Execute | packages/agent/src/agent-loop.ts:278-293 | the calls of an answer are made by its script, failed if the answer was cut off, one at a time if the batch is sequential; more tool calls are due if and only if the answer has calls and was cut off or some call of its batch does not ask to end |
| AgentLoop.AgentRun.RunCalls | packages/agent/src/agent-loop.ts:278-298 | the same, with the results, in the order of the calls, in both transcripts |
| AgentLoop.AgentRun.NoteFailures | packages/agent/src/agent-loop.ts:317 | the run is given up exactly if the tracker reports a repeated failure, no steering is pending and the run is not aborted |
| AgentLoop.AgentRun.GoOn | packages/agent/src/agent-loop.ts:315-348 | a continuation stays due only if the turn left no tool calls and no steering; giving up needs repeated failures, no steering and no abort |
| AgentLoop.AgentRun.GiveUp | packages/agent/src/agent-loop.ts:317-344 | the loop's own closing message, in a turn of its own, everywhere |
| AgentLoop.AgentRun.FinishTurn | packages/agent/src/agent-loop.ts:300-348 | the turn closes, then the run stops or goes on for exactly the stated reasons |
| AgentLoop.AgentRun.FailTurn | packages/agent/src/agent-loop.ts:262-276 | an erroneous or aborted answer closes its turn and the run |
| AgentLoop.AgentRun.CompleteTurn | packages/agent/src/agent-loop.ts:262-348 | an erroneous or aborted answer makes no calls and ends the run as failed or aborted; any other makes its calls, and then the run ends as completed if it is told to stop, as failed if it is given up, and goes on otherwise |
| AgentLoop.AgentRun.Refuse | packages/agent/src/agent-loop.ts:225-234 | a refusal ends the run with the turn left open, as aborted or as out of budget |
| AgentLoop.AgentRun.OneTurn | packages/agent/src/agent-loop.ts:187-348 | one turn makes at most one request; the trace is left with an open turn exactly when it made none |
| AgentLoop.AgentRun.WhatNext | packages/agent/src/agent-loop.ts:351-364 | follow-ups come first; a continuation is taken only if there are none |
| AgentLoop.AgentRun.TakeTurn | packages/agent/src/agent-loop.ts:183-348 | a turn taken for a reason leaves exactly what the next turn has for its reason, and its calls in the books |
| AgentLoop.TurnLeft | packages/agent/src/agent-loop.ts:183-348 | tool calls and steering that a turn leaves warrant the next turn |
| AgentLoop.FollowUpsLeft | packages/agent/src/agent-loop.ts:351-364 | follow-ups warrant a turn only if nothing else was left, and a continuation only if those are not there either |
| AgentLoop.AgentRun.RunLoop | packages/agent/src/agent-loop.ts:165-371 | every turn has the one reason it may have: calls that call for another request or steering, follow-ups when neither, a continuation asked for when nothing at all was left; between two answers comes one poll of one queue at most, of one message in one-at-a-time mode, and before the first answer the poll at the start unless it is skipped; a run that ends by itself leaves nothing queued, no continuation due and no batch that calls for another request |
| AgentLoop.CallsAreAnswered | packages/agent/src/agent-loop.ts:183-348 | over whole runs, on scripts and fates: the turn after turn k serves its calls or steering if and only if its calls call for another request or it left steering; and a run that ends as completed has made a request after every batch that calls for one, unless it was told to stop after it |
| AgentLoop.ResultsReturned | packages/agent/src/agent-loop.ts:295-298 | the result messages of a run are the results of its batches, in the order of the calls |
| AgentLoop.RunAgentLoop | packages/agent/src/agent-loop.ts:104-128 | whole runs: sound finished trace whose last event carries the new messages; trace and new messages agree, and the context is the one given last, by the caller or a hook, with all new messages since; every call has its fate, and the result messages are what the calls ended with; queues conserved, one poll between two answers; every turn justified, every ending too, and no abort without one in a script; requests and tool bodies within every controller's charge and limit, counted from its counters before the call; and termination with the remaining requests as measure |
| AgentLoop.RunAgentLoopContinue | packages/agent/src/agent-loop.ts:130-153 | refused exactly for an empty transcript or one that ends with an answer; otherwise the same of a run that adds no message of its own |
| AgentLoop.SharedRuns | packages/agent/src/agent-loop.ts:223-234 | any number of runs behind one gate together make no more requests and run no more tool bodies than its controllers were charged for within their limits |
| AgentLoop.LimitedRunsEnd | packages/agent/src/run-budget.ts:30-33 | a run makes at most the requests its controller had left |
| Agent.Agent.CreateBudgetController | packages/agent/src/agent.ts:450-456 | a shared ledger always gates, an own policy always has fresh counters |
| Agent.Agent.ScopeForPrompt | packages/agent/src/agent.ts:470-476 | in prompt scope a prompt starts over, in session scope it continues the budget there is |
| Agent.Agent.ScopeForContinue | packages/agent/src/agent.ts:486-488 | a continuation keeps the budget there is |
| Agent.Agent.UseNewController | packages/agent/src/agent.ts:450-456 | a new controller starts from nothing, while the shared ledger keeps its counters |
| Agent.Agent.ProcessEvents | packages/agent/src/agent.ts:670-718 | after a run the agent shows exactly what the run produced, and the run's context too unless a hook replaced it |
| Agent.Agent.Prompt | packages/agent/src/agent.ts:459-480 | refused exactly while a run is active; otherwise a run with all of this, on the budget its scope gives, charged on top of what its controllers had been charged before; steering that is queued comes with its first request |
| Agent.Agent.TakeQueued | packages/agent/src/agent.ts:495-506 | a continuation after an answer takes steering first, follow-ups otherwise, off their queues |
| Agent.Agent.Continue | packages/agent/src/agent.ts:482-513 | each refusal for its exact reason; otherwise the same for a run from the transcript or from what was queued; after steering taken to start with, no more of it comes before the first answer |
| ServiceClient.Client.HydrateListener | packages/client/src/client.ts:197-204 | the snapshot is decoded, then every update that came before it, in order |
| Session.CorrelationStep | packages/server/src/server.ts:306-404 | every step of either side keeps each awaited request on its way exactly once, with the kind of call the client remembers |
| Session.HandlingMoves | packages/server/src/server.ts:306-331 | taking up a request turns it into an execution or a response, exactly |
| Session.CompletingMoves | packages/server/src/server.ts:358-399 | an execution turns into exactly one response |
| Session.AskingKeeps | packages/client/src/client.ts:271-299 | a new request is at one place only |
| Session.ReceivingKeeps | packages/client/src/client.ts:333-342 | a response takes its entry with it |
| SessionStreams.ListenersSeeAPrefix | packages/client/src/client.ts:190-236 | end to end over every run: delivered, scheduled and queued updates are a prefix of what was published, nothing is delivered before the start, none arrives before the snapshot, and the client never fails the connection |
| SessionStreams.WireContinuesTheStream | packages/server/src/server.ts:333-382 | the response precedes all updates on the wire, and the wire continues what was read without gap, repetition or change of order |
| SessionStreams.NothingIsLost | packages/server/src/server.ts:374-382 | when nothing of a live subscription is held back or under way, the client has everything |
| SessionStreams.RequestsAreAnsweredOnce | packages/client/src/client.ts:271-343 | every awaited request, aborted or not, is on its way exactly once while the server is there; no response is unmatched; no entry survives a disconnection |
| SessionService.HandlingTakesUp | packages/server/src/server.ts:298-357 | a request taken up is answered at once exactly if something is wrong with it, the answer says what, and nothing else comes of it; otherwise it is executing, and a subscribe request has its publisher |
| SessionService.FreshRun | packages/client/src/client.ts:247 | over every run: a request still to be taken up is not active, and there is one of it |
| SessionService.NothingIsMet | packages/server/src/server.ts:307-351 | so a client's request meets no active request and no live subscription: something is wrong with it if and only if it is malformed or names another server |
| SessionService.RequestsAreServed | packages/server/src/server.ts:306-357 | over every run: a request that a step takes up is refused if and only if it is malformed or names another server; any other is with its service, and a subscribe request has its publisher with nothing to send |
| SessionService.CompletingReplies | packages/server/src/server.ts:358-399 | the reply to a request: the snapshot for a subscription, cancelled if and only if it failed after a cancellation |
| SessionObjects.AnyRun | packages/client/src/client.ts:164-351 | a client object and a server object driven through any run are what the system's run makes of them: listeners have been given a prefix, every awaited request is on its way exactly once, no fault is found and no entry survives a disconnection |
| SessionObjects.Link.Perform | packages/server/src/server.ts:223-450 | whatever happens next, the objects take the system's step and keep every invariant |
| SessionObjects.Link.Connect | packages/server/src/server.ts:154-164 | a new connection has a new record at the server, and nothing is awaited on it |
| SessionObjects.Link.SendRequest | packages/client/src/client.ts:238-302 | a request that is sent goes out under a new id, as it is, and is awaited and on its way exactly once |
| SessionObjects.Link.SendSubscribe | packages/client/src/client.ts:172-209 | so is a subscribe request, and its listener is registered and has nothing yet |
| SessionObjects.Link.AbortRequest | packages/client/src/client.ts:252-270 | an abort gives up no entry; the first one of a request sends its cancellation |
| SessionObjects.Link.DisposeSubscription | packages/client/src/client.ts:221-229 | a subscription disposed of receives nothing more, keeps what it has been given, and is unsubscribed from once |
| SessionObjects.Link.StartDelivery | packages/client/src/client.ts:216-220 | the first start of a subscription makes it ready and schedules what was queued, in order; any other changes nothing |
| SessionObjects.Link.DeliverNext | packages/client/src/client.ts:305-331 | what reaches a listener is the next thing that its service published |
| SessionObjects.Link.ClientReads | packages/client/src/client.ts:304-343 | the client never finds a reason to fail the connection, and a response it reads is one it was waiting for |
| SessionObjects.Link.DisconnectClient | packages/client/src/client.ts:345-351 | no entry and no registered listener survives |
| SessionObjects.Link.ServerReads | packages/server/src/server.ts:223-261 | in the ready stage a request is answered at once if and only if its id is active, its call is malformed, it names another server or its subscription is live; otherwise it is with its service, a subscribe request with its publisher. Of what a client sends it is exactly what is malformed or names another server, and the answer says which. A cancellation is noted with its request; during the handshake messages are deferred in order |
| SessionObjects.Link.TakeDeferred | packages/server/src/server.ts:255-259 | the same of a request that came during the handshake |
| SessionObjects.Link.EndHandshake | packages/server/src/server.ts:291-294 | a handshake that ends makes the connection ready, with what was deferred |
| SessionObjects.Link.AnswerRequest | packages/server/src/server.ts:358-399 | a request that a service answers is then in its one response and nowhere else; a failure says cancelled if and only if the request had been cancelled; a subscription is live from the response to its subscribe request to that of its unsubscribe request |
| SessionObjects.Link.PublishUpdate | packages/server/src/server.ts:338-344 | a stream grows by what its service publishes and by nothing else |
| SessionObjects.Link.DisconnectServer | packages/server/src/server.ts:417-436 | everything is given up |
| SessionStreams.SnapshotKeeps | packages/server/src/server.ts:358-374 | sending the snapshot starts the stream at position 0 |
| SessionStreams.DirectUpdateKeeps | packages/server/src/server.ts:343 | an update of a ready subscription is the next item of the stream |
| SessionStreams.DrainedUpdateKeeps | packages/server/src/server.ts:376-380 | so is the oldest update that waited |
| SessionStreams.HydratingKeeps | packages/client/src/client.ts:197-204 | the item the client awaits first is the snapshot, and decoding it succeeds |
| SessionStreams.UpdatingKeeps | packages/client/src/client.ts:320-331 | the next item decodes, and is the next update published |
| Connection.ReactionKeepsLatest | packages/client/src/connection.ts:67-96 | callbacks may connect and disconnect at will: an active connection is always the latest |
| Connection.MessagesKeepLatest | packages/client/src/connection.ts:157-213 | so it is after every chunk |
| Connection.MessageDecides | packages/client/src/connection.ts:163-213 | a message other than the expected hello ends an attempt, and the expected hello connects it unless a callback ends it; afterwards a regular message leaves it as it is, and any other ends it |
| Connection.StraysExactlyAfterReconnecting | packages/client/src/connection.ts:143-161 | a message of a chunk reaches a newer connection if and only if the reactions to an earlier one end its own attempt and leave a new one active |
| Connection.NothingStraysWithoutReconnecting | packages/client/src/connection.ts:143-161 | while no callback of the chunk reconnects, at any depth, no message strays and no attempt is begun |
| Connection.ReconnectInsideChunkExample | packages/client/src/connection.ts:157-160 | a chunk for which that happens |
| Connection.ScanAcceptsAlternation | packages/client/src/connection.ts:67-79 | accepted notification logs are exactly (connecting connected? disconnected)* and its prefixes |
| Connection.Connection.Connect | packages/client/src/connection.ts:67-91 | refused unless disconnected; otherwise a new attempt that is pending, and still there unless a callback ends it |
| Connection.Connection.Disconnect | packages/client/src/connection.ts:93-96 | ends the current connection, once |
| Connection.Connection.Fail | packages/client/src/connection.ts:234-240 | the attempt is settled if it was pending, and the state announced |
| Connection.Connection.FailAndClose | packages/client/src/connection.ts:227-232 | and the transport of the connection that failed is closed |
| Connection.Connection.TransportOpened | packages/client/src/connection.ts:120-133 | a transport is adopted by its own attempt or closed |
| Connection.Connection.HandleData | packages/client/src/connection.ts:143-161 | data of an old connection changes nothing; a chunk begins a new attempt only if one of its callbacks reconnects, and exactly if an earlier message ended the attempt and left a new one |
| Connection.Connection.HandleClose | packages/client/src/connection.ts:215-225 | a close of an old connection changes nothing |
| Connection.Connection.Handshake | packages/client/src/connection.ts:163-206 | the first message must be the expected server's hello |
| Connection.AnyRun | packages/client/src/connection.ts:67-244 | every run: notifications alternate; the promises settled are exactly those of every attempt but one that is still connecting, each settled once; and every transport produced is current, closed or closed by itself |
| PromiseChain.StartedAlone | packages/server/src/session-router.ts:146-158 | an operation starts only when every earlier one is over, and every later one still waits |
| PromiseChain.StartsExactly | packages/server/src/session-router.ts:146-158 | it is the turn of an operation exactly if it waits and every earlier one has settled |
| PromiseChain.EnqueueKeepsOrder | packages/server/src/session-router.ts:147-153 | queueing keeps the order |
| PromiseChain.ForgetKeepsOrder | packages/server/src/session-router.ts:154-156 | so does the clean-up of a tail |
| PromiseChain.NeverOverlap | packages/server/src/session-router.ts:146-158 | two operations of one key never run at once |
| SessionRouter.SessionRouter.RunForClient | packages/server/src/session-router.ts:146-158 | an operation joins its client's queue and takes nobody's place; only an attach is refused, while the router closes; a client that disconnects counts as disconnected at once |
| SessionRouter.SessionRouter.StartOperation | packages/server/src/session-router.ts:148-232 | it is an operation's turn only when everything before it is over and nothing of the client is under way. An attach is over at once if and only if the client is turned away or is registered with that session already, and waits for that session otherwise; a service call is admitted if and only if the client is registered with the attachment and session it names; a client that leaves has its attachment released |
| SessionRouter.SessionRouter.SettleOperation | packages/server/src/session-router.ts:149-156 | then none of the client's operations is; the client counts as disconnected until its disconnection has settled |
| SessionRouter.SessionRouter.SwitchSession | packages/server/src/session-router.ts:166-176 | a client goes on to its next session when nobody is registered with the one it leaves, if and only if that could be released |
| SessionRouter.SessionRouter.AcquireReturns | packages/server/src/session-router.ts:269-273 | a client that has got its session, the one it asked for, leaves no opening of its own on the list |
| SessionRouter.SessionRouter.ContinueAttach | packages/server/src/session-router.ts:165-176 | it goes on if and only if there is a session and it is not turned away; the current session is left first; the attachment a lease is asked for is one nobody is registered with |
| SessionRouter.SessionRouter.RegisterAttachment | packages/server/src/session-router.ts:177-191 | registered, with the session that the operation names, exactly if session, attachment, client and server are all still there; and every registered attachment is its client's, holds its lease and is in its session's set |
| SessionRouter.SessionRouter.AdvanceRelease | packages/server/src/session-router.ts:238-241 | the lease is released only if it is held, only once, and only after every operation the release found; in the client's own queue after all there are |
| SessionRouter.SessionRouter.EndRelease | packages/server/src/session-router.ts:247-260 | after a release nobody is registered with the attachment and its session has let it go |
| SessionRouter.SessionRouter.FinishOpen | packages/server/src/session-router.ts:276-300 | the session is listed unless the server is closing, and takes nobody's place |
| SessionRouter.SessionRouter.Invalidate | packages/server/src/session-router.ts:302-311 | a session that ends is unlisted and all its attachments are being released |
| SessionRouter.SessionRouter.RemoveSession | packages/server/src/session-router.ts:72-79 | all attachments are being released while the session stays listed |
| SessionRouter.SessionRouter.AdvanceRemoval | packages/server/src/session-router.ts:80-89 | the handle closes, then the session is unlisted, only after every attachment found has been released |
| SessionRouter.SessionRouter.BeginClose | packages/server/src/session-router.ts:103-114 | every operation that is attaching a client is waited for |
| SessionRouter.SessionRouter.CloseAttachments | packages/server/src/session-router.ts:121-125 | then nobody is attaching, and every attachment of a listed session is being released |
| SessionRouter.SessionRouter.AwaitHandles | packages/server/src/session-router.ts:129-130 | every listed session is among those whose handles are closed |
| SessionRouter.SessionRouter.CloseHandle | packages/server/src/session-router.ts:129-140 | a closed session is unlisted |
| SessionRouter.SessionRouter.FinishClose | packages/server/src/session-router.ts:141-143 | a close that succeeds leaves nothing hosted, being opened or attached |
| SessionRouter.SessionRouter.Perform | packages/server/src/session-router.ts:34-312 | whatever happens next, the object takes the state machine's step and keeps every invariant |
| SessionRouter.AnyRun | packages/server/src/session-router.ts:34-312 | one router object driven through any run: every registered attachment is sound, each lease is released at most once, clients are left behind only by removals that did not find them, and a closed router is empty |
| RouterTheorems.RegisteredAttachmentsAreSound | packages/server/src/session-router.ts:160-197 | index safety at every suspension point of every run: a registered attachment belongs to its client, holds a lease and is in its session's set |
| RouterTheorems.OneOperationAtATime | packages/server/src/session-router.ts:146-158 | one client's operations never overlap and run in order |
| RouterTheorems.OneOpenAtATime | packages/server/src/session-router.ts:262-300 | at most one opening of an id is under way, none while it is hosted |
| RouterTheorems.LeasesAreReleasedOnce | packages/server/src/session-router.ts:234-252 | each lease is released at most once; a release begun in the client's own queue only after every operation ever admitted is over |
| RouterTheorems.ClosedIsEmpty | packages/server/src/session-router.ts:108-144 | once `close` has resolved nothing is hosted, being opened or attached |
| RouterTheorems.ClosedStaysEmpty | packages/server/src/session-router.ts:108-144 | and that stays so whatever happens later |
| RouterTheorems.OperationsAreOver | packages/server/src/session-router.ts:109-114 | when what `close` waits for is over, nothing is attaching |
| RouterTheorems.HostedOpening | packages/server/src/session-router.ts:276-292 | listing an opened session conflicts with no other opening |
| RouterTheorems.InvRun | packages/server/src/session-router.ts:34-312 | all invariants hold after every run |
| RouterHistory.SoundRun | packages/server/src/session-router.ts:34-312 | in every run: an operation a release found and still under way is one it waits for; a removal under way has begun the release of all it found; after closing began its releases every attachment of a listed session is being released |
| RouterHistory.NoneAttachesPast | packages/server/src/session-router.ts:109-125 | once the operations that closing waits for are over, nothing attaches any more |
| RouterAims.OperationsStartRight | packages/server/src/session-router.ts:160-165 | over every run: an attach that starts is over at once if and only if the client is turned away or is registered with an attachment of that session; the same for service calls and for leaving |
| RouterAims.AttachesReachTheirSession | packages/server/src/session-router.ts:160-191 | over every run: an attach stops only where it has a reason to, and one whose session was obtained, whose release succeeded if one was needed and whose registration held leaves the client registered with an attachment of the session that it names |
| RouterAims.AimedRun | packages/server/src/session-router.ts:160-300 | over every run: what an attach waits for, goes to or leases is the session that it names, and a session that was opened is the one asked for |
| RouterAims.OperationsGoOn | packages/server/src/session-router.ts:146-197 | over every run: an operation can take its next step exactly when the opening, release or lease it waits for is over, and one that waits its turn can start exactly when every earlier one is over |
| RouterOrphans.OrphansComeFromRemovals | packages/server/src/session-router.ts:72-89 | in every run, a client registered with a session that is gone, its attachment not being released, was attached after a removal of that session had begun its releases |
| RouterOrphans.LeftBehindExactly | packages/server/src/session-router.ts:72-89 | a client registered with a hosted session can be left behind if and only if a removal of the session is under way that has not begun its release |
| RouterOrphans.RegistrationIsLeftBehindExactly | packages/server/src/session-router.ts:182-191 | the same at the registration: the two things that its checks leave out decide, and nothing else does |
| RouterOrphans.RemovalCanLeaveAnAttachment | packages/server/src/session-router.ts:72-89 | a run from the start that leaves a client registered with a session that is gone |
| RouterOrphans.ReleaseCanEnd | packages/server/src/session-router.ts:234-252 | a release that has begun can end with nothing else happening |
| RouterLateCalls.MissedOperationsExactly | packages/server/src/session-router.ts:234-241 | in every run, the operations under way when a lease is released were all admitted after the release began; there are none if and only if every one admitted since is over |
| RouterLateCalls.LateCallsExactly | packages/server/src/session-router.ts:199-232 | an operation gets under way after the release has begun exactly when `startServiceCall` admits it, which does not look at the release |
| RouterLateCalls.OutsideReleaseCanMissOperations | packages/server/src/session-router.ts:234-241 | a run from the start in which a lease is released while an operation is under way |
| RouterReleases.AdvancedRelease | packages/server/src/session-router.ts:234-241 | a release that has its queue to itself finds every operation |
| RouterReleases.AdmittingRelease | packages/server/src/session-router.ts:206-214 | an operation is never admitted while such a release is under way |
| RouterSafety.StartIsAlone | packages/server/src/session-router.ts:146-158 | an operation starts only when none of its client is under way |
| RouterSafety.IndexingIndex | packages/server/src/session-router.ts:182-191 | registering keeps the index sound |
| ModelCatalog.ModelsImpl.SupersedeProviderRefresh | packages/ai/src/models.ts:332-341 | after a supersession no publication made so far can be applied any more, and the refresh in progress is aborted |
| ModelCatalog.ModelsImpl.BeginProviderRefresh | packages/ai/src/models.ts:343-348 | the refresh that begins is the only one of the current generation, and is not aborted |
| ModelCatalog.ModelsImpl.PublishProviderModels | packages/ai/src/models.ts:350-376 | a publication becomes the tail of its provider's chain, and changes neither store nor models |
| ModelCatalog.ModelsImpl.StartPublication | packages/ai/src/models.ts:357-365 | it starts when every earlier one is over. An overtaken one reports that it is not published and leaves store and models alone; any other begins its store mutation, or without one is applied and reports that it is published |
| ModelCatalog.ModelsImpl.AbortRefresh | packages/ai/src/models.ts:409-436 | nothing that an aborted refresh has published is applied from then on |
| ModelCatalog.ModelsImpl.StoreMutationLands | packages/ai/src/models.ts:359-365 | the store then holds what the one publication in flight persists |
| ModelCatalog.ModelsImpl.StoreMutationFails | packages/ai/src/models.ts:359-365 | a failed mutation changes neither store nor models |
| ModelCatalog.ModelsImpl.ResumePublication | packages/ai/src/models.ts:367-369 | reported and applied exactly if still current, and then the store holds what it persisted |
| ModelCatalog.ModelsImpl.Perform | packages/ai/src/models.ts:281-377 | whatever happens next to one provider, its entries take the protocol's step and no other provider is touched |
| ModelCatalog.AnyRun | packages/ai/src/models.ts:266-377 | one object through any run: each provider's entries are what its own events alone make of them, and its publications are safe |
| ModelCatalog.StepKeepsInv | packages/ai/src/models.ts:281-377 | every step of refreshes, supersessions, aborts and publications keeps the protocol's invariant |
| ModelCatalog.PublicationSafety | packages/ai/src/models.ts:281-377 | over every run: applied generations never decrease, store mutations are serialized, and `true` is reported only after persist and update |
| ModelCatalog.MutationsDoNotOverlap | packages/ai/src/models.ts:356-365 | between two starts of a store mutation the first one has ended |
| ModelCatalog.UpdatesOnlyWhileCurrent | packages/ai/src/models.ts:367-369 | an update runs only while its generation is current and what it persisted is in the store |
| ModelCatalog.StaleNeverPersists | packages/ai/src/models.ts:358-365 | a stale publication starts no store mutation |
| ModelCatalog.OvertakenExactly | packages/ai/src/models.ts:358 | the check passes exactly if the refresh is neither aborted nor superseded |
| ModelCatalog.FailuresAreOvertaken | packages/ai/src/models.ts:358-369 | over every run: a publication is reported as not published only by a step at which its refresh is aborted or superseded |
| ModelCatalog.CurrentPublicationsSucceed | packages/ai/src/models.ts:356-369 | over every run: a publication that is not overtaken and whose turn has come is published if its store mutation lands, and then the store and the models are what it says |
| ModelCatalog.CurrentModels | packages/ai/src/models.ts:788-796 | the overlay: baseline order, dynamic models in place or appended, the last of an id winning, no other model changed |
| JsonCheck.Checker.Check | packages/chord/src/json.ts:8-50 | answers what the check without ancestors answers, and restores the ancestor set on every exit |
| JsonCheck.Checker.CheckSlots | packages/chord/src/json.ts:18-46 | the loop over the entries, with the same promise |
| JsonCheck.Checker.IsJsonValue | packages/chord/src/json.ts:4-6 | the whole check equals the one with only the depth limit |
| JsonCheck.CycleFails | packages/chord/src/json.ts:9-16 | a node on a cycle fails by depth alone |
| JsonCheck.AncestorFails | packages/chord/src/json.ts:15-38 | so a value met among its own ancestors would fail anyway: the cycle check is redundant |
| JsonCheck.DecidesBoundedAcyclicJson | packages/chord/src/json.ts:4-50 | true exactly if every value reachable is acceptable and no path is longer than 512 |
| JsonCheck.AcceptsExactly | packages/chord/src/json.ts:8-46 | what the code asks of a value, piece by piece, is that a number is finite, an array has no holes and no other keys, an object is plain with string keys, and no property is an accessor or hidden |
| JsonCheck.CyclicIsRejected | packages/chord/src/json.ts:4-50 | a graph with a reachable cycle is rejected |

## Left out

- Sockets, timers, files, processes and Node streams; only a reliable FIFO byte channel is assumed.
- CBOR, schema validation and the service codec: an encoded item is modelled by its position in its stream, and decoding it anywhere else fails. Frames and envelopes are modelled separately.
- Message contents, usage, telemetry, auth resolution, prompts, tool bodies and error texts: opaque values or scripted outcomes.
- `getCurrentTools` and `getToolStateChanges` are not part of this model: the change to declare is part of the script.
- Hooks that mutate the context or the list of new messages they are handed; a hook that replaces the context is modelled, and the context is then the replacement with all the messages since.
- A loop, hook or listener that throws, and `handleRunFailure`: the trace theorems are about runs that throw nothing.
- A response whose stream starts more than once: excluded, as the stream contract does.
- AgentLoop.AgentRun.RunLoop: a run whose script is exhausted is left waiting, so that safety holds of every prefix; without a limit no claim is made that a run ends.
- AgentLoop.SharedRuns: the runs come one after the other behind one gate; runs that interleave behind different composites are covered by `RunBudget.FamilyBudget`, for every order of their attempts.
- Agent.Agent.ProcessEvents: events are reduced together after the loop, which works on a copy of the messages; `isStreaming`, `errorMessage` and listeners are not modelled.
- Custom or nested budget controllers, a composite whose two controllers are the same object, and the composite's `usage` and `maintenanceRequests` sums.
- The handshake of the server's connection beyond its stages: version check, timeout and host services; `failProtocol` and a failed send are a disconnection at an arbitrary moment.
- SessionObjects.Link.ServerReads: a publisher is identified by its subscription id; two subscribe calls that use one id at once, which this client never makes, would share it.
- SessionObjects.Link.AbortRequest: the target of a cancellation is taken to match that of its request, as this client's always does.
- A caller that makes a subscribe call through the client's low-level `request` and so has no listener for it.
- Attachment envelopes to the client, and listeners for state and attachment changes that throw.
- RouterTheorems.OneOpenAtATime: given that a session resolves to the id that was asked for.
- SessionRouter.SessionRouter.FinishClose: the map of client operations that `close` clears is kept in the model; operations queued after that do nothing.
- Publication of attachment changes by the router, and which error a failed release or close reports.
- The `providers` map of the catalog, `raceWithAbortSignal`, credential handling and `clearProviders`: superseding one provider, which they call, is modelled for each provider by itself.
- JSON values with getters that run code; the graph is finite and does not change during the check.
