# Brain: a verified model of the agent loop, the stdio protocol, the diff, the audit chain and the stores

A Dafny model of the parts of the Go repository `leef-l/brain` that carry its guarantees, with proofs of those
guarantees over all inputs, all runs or all interleavings. `dafny verify dfyconfig.toml` checks everything.

- **Agent loop** (`Chat`, `Stream`, `LoopDetector`, `Lifecycle`, `Runner`, `RunnerSafety`, `RunnerDialogue`,
  `RunnerEquivalence`, `RunnerOutcome`, `RunnerExecute`): `Runner.Execute` with its budget, run state machine, conversation, tool dispatch and
  stuck-loop detector, driven by the queue-backed provider by either of its paths. The methods are proved against
  `Iterate`, one turn of the loop on values; the theorems are about `Iterations`, any number of turns, and so about
  every state `Execute` passes through. Provider answers, tools, sanitizer, context and clock are arbitrary functions.
- **Stdio protocol** (`Decimal`, `Framing`, `FramingRoundTrip`, `FramingHeaders`, `Rpc`, `RpcWindow`, `RpcSystem`,
  `RpcNothingLost`, `RpcCauses`, `RpcProgress`, `WireErrors`, `StaleTracker`): the `Content-Length` frames of the Language Server
  Protocol's base protocol, the bidirectional JSON-RPC session, the error encoding and the stale-response tracker. The session's goroutines are cut
  into atomic steps: one endpoint against arbitrary inbound messages, and a kernel and a sidecar joined by loss-free
  FIFO pipes. A send on a writer that was closed after the closed check is an outcome of its own: the endpoint crashes.
- **Line diff** (`Diff`, `Excerpt`): the longest-common-subsequence table, the traceback, the positional fallback and
  the excerpt with its hunk header.
- **Audit chain** (`HashChain`) and **stores** (`UsageLedger`, `ArtifactStore`, `PlanStore`).

Where code and documentation disagree the model follows the code:

- `ReadFrame` documents a clean end as "no byte of a new frame was read"; the code reports one whenever the stream ends
  inside the first header line (`FramingRoundTrip.CleanEndExactly`).
- `ReadFrame` documents a header line over the cap as a frame that is too large; the code reports a parse error
  (`FramingHeaders.LineExactly`).
- Two different tool calls can count as repetitions of each other, exactly when a name or a hash holds the bar that the
  detector puts between them (`LoopDetector.MistakenExactly`); the hashes the loop computes are hexadecimal.
- A block that is neither text nor tool_use is kept by `Complete` and lost by `Stream` (`Stream.StreamRoundTrip`).
- A context that ends in the middle of a stream does not cancel the turn: what was read passes for the whole response
  (`Stream.InterruptedExactly`, `RunnerEquivalence.InterruptedStreamPassesForWhole`).
- The stale tracker's comment says the counter restarts with each window; the code keeps a sliding window.
- `PlanStore.Create` is documented to start at version 0; the code starts at 1. With ID 0 it does not look whether the
  next sequence number is taken (`PlanStore.ExplicitIdLosesAPlan`).
- The two usage ledgers treat a record without key differently (`UsageLedger.LedgersAgreeExactly`).
- With room for a single line the diff excerpt can consist of the context line alone (`Excerpt.HunkIsExact`).
- A text field that contains the separator byte makes two different audit events hash alike
  (`HashChain.FieldsRecoverableExactly`).

## Model

| member | source | states |
|---|---|---|
| Chat.ExtractToolUseBlocks | loop/turn_executor.go:246-254 | the loop returns exactly the tool_use blocks, in order |
| Chat.MergeKeeps | loop/turn_executor.go:223-236 | putting a message's text, merged, in front of its tool calls, and these in front of its other blocks, keeps text, calls and other blocks, and doing it twice is doing it once |
| Stream.SplitRunes | llm/mock_provider.go:263-280 | the loop computes the chunks of `ChunksCoverText` |
| Stream.ChunksCoverText | llm/mock_provider.go:263-280 | the chunks run together to the text; all are non-empty, at most the chunk size, and only the last one shorter |
| Stream.TextDeltas | llm/mock_provider.go:221-227 | one content delta per chunk, in order |
| Stream.BlockEvents | llm/mock_provider.go:219-238 | the events of a text, tool_use or other block |
| Stream.LowerToStream | llm/mock_provider.go:208-258 | the event list of a response: start, blocks, message delta, end |
| Stream.StreamReader.constructor | llm/mock_provider.go:201-202 | a reader at the front of its events |
| Stream.StreamReader.Next | llm/mock_provider.go:291-311 | the next event and one step of the cursor, or an error that moves nothing: context done, closed, or at the end |
| Stream.StreamReader.Close | llm/mock_provider.go:313-318 | the reader is closed |
| Stream.MockProvider.constructor | llm/mock_provider.go:53-69 | an empty queue; a chunk size that is not positive is ignored |
| Stream.MockProvider.Queue | llm/mock_provider.go:77-84 | responses are queued in order; a nil one is ignored |
| Stream.MockProvider.Complete | llm/mock_provider.go:147-170 | takes the first queued response; with a done context or an empty queue it fails and takes nothing |
| Stream.MockProvider.Stream | llm/mock_provider.go:184-203 | same, giving a fresh reader over the lowered response |
| Stream.DrainStream | loop/turn_executor.go:116-243 | the loop over `Next` computes `DrainFrom`, wherever the context ends |
| Stream.AbsorbLowered | loop/turn_executor.go:139-220 | what the accumulators hold after any message was lowered and read: all text, and one call per named tool_use with its input as sent |
| Stream.GatheredExactly | loop/turn_executor.go:165-236 | the calls gathered from a stream are all of the message that is not text, if and only if that is tool calls only and each has a name and an input |
| Stream.StreamRoundTrip | loop/turn_executor.go:116-243 | for every chunk size, lowering and draining a stream that is read through gives the response with its content merged, nothing dropped, if and only if that content is text and tool calls only and every call has a name and an input |
| Stream.InterruptedExactly | loop/turn_executor.go:125-137 | a context that ends mid-stream fails the call if and only if nothing read so far would be kept; otherwise the fragment is a reply |
| Stream.CutShort | loop/turn_executor.go:125-137 | a stream with a stop reason whose context ends before its message.end gives an error or a fragment without stop reason: the first blocks of the message, and of the next text its beginning |
| LoopDetector.MemLoopDetector.constructor | loop/mem_loop_detector.go:71-78 | default thresholds, no state |
| LoopDetector.MemLoopDetector.Observe | loop/mem_loop_detector.go:87-179 | updates the counters of this run only and returns the verdict on them; with a done context nothing changes |
| LoopDetector.MemLoopDetector.Forget | loop/mem_loop_detector.go:184-191 | drops the run's counters |
| LoopDetector.CountersMatchScan | loop/mem_loop_detector.go:87-206 | for every history interleaved over any runs, each run's counters are what a direct scan of its own events since Forget finds |
| LoopDetector.VerdictMatchesScan | loop/mem_loop_detector.go:104-178 | every verdict is the one a direct scan of the run's events since Forget gives; llm_call and unknown events have no effect |
| LoopDetector.VerdictExactly | loop/mem_loop_detector.go:104-178 | for hashes without a bar: a tool call is judged repeated iff the last `threshold` calls and thoughts of the run since Forget are calls of the same tool with the same hash; a thought explodes iff the last `threshold` are thoughts; no progress iff the last non-empty hashes are equal |
| LoopDetector.MistakenExactly | loop/mem_loop_detector.go:107-113 | some other call can pass for a repetition of a call if and only if its name or hash holds a bar |
| Lifecycle.Run.constructor | loop/run_helper.go:15-22 | a pending run with the given budget |
| Lifecycle.Run.Start | loop/run_helper.go:30-41 | allowed from pending only; refused transitions change nothing |
| Lifecycle.Run.Complete | loop/run_helper.go:49-66 | the allowed transition, with end time, or a refusal that changes nothing |
| Lifecycle.Run.Fail | loop/run_helper.go:71-88 | the allowed transition, with end time, or a refusal that changes nothing |
| Lifecycle.Run.Pause | loop/run_helper.go:93-107 | the allowed transition or a refusal that changes nothing |
| Lifecycle.Run.Resume | loop/run_helper.go:113-127 | the allowed transition or a refusal that changes nothing |
| Lifecycle.Run.Cancel | loop/run_helper.go:132-146 | the allowed transition, with end time, or a refusal that changes nothing |
| Lifecycle.TerminalIsFinal | loop/run_helper.go:30-146 | under any command sequence a run has an end time exactly in a terminal state, and nothing changes from the first terminal state on |
| Runner.DispatchTools | loop/runner.go:334-412 | one answer per tool_use block, in order, with its id, saying that the tool is missing, failed or was rejected, all three as errors, or the result as the sanitizer left it; counts them |
| Runner.ObserveCalls | loop/runner.go:241-272 | feeds each block to the detector, passing over those it fails on, until one is judged a loop |
| Runner.CallLLM | loop/runner.go:164-171 | the reply by Complete or Stream, and the queue after it: a call that finds a live context and a response takes it, even if its stream then fails |
| Runner.HandleTools | loop/runner.go:229-279 | dispatch, tool-result message and loop detection, as the tool phase of one turn |
| Runner.HandleReply | loop/runner.go:193-279 | usage accounting, cost check, assistant message, end of run or tool phase |
| Runner.TakeTurn | loop/runner.go:163-279 | the turn from the LLM call on, with a failed or canceled call |
| Runner.RunTurn | loop/runner.go:132-280 | the loop body is one `Iterate`: budget check, context check, counters, turn |
| Runner.Advance | loop/runner.go:132-280 | the loop body leads from a reached state to a reached state |
| Runner.Loop | loop/runner.go:132-288 | the loop ends in a reached state that is done, with that state's run, messages and turns |
| Runner.Execute | loop/runner.go:111-288 | refuses a run that is not pending and leaves run, detector and queue untouched; otherwise ends in a reached, done state of the run's own loop, with one response gone for each turn whose call found one |
| RunnerSafety.LifecycleKept | loop/runner.go:111-288 | in every state of every run no ignored transition error occurred; a finished run is completed, failed or canceled with an end time; a completed one is strictly under its cost and LLM-call caps |
| RunnerSafety.AccountingKept | loop/runner.go:132-280 | turn results are numbered 1..n, LLM calls used equal the current turn, turns used equal the results with a response, tool calls and cost are the sums over the turns |
| RunnerSafety.OvershootOnlyByLastTurn | loop/budget.go:87-163 | turns and LLM calls never exceed positive caps; tool calls and cost only by what the last turn added |
| RunnerSafety.HaltsWithinCap | loop/runner.go:132-280 | for every positive cap n on turns, LLM calls or tool calls, the loop is done after n + 1 iterations |
| RunnerSafety.TerminationExactly | loop/budget.go:87-163 | Execute ends for all providers, tools, contexts and clocks if and only if one of those three caps is positive |
| RunnerDialogue.ConversationKept | loop/runner.go:211-239 | the messages are the initial history, then alternating assistant and tool-result messages, each result answering the block at its position with its id; tool calls used equal the number of answers |
| RunnerDialogue.CompletedNeverRepeats | loop/runner.go:241-272 | a completed run with a detector never dispatched `threshold` (three by default) equal consecutive calls, for contexts that stay done |
| RunnerEquivalence.SameRepliesSameRun | loop/runner.go:111-288 | providers whose replies differ only in block arrangement drive a run through the same states |
| RunnerEquivalence.RepliesAgreeExactly | loop/runner.go:164-171 | for a response with a stop reason, of text and tool calls with names and inputs, Complete and Stream reply alike if and only if the context does not end before the stream's message.end |
| RunnerEquivalence.StreamingChangesNothing | loop/runner.go:111-288 | for every queue of responses of text and tool calls with names and inputs, every chunk size, tool set, detector, clock, budget and history, and every context that does not end while a stream is being read (before its message.end), Stream on and off give the same state, counters, turns, detector state and merged messages after any number of turns |
| RunnerEquivalence.ExecutionsAgree | loop/runner.go:111-288 | so two executions of the same new run, streamed and not, end alike, also when the run is canceled or timed out between turns |
| RunnerOutcome.RunTold | loop/runner.go:132-288 | in every run of every new budget, with any provider, tools, context, clock and detector history: every turn results in what caps, context, reply and detector demand; the messages are the initial history, then each reply and the answers to its calls; a run is canceled iff no cap was reached and the context was done at the top of its last turn or its LLM call failed by cancellation, completed iff its last reply is within the cost and LLM-call caps and asks for no tool, and otherwise failed with the error that says why; its end time is that turn's |
| RunnerOutcome.RepeatFoundIsThere | loop/runner.go:241-272 | a run new to the detector that fails for a repeated tool call did dispatch `threshold` calls of the same tool and hash, consecutive among those observed |
| RunnerExecute.ExecuteNew | loop/runner.go:111-288 | Execute on a new run leaves a run, turns and messages for which all of the above holds: no ignored transition, numbered turns and exact counters, caps kept, every tool call answered in place, and the outcome that `RunTold` demands |
| RunnerExecute.ExecuteBothWays | loop/runner.go:111-288 | two Executes of equal new runs over equal queues, streamed and not, under the same hypotheses end with equal counters, states and queues and with turns and messages that are equal once merged |
| RunnerEquivalence.InterruptedStreamPassesForWhole | loop/turn_executor.go:125-137 | the hypothesis on contexts is needed: canceled mid-stream, a run completes with a fragment for its answer |
| Decimal.ValueOfDigits | protocol/frame.go:456-457 | a printed length reads back as itself |
| Framing.FrameReader.constructor | protocol/frame.go:131-135 | a reader at the front of its stream |
| Framing.FrameReader.ReadHeaderLine | protocol/frame.go:266-290 | one CRLF line of at most 8192 bytes, an end of stream, or a malformed line, byte by byte |
| Framing.FrameReader.ReadFrame | protocol/frame.go:157-260 | one frame off the stream with every error case: no or bad length, oversize, truncated body, byte order mark, end of stream, done context |
| Framing.FrameWriter.constructor | protocol/frame.go:339-354 | an open writer with nothing handed over |
| Framing.FrameWriter.Admit | protocol/frame.go:362-383 | the checks of WriteFrame in their order |
| Framing.FrameWriter.Push | protocol/frame.go:391-397 | hands the frame over, gives up when the context ends first, or panics if the writer closed after the check |
| Framing.FrameWriter.WriteOne | protocol/frame.go:451-471 | writes the two headers, the blank line and the body; an empty type becomes the canonical one |
| Framing.FrameWriter.DrainOne | protocol/frame.go:433-439 | writes the frame handed over first |
| Framing.FrameWriter.Close | protocol/frame.go:416-427 | closes once and drains everything handed over, in order |
| FramingRoundTrip.ReadFrameIsClean | protocol/frame.go:157-260 | from any bytes, a frame that is read has a trimmed CR-free type and no byte order mark |
| FramingRoundTrip.RoundTripExactly | protocol/frame.go:451-471 | an accepted frame, followed by anything, is read back as itself with its type spelled out, if and only if the type has no space character, ASCII or Unicode, at either end, is CR-free and at most 8178 bytes, and the body has no byte order mark |
| FramingRoundTrip.StreamRoundTripExactly | protocol/frame.go:157-300 | for every list of accepted frames, reading the concatenation gives those frames in order and a clean end, if and only if all are readable |
| FramingRoundTrip.CleanEndExactly | protocol/frame.go:174-186 | a clean end is reported exactly when the stream ends inside its first header line |
| FramingHeaders.HeaderExactly | protocol/frame.go:194-217 | a header line without colon, or with a length that is no number or negative, is a parse error, a length over 16 MiB too large; a length or type replaces the one before, its key in whatever letters; any other header is ignored |
| FramingHeaders.BadHeaderEnds | protocol/frame.go:194-210 | in any header block the first bad line decides the error, whatever follows |
| FramingHeaders.LengthIsNeeded | protocol/frame.go:220-223 | a block of good lines without a length is a parse error |
| FramingHeaders.GoodHeadersRead | protocol/frame.go:194-257 | a block of good lines gives the frame of its last length and last type, among whatever other headers; or a truncated body, or the refusal of a byte order mark |
| FramingHeaders.LineExactly | protocol/frame.go:266-289 | a line ends at its first CR, which LF must follow, within 8192 bytes; otherwise it is malformed or the stream ended |
| FramingHeaders.WrittenBlock | protocol/frame.go:451-471 | what is written is such a block of length and type, and the body |
| FramingRoundTrip.WriterKeepsOrder | protocol/frame.go:362-439 | in every interleaving of pushes, writer rounds and Close, bytes written plus frames pending are the pushed frames in order, and nothing is pending after Close |
| FramingRoundTrip.PushedIsRead | protocol/frame.go:157-471 | the peer of a closed writer reads exactly the pushed frames and a clean end, if and only if all are readable |
| RpcWindow.IdInjective | protocol/rpc.go:354-357 | different sequence numbers give different ids |
| RpcWindow.CallMoves | protocol/rpc.go:281-322 | each step of a Call keeps its request and its number, given once; it holds its slot until released and its waiter from registering to clearing |
| RpcWindow.SlotsNext | protocol/rpc.go:410-432 | every step keeps slots equal to the calls that hold one, within the window, and never takes the empty branch of releaseSlot |
| RpcWindow.WaitersNext | protocol/rpc.go:392-406 | every step keeps each waiter under the id of its own registered, uncleared call |
| RpcWindow.NumbersNext | protocol/rpc.go:354-357 | every step keeps numbers distinct and at most the sequence counter |
| RpcWindow.ResponsesNext | protocol/rpc.go:542-567 | every step keeps own-prefixed responses equal to placed plus stale plus the one in delivery |
| RpcWindow.WaitersFit | protocol/rpc.go:392-432 | registered waiters never outnumber slots held |
| RpcWindow.WindowKept | protocol/rpc.go:217-432 | in every interleaving of calls, cancellations, arbitrary inbound messages and Close: waiters <= slots <= 32 or 64, releaseSlot's empty branch never taken, responses conserved, ids never repeated and with the prefix of their role |
| RpcSystem.EndpointGrows | protocol/rpc.go:281-322 | no step ever takes back a sent request, a number, a task or a response |
| RpcSystem.LogKept | protocol/rpc.go:361-386 | every message on a pipe is a notification, the request of one sent call or the response of one task, and no two requests share an id |
| RpcSystem.ReadStarted | protocol/rpc.go:519-610 | every task was started by one message of the peer, with its id, method and params, and no message starts two |
| RpcSystem.ResponseGenuine | protocol/rpc.go:542-567 | a response that finds a waiter is the peer's answer to that waiter's call |
| RpcSystem.OutcomeComesFrom | protocol/rpc.go:303-321 | what a call has or returns was delivered to it, or was put there by Close |
| RpcSystem.SystemKept | protocol/rpc.go:252-610 | all of this holds of both endpoints in every interleaving over loss-free FIFO pipes |
| RpcSystem.HandledAtMostOnce | protocol/rpc.go:519-610 | in every interleaving request ids are never reused, each message starts at most one handler, with its method and params, and no two handlers run for one request id |
| RpcNothingLost.CallsAfter | protocol/rpc.go:281-322 | after any step each call is as it was except for a fuller channel, moved by its own step, or new |
| RpcNothingLost.ListedNext | protocol/rpc.go:392-406 | until Close, every registered call has its waiter in the table |
| RpcNothingLost.PostedNext | protocol/rpc.go:361-386 | every sent call has its request in the log |
| RpcNothingLost.RequestTaken | protocol/rpc.go:574-610 | every request that is read starts a task |
| RpcNothingLost.RepliedNext | protocol/rpc.go:613-655 | every task that responded has its response in the log |
| RpcNothingLost.AnswerNoticed | protocol/rpc.go:542-567 | an answer that is read for a registered call of an open endpoint is on its way to its channel |
| RpcNothingLost.AlwaysSane | protocol/rpc.go:252-655 | all of this holds of both endpoints in every interleaving |
| RpcNothingLost.NoCallIsLost | protocol/rpc.go:281-322 | in every interleaving a waiting Call of an endpoint that has not closed has its request unread on the pipe, or exactly one task of the peer serves it; if that task responded, its response is unread, in delivery or in the Call's channel |
| RpcCauses.AnswerHasCause | protocol/rpc.go:574-610 | in every interleaving a task's answer is what its handler returned in a step of this task, result or error; without handler it is the method-not-found error; which of the two was decided when the request was read; a notification is never answered |
| RpcCauses.HandlerSettles | protocol/rpc.go:588-609 | from the step in which a handler returns, its task carries exactly that outcome for ever, or is over |
| RpcCauses.CallHasCause | protocol/rpc.go:281-322 | in every interleaving a Call asks for the method and params it was made with, and returns for the step that makes it: an outcome in its channel, a failed send, its context, or the shutdown |
| RpcCauses.CallReturnsItsAnswer | protocol/rpc.go:281-322 | in every interleaving a Call that returns other than by Close returns what exactly one task of the peer answered for this Call's id, method and params, and that is what the task's handler returned, result or error, or the method-not-found error if there was no handler |
| RpcCauses.CloseErrorIsOwn | protocol/rpc.go:252-271 | only a Call whose own endpoint was closed returns the error of Close |
| RpcCauses.CrashHasCause | protocol/frame.go:391-397 | an endpoint has crashed if and only if a frame was handed to its closed writer; a Call that did so had found the writer open |
| RpcCauses.CloseWakes | protocol/rpc.go:252-267 | in every interleaving Close gives every waiting Call something to return, and leaves what is in its channel |
| RpcCauses.FetchExactly | protocol/rpc.go:519-567 | in every interleaving reading a message does exactly what its kind says: peer request or notification, own response with or without waiter, anything else |
| RpcCauses.NotificationHasCause | protocol/rpc.go:327-329 | every notification on a pipe was sent by a Notify with its method and params |
| RpcProgress.Drain | protocol/rpc.go:480-512 | from every reachable state an endpoint whose reader has not been stopped can read all its peer has written, touching nothing but channels and new tasks |
| RpcProgress.TaskCanRespond | protocol/rpc.go:584-655 | a task that has not given up can respond while the writer is open, with any result if its handler is still running and is not the built-in one for `$/cancelRequest` |
| RpcProgress.WaitingCallCanReturn | protocol/rpc.go:281-322 | from every reachable state a waiting Call, other than of `$/cancelRequest`, of an endpoint that has not closed, whose peer still reads and writes and has not given up on it, returns in some continuation what a task of the peer answered, not the error of Close; any result if its handler has not finished |
| RpcProgress.NewCallCanReturn | protocol/rpc.go:281-322 | from every reachable state with both ends reading and writing, a free slot and a registered handler, for every method but `$/cancelRequest`, all params and every result some continuation makes a new Call return that result |
| WireErrors.New | errors/new.go:44-128 | applies the options in order over the registry defaults, or over the unknown code with the requested one in its detail, then stamps the fingerprint; no option changes code, retryability or time |
| WireErrors.WrapCause | protocol/errors.go:197-205 | the cause rebuilt from its envelope, field by field |
| WireErrors.WrapRpcError | protocol/errors.go:161-209 | the option list it collects builds exactly the error described by `Received`, field by field; nil stays nil |
| WireErrors.DataSettings | protocol/errors.go:178-206 | the options taken from a decoded envelope set exactly its fields; an option left out would have changed nothing |
| WireErrors.EncodedFields | protocol/errors.go:271-303 | what the wire error of any error carries: code, class, retryability, fingerprint, message, hint, suggestions and the direct cause, never trace ids |
| WireErrors.SecondTripChangesNothing | protocol/errors.go:161-328 | sending any error, or nil, twice gives the same as once, apart from timestamps and internal-only detail |
| WireErrors.FirstTripKeeps | protocol/errors.go:161-328 | the first trip keeps the code iff registered, the class iff known, the message iff non-empty or the code registered or empty, hint and suggestions always, the direct cause likewise, and cuts deeper causes |
| WireErrors.SanitizerForgetsExactly | errors/otel_hook.go:140-152 | the sanitizer cleans the whole cause chain and identifies two errors if and only if they differ only in internal detail and trace ids; then their wire errors are equal |
| StaleTracker.Tracker.constructor | protocol/heartbeat.go:248-260 | empty and armed; defaults of a minute and ten events |
| StaleTracker.Tracker.Prune | protocol/heartbeat.go:275-280 | in-place compaction keeps exactly the events not before the cutoff, in order |
| StaleTracker.Tracker.Append | protocol/heartbeat.go:281 | appends, growing the buffer when full |
| StaleTracker.Tracker.Observe | protocol/heartbeat.go:267-289 | prune, append, and fire once when the threshold is reached |
| StaleTracker.Tracker.Reset | protocol/heartbeat.go:302-307 | empties the buffer and rearms |
| StaleTracker.BufferIsWindow | protocol/heartbeat.go:267-289 | with a non-decreasing clock the buffer is, after every Observe, exactly the latest observations since Reset that are no older than the window |
| StaleTracker.FiresAtFirstReach | protocol/heartbeat.go:267-307 | the trigger fires at an observation if and only if it is the first since Reset whose `threshold`-th predecessor, counting itself, is no older than the window |
| Diff.FillTable | cmd/diff_preview.go:275-295 | every cell of the table is the length of the longest common subsequence of the two tails |
| Diff.TraceBack | cmd/diff_preview.go:297-318 | the three loops read off the script `Trace`, removals first among equals |
| Diff.FallbackDiffLines | cmd/diff_preview.go:321-354 | compares line by line at equal positions |
| Diff.DiffLines | cmd/diff_preview.go:267-319 | the script of the right branch; on both it rebuilds the old and the new lines; up to 40000 table cells no script has fewer changes, beyond that exactly the lines at equal positions are kept |
| Diff.CountDiffOps | cmd/diff_preview.go:356-366 | added and removed are the new and old lines that are not kept |
| Diff.TraceRebuilds | cmd/diff_preview.go:297-318 | on the table branch ' ' and '-' rebuild the old file, ' ' and '+' the new one |
| Diff.PairedRebuilds | cmd/diff_preview.go:321-354 | the same on the fallback branch |
| Diff.PairedKeepsInPlace | cmd/diff_preview.go:341-352 | the fallback keeps exactly the lines that stand at the same position in both files |
| Diff.TraceRemovesFirst | cmd/diff_preview.go:298-318 | on the table branch no line is added right before one is removed |
| Diff.LcsIsLongest | cmd/diff_preview.go:275-295 | no common subsequence of two files is longer than the table says |
| Diff.KeptIsCommon | cmd/diff_preview.go:356-366 | what any script keeps is a common subsequence, and its changes are all other lines |
| Diff.TraceIsMinimal | cmd/diff_preview.go:275-318 | the kept lines are a longest common subsequence, and no script between the two files has fewer added plus removed lines |
| Excerpt.FindWindow | cmd/diff_preview.go:384-408 | the window starts at the line before the first change and has the limit, or one more to not end in a change |
| Excerpt.StartLines | cmd/diff_preview.go:410-423 | line numbers count the lines of each file before the window |
| Excerpt.ShowLines | cmd/diff_preview.go:430-449 | lines, their numbers and the two counts |
| Excerpt.ExcerptDiffOps | cmd/diff_preview.go:379-458 | the hunk of the window, or an empty one without room, ops or changes |
| Excerpt.HunkIsExact | cmd/diff_preview.go:379-458 | for every op list with a change and every limit: starts and counts cut exactly the shown lines out of both files, every line stands at its number, at most limit + 1 lines, truncated is false iff every change is shown; a change is shown iff the limit exceeds one or the diff begins with a change |
| HashChain.AuditLog.constructor | security/hash_chain_audit.go:39-41 | an empty chain with the empty tail |
| HashChain.AuditLog.Emit | security/hash_chain_audit.go:44-77 | appends iff the event is there, names no predecessor or the tail, and its payload encodes; the row keeps all fields of the event, hangs on the tail and carries the digest of its separated fields in their order; a mismatch iff it names another predecessor; a rejection leaves log and tail unchanged, and a failed hash leaves PrevHash in the caller's event |
| HashChain.AuditLog.Verify | security/hash_chain_audit.go:82-110 | succeeds if and only if every row points at the one before and carries its own hash; otherwise names the first row that does not |
| HashChain.LogIsTaken | security/hash_chain_audit.go:44-77 | after every run of Emits the log is, row by row, the acceptable events, each recorded on the row before |
| HashChain.EveryRunVerifies | security/hash_chain_audit.go:44-110 | after every run of Emits, accepted or rejected, the chain verifies |
| HashChain.BytesGivePrev | security/hash_chain_audit.go:134-155 | equal canonical bytes mean equal PrevHash, payload bytes and head |
| HashChain.TailDeterminesHistory | security/hash_chain_audit.go:82-179 | two verified chains with the same last SelfHash have the same length and canonical bytes row by row, for a non-empty hex digest without collision among their rows and separator-free payloads |
| HashChain.FieldsRecoverableExactly | security/hash_chain_audit.go:134-155 | the bytes of an event determine its fields if and only if none of its four free-text fields contains the separator |
| HashChain.TailDeterminesRows | security/hash_chain_audit.go:82-179 | hence two verified chains with the same last SelfHash, one of them with separator-free fields, agree row by row on all fields, both hashes and the payload bytes |
| UsageLedger.MemLedger.constructor | persistence/mem_usage_ledger.go:32-40 | an empty ledger and index |
| UsageLedger.MemLedger.Record | persistence/mem_usage_ledger.go:47-76 | rejects nil, keyless and canceled records; otherwise adds the record iff its key is new, and keeps the index exact |
| UsageLedger.FileLedger.constructor | persistence/file_store.go:300-303 | a ledger over the rows of the database |
| UsageLedger.FileLedger.Record | persistence/file_store.go:305-320 | the scan adds the record iff it has no key or its key is new; a failed flush is reported and leaves the added row in memory |
| UsageLedger.SumRows | persistence/mem_usage_ledger.go:82-104 | the aggregate row is the sum over the run's rows |
| UsageLedger.SumOfOne | persistence/mem_usage_ledger.go:93-102 | a row adds its own five figures to its run and nothing to others |
| UsageLedger.SumAddsUp | persistence/mem_usage_ledger.go:93-102 | the sum over two lists of rows is the two sums, figure by figure |
| UsageLedger.ChargedOncePerKey | persistence/mem_usage_ledger.go:47-104 | for every keyed history with any duplicates, Sum is the sum over the first record of each distinct key |
| UsageLedger.ReplayChangesNothing | persistence/mem_usage_ledger.go:47-76 | replaying any records with keys already seen, in any order and number, changes nothing |
| UsageLedger.LedgersAgreeExactly | persistence/file_store.go:305-320 | the indexed and the scanning ledger hold the same records if and only if every record has a key |
| UsageLedger.SumsAgree | persistence/file_store.go:322-337 | for keyed histories both report the same sums |
| ArtifactStore.ParseRef | persistence/cas.go:53-82 | accepts exactly "sha256/" plus 64 lowercase hex digits and splits it; otherwise names the first fault |
| ArtifactStore.MetaStore.constructor | persistence/mem_artifact_meta.go:28-36 | an empty table |
| ArtifactStore.MetaStore.Put | persistence/mem_artifact_meta.go:46-112 | inserts, or merges: a field that is given replaces the old one, an empty one does not, count and creation time stay; nil, empty reference and done context change nothing |
| ArtifactStore.MetaStore.IncRefCount | persistence/mem_artifact_meta.go:132-147 | one more, or not found |
| ArtifactStore.MetaStore.DecRefCount | persistence/mem_artifact_meta.go:157-178 | one less, not found, or refused at zero |
| ArtifactStore.ByteStore.constructor | persistence/mem_artifact_store.go:34-46 | an empty byte table over the metadata store |
| ArtifactStore.ByteStore.Put | persistence/mem_artifact_store.go:59-104 | known content bumps the count; fresh content writes both tables, or neither when the metadata write fails |
| ArtifactStore.ByteStore.Get | persistence/mem_artifact_store.go:108-124 | the stored bytes, not found, or canceled |
| ArtifactStore.ByteStore.Exists | persistence/mem_artifact_store.go:130-138 | whether the byte table has the reference |
| ArtifactStore.RunKept | persistence/mem_artifact_store.go:59-104 | per reference, in every run: both tables agree, the count is the balance, the bytes are those first put, and the key is the key of the bytes |
| ArtifactStore.TablesAgree | persistence/mem_artifact_meta.go:46-178 | after every run of Put, Inc and Dec both tables have the same keys, each count is Puts plus increments minus successful decrements and never negative, and every key parses |
| ArtifactStore.RowDescribesFirstPut | persistence/mem_artifact_store.go:80-97 | in every run a reference has metadata exactly when its content was put, and it is that of the first Put: type by kind, size, run, caption, tags and time |
| ArtifactStore.GetReturnsPutExactly | persistence/mem_artifact_store.go:108-124 | Get returns exactly what was put for every content put, if and only if no two contents put share a key |
| PlanStore.MemPlanStore.constructor | persistence/mem_plan_store.go:44-52 | an empty store |
| PlanStore.MemPlanStore.Create | persistence/mem_plan_store.go:58-97 | version 1 under the explicit or next id; duplicates of explicit ids, nil and done contexts change nothing |
| PlanStore.MemPlanStore.Update | persistence/mem_plan_store.go:131-187 | appends delta and advances the snapshot iff the plan exists, is not archived and the version is the next one; otherwise nothing changes |
| PlanStore.MemPlanStore.Archive | persistence/mem_plan_store.go:215-230 | marks the plan, or not found |
| PlanStore.MemPlanStore.DeltasFor | persistence/mem_plan_store.go:236-252 | a copy of the journal |
| PlanStore.SnapshotFollowsJournal | persistence/mem_plan_store.go:131-187 | in every run a plan's version is one plus its journal length, journal versions are 2, 3, 4, ... and the snapshot is the last non-empty payload or the initial state |
| PlanStore.CreatedLands | persistence/mem_plan_store.go:80-96 | a Create that succeeds leaves the submitted plan at version 1 with an empty journal |
| PlanStore.WinnerLands | persistence/mem_plan_store.go:166-185 | an Update that wins puts its operation, payload and actor into the journal and its payload, if any, into the state, at the version it named |
| PlanStore.JournalIsWinners | persistence/mem_plan_store.go:131-187 | in every run a plan's journal is, row by row, the Updates that won since its Create, and its state the last non-empty payload they submitted, or the initial one |
| PlanStore.StepContinuesExactly | persistence/mem_plan_store.go:71-78 | from every reachable store a step continues a plan, with its journal, snapshot and origin, if and only if it is not a Create with ID 0 whose next number is that plan's id, or overwrites the plan with its like |
| PlanStore.ZeroIdsNeverOverwrite | persistence/mem_plan_store.go:71-78 | when all Creates use ID 0 that never happens |
| PlanStore.PlansContinue | persistence/mem_plan_store.go:131-230 | without overwriting, between any two points of a run every journal only grows, the snapshot changes only with it, and archived plans stay as they are |
| PlanStore.ArchivedNeverChanges | persistence/mem_plan_store.go:150-154 | when all Creates use ID 0 an archived plan's state, version and journal never change again |
| PlanStore.OneWinnerPerVersion | persistence/mem_plan_store.go:156-164 | at most one Update wins each version of a plan |
| PlanStore.ExplicitIdLosesAPlan | persistence/mem_plan_store.go:71-78 | with an explicit id a plan can be overwritten and a version won twice |

## Left out

- JSON, SHA-256, regular expressions, UTF-8 and wall clocks: values stand for their encodings, digests are functions assumed free of collisions among the contents at hand only, the fingerprint is a function of its inputs, time is a parameter.
- Costs are reals, so floating-point rounding is not modelled; counters and sequence numbers do not wrap at 64 bits.
- The RPC session is modelled on values as a transition system over atomic steps, not as objects updated in place, because its goroutines interleave; cancel functions of `$/cancelRequest` appear as a Call that may be canceled at any time, the reply to a request without handler as a task of its own, and the order in which Close visits waiters is one step.
- RpcSystem: pipes are loss-free and first-in first-out; frames lost when the underlying stream fails are not modelled, and neither are panics on duplicate handler registration.
- RpcSystem: an endpoint may go on reading after `done` is closed, where the code stops after at most one more frame; what holds of all these interleavings holds of the code's. `RpcProgress`, which claims that steps are possible, uses only reads before `done` is closed, and takes the context of the reader to be live.
- Framing.FrameWriter.WriteOne: a failing underlying write, because how many of its bytes then reach the pipe is up to the operating system; the capacity of the writer's channel only delays a push.
- Runner: request building, stream consumers, observers, turn ids and timestamps other than the run's end time, and `Budget.Remaining`: nothing in the loop reads them back.
- Stream.MockProvider.Complete: the request log, which only inspection of the mock reads.
- Stream.MockProvider.Stream: the request log, as for Complete.
- RunnerEquivalence.StreamingChangesNothing: contexts that end while a stream is being read are excluded, because there the replies differ: exactly then, for responses with a stop reason (`RunnerEquivalence.RepliesAgreeExactly`, `RunnerEquivalence.InterruptedStreamPassesForWhole`). Contexts that end anywhere else are covered.
- RunnerOutcome.RunTold: with a detector, content hashes are taken to hold no bar, as hexadecimal digests do not; what the detector does otherwise is in `LoopDetector.VerdictMatchesScan` and `LoopDetector.MistakenExactly`.
- Lifecycle: crash detection and persistence of runs.
- Error construction: observability hooks, `Wrap` of Go errors, and options that never cross the wire. Errors are values, not pointers mutated by options.
- Audit events: payload values are immutable and encode to a text or fail; the sorting of payload keys is part of that encoding, and the snapshot copy is not modelled.
- UsageLedger.FileLedger.Record: the caller keeping the pointer to the appended record.
- File plan store (it has no version check), `ListByRun`, `Get` copies, checkpoints, the file system and garbage collection of artifacts.
- Splitting file contents into lines, colours, labels and the width of line numbers in the diff preview.
- Ping scheduling, sidecar processes, HTTP providers, the command line and the sandbox policy: they act on the operating system and the network.
- `Decide` and `SidecarInstance`: a lookup table and a transition table without a law that relates them to other code.
