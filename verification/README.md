# Verified model of the streaming path and the request converters

lumin-client talks to several model providers. Each provider turns an event stream into chunks, pushes
them into a closable bounded queue, and closes it; the caller reads the queue and accumulates one
response. Two converters prepare requests, and usage rules count against calendar windows. This project
models that logic in Dafny and proves what it is meant to guarantee.

`dafny verify dfyconfig.toml` checks everything.

## What is modelled

**Stream delivery.** `ChanQueue` is the queue as a transition system: one action is one atomic step of
one goroutine (the load of the closed flag, a case of a select, the compare-and-swap, `close(done)`),
and every choice the runtime may make is a run. `QueueCalls` has the methods themselves, each taking
only such steps in program order while others interfere. `StreamDelivery` puts one producer and one
consumer together and proves delivery, progress and termination for every interleaving;
`CancelledDelivery` does so when either side may be cancelled, and `CancelledAnswers` for the three providers.

**Accumulation.** `Accumulator` is the merge on values with closed forms for whole streams,
`ResponseAccumulators` the object that does it in place, over a slice of choices, a usage cell and the
tool-call arrays that it shares with its clones, `RunEvents` the just-finished events, `ToolCallIndex` the
index manager.

**Provider streams.** `GeminiStream`, `CodexStream` and `KiroStream` turn decoded events into chunks;
`GeminiAnswer`, `CodexAnswer` and `KiroAnswer` prove what the caller ends up with, through the
accumulator and through the queue. `StreamChunks` holds what they share.

**Server-sent events.** `Sse` has the two line parsers, `SsePrinter` their inverse, `SseAgreement` the
exact condition under which they agree (sections 9.2.5 and 9.2.6 of the WHATWG HTML Living Standard,
for the subset the code implements).

**Requests.** `GeminiRegroup` is the regrouping of function responses. `KiroPreprocess`, `KiroHistory`
and `KiroRequest` are the stages of the Kiro pipeline and their composition; `KiroContent` tells the whole
request from the messages, `KiroResults` follows the tool results and `KiroOpening` the first entry of the
history; `KiroTools` is the tool list, over `Utf8` (section 4 of RFC 3629).

**Windows.** `UsageWindow` over `Calendar`, the proleptic Gregorian calendar of one fixed offset.

## Where the code and its comments part

The model follows the code. These differences are proved, not only noted:

- ErrQueueClosed is not always final: a Push that passed the fast path before Close can still be
  accepted afterwards (`ChanQueue.ClosedAnswerIsFinalIff`, `ChanQueue.LatePushIsStranded`).
- Response and Clone call their result a deep copy; tool calls are shared
  (`ResponseAccumulators.CopiedToolCallsSurviveIff`, `ResponseAccumulators.CopiedToolCallsCanChange`).
- The final Codex chunk is rejected by the accumulator unless the ids agree
  (`CodexAnswer.StreamAnswersIff`), and reasoning tokens are never accumulated
  (`CodexAnswer.UsageArrivesIff`).
- IsInWindow excludes the very start of a window (`UsageWindow.BoundariesBelongToNoWindow`).
- The history is said to begin with a user entry (`KiroOpening.HistoryBeginsWithUserIff`). The placeholder is
  put in before truncation, so a truncated history may begin with the assistant
  (`KiroOpening.HistoryCanBeginWithAssistant`); and it is not put in when a final assistant message is
  appended to an empty history (current_message_builder.go:30-34), which then begins with that message
  (`KiroOpening.AssistantAloneBeginsHistory`).
- Orphaned results are to be removed and no others; a final assistant message is appended after the
  filter, so a result can be removed although the request declares its tool use
  (`KiroResults.RetainedResultsSurviveIff`, `KiroResults.RetainedResultIsLost`).
- Pending tool results are dropped behind a final assistant message
  (`KiroResults.PendingResultsReachIff`, `KiroResults.PendingResultIsLost`).
- Regrouping a second time can drop responses (`GeminiRegroup.SecondPassIsIdentityIff`,
  `GeminiRegroup.SecondPassCanDiffer`).

## Model

| member | source | states |
|---|---|---|
| `ChanQueue.EveryRunIsSafe` | queue/chan_queue.go:30-106 | In every run, with any number of producers, consumers, closers and cancellations: what Push put in is what Pop took out followed by the buffer, the buffer is within capacity, and `done` is closed only by the one winner of the compare-and-swap. |
| `ChanQueue.DoneIsClosedOnce` | queue/chan_queue.go:97-106 | `close(done)` is never reached twice, so it cannot panic. |
| `ChanQueue.ExactlyOneCloseSucceeds` | queue/chan_queue.go:97-106 | As soon as one Close has reached its compare-and-swap, exactly one Close in the run has won. |
| `ChanQueue.LateAcceptPassedBeforeClose` | queue/chan_queue.go:77-92 | An item accepted after a Close won comes from a Push that passed the fast path before that moment and has waited in its select since. |
| `ChanQueue.ClosedAnswerIsFinalIff` | queue/chan_queue.go:44-51 | When Pop answers ErrQueueClosed, some continuation can still strand an item in the buffer if and only if the queue is buffered and some Push is past its fast path. |
| `ChanQueue.LatePushIsStranded` | queue/chan_queue.go:79-90 | A concrete run in which an accepted item is never received although the reader was told that the queue is closed. |
| `QueueCalls.Channel.Push` | queue/chan_queue.go:77-92 | Among arbitrary other goroutines, Push returns nil exactly if this call put the item in, which it does once and as its last step; each error names the step that caused it; it blocks only where its last look finds no case ready. |
| `QueueCalls.Channel.Pop` | queue/chan_queue.go:30-54 | Pop hands out exactly the item this call took; ErrQueueClosed comes only from the second select, over an empty buffer and with no sender offered; it blocks only where its last look finds no case ready. |
| `QueueCalls.Channel.Each` | queue/chan_queue.go:57-72 | The callback gets exactly the items this goroutine takes while Each runs, in order; nil is returned exactly if the last step finds the drained end of a closed queue, the context error exactly if that step was cancelled, and a callback error stops at once; otherwise Each still waits in Pop or the given rounds are used up. |
| `QueueCalls.Channel.Close` | queue/chan_queue.go:97-106 | Close returns nil exactly if it won the compare-and-swap, and `done` is closed by then; a loser finds the queue closed. |
| `QueueCalls.CallsAreSafe` | queue/chan_queue.go:30-106 | Whatever methods are called in whatever interleaving, the object keeps the invariant of all runs. |
| `StreamDelivery.EveryScheduleDelivers` | providers/geminicli/sse/stream.go:33-133 | One producer that closes after its last Push and one consumer in Each: in every reachable state accepted, in-flight and unpushed chunks are the produced sequence, and the accumulator has folded what was dequeued. |
| `StreamDelivery.EachReturnsEverything` | queue/chan_queue.go:57-72 | What has been folded is always a prefix of the stream, and when Each returns it is the whole stream. |
| `StreamDelivery.NeverStuck` | queue/chan_queue.go:34-92 | Until both sides have ended some move is possible, and no Push of the stream is ever turned away. |
| `StreamDelivery.EveryMoveIsProgress` | queue/chan_queue.go:30-106 | Every move lowers a natural-number measure of unpushed chunks, buffered chunks and program counters. |
| `StreamDelivery.SchedulesAreBounded` | queue/chan_queue.go:30-106 | A stream of n chunks takes at most 7n + 7 moves, in every schedule. |
| `StreamDelivery.MaximalSchedulesDeliverAll` | queue/chan_queue.go:30-106 | A schedule that cannot be continued has ended both goroutines, emptied the buffer and folded every chunk in order, once. |
| `CancelledDelivery.CancelledStreamsAreCut` | queue/chan_queue.go:34-92 | With either context cancelled at any time, in every interleaving: what the consumer has folded is a prefix of the chunks, followed at most by the final one, if the producer stops at a refused Push, and otherwise what is left when some chunks are left out; when Each returns without an error, it is all that was accepted. |
| `CancelledDelivery.EveryPlayEndsIff` | queue/chan_queue.go:34-106 | A schedule that cannot be continued has ended both sides if and only if the producer is not left behind: uncancelled, at a full buffer, with a consumer that gave up. |
| `CancelledDelivery.StuckIff` | queue/chan_queue.go:34-106 | In any sound state, nothing can move if and only if both sides have ended or the producer is left behind. |
| `CancelledDelivery.PlaysAreBounded` | queue/chan_queue.go:34-106 | Every such schedule is finite, with an explicit bound. |
| `CancelledDelivery.ProducerCanBeLeft` | queue/chan_queue.go:77-92 | A concrete schedule that leaves the producer waiting for ever. |
| `CancelledDelivery.ChunkCanBeLost` | queue/chan_queue.go:83-91 | A concrete schedule in which the only chunk is refused and the final one accepted. |
| `Accumulator.StreamInClosedForm` | providers/accumulator.go:56-76 | After any stream: the response is that of the chunks whose id is empty or the first one given, with its choices merged, its token counts summed (credit the last positive one), and the model, error and completion they give; every rejected chunk left no trace. |
| `Accumulator.ScalarsInClosedForm` | providers/accumulator.go:215-237 | Object type, creation time and fingerprint are the last ones given by the kept chunks, and the response is never partial. |
| `Accumulator.ChoiceSlot` | providers/accumulator.go:127-197 | Text and reasoning of a choice are the concatenations of the increments at its index, role and finish reason the last given, and its tool calls those of the fragments at its index. |
| `Accumulator.ChoiceCount` | providers/accumulator.go:296-306 | There are exactly as many choices as one more than the largest index addressed. |
| `Accumulator.ToolSlot` | providers/accumulator.go:151-171 | Every field of every tool call after any fragments: id, type and name are the last non-empty ones at its index, arguments the concatenation, and untouched gaps stay zero. |
| `Accumulator.ToolCount` | providers/accumulator.go:322-332 | The slice grows to exactly the largest index plus one. |
| `ResponseAccumulators.ResponseAccumulator.AddChunk` | providers/accumulator.go:56-76 | The in-place method does what the value model says, reports whether the ids agree, writes only to its own slice, cell and tool-call arrays, and tells what every tool-call array it had before holds afterwards. |
| `ResponseAccumulators.ResponseAccumulator.GetJustFinishedContent` | providers/accumulator.go:81-86 | The getter returns the content of choice 0 exactly if a content run just ended. |
| `ResponseAccumulators.ResponseAccumulator.GetJustFinishedToolCall` | providers/accumulator.go:91-101 | The getter returns the tool call whose run just ended, if there is one at its index. |
| `ResponseAccumulators.ExpandToolCalls` | providers/accumulator.go:322-332 | Keeps the slice if the index exists, and otherwise makes a fresh one with the old calls in front and zero calls behind. |
| `ResponseAccumulators.ResponseAccumulator.CloneResponse` | providers/response.go:127-159 | Clone makes a new slice with the same choices and a new cell with the same usage; the tool-call arrays are those of the original. |
| `ResponseAccumulators.AddRest` | providers/response.go:127-159 | A caller clones the response and any stream goes on in place: the clone keeps the text of its choices and its usage, because Clone has made the slice and the cell new, while its tool calls, which share their arrays, follow the in-place writes. |
| `ResponseAccumulators.CopiedToolCallsSurviveIff` | providers/response.go:126-133 | Tool calls seen through an earlier copy stay what they were if and only if the fragments that still fit into the shared array say nothing new. |
| `ResponseAccumulators.CopiedToolCallsCanChange` | providers/accumulator.go:103-107 | A method that adds a chunk, clones the response and adds another chunk: the arguments read through the clone have grown, for any texts and against the comment on Response. |
| `RunEvents.EventsAreFinishedRuns` | providers/accumulator.go:253-293 | For streams with at most one choice per chunk, at index 0: the just-finished events are exactly the maximal runs of what the chunks are about (text, a tool call, or neither), but for the open one, each once and in order. |
| `RunEvents.ContentEventIff` | providers/accumulator.go:253-293 | Text is reported as finished exactly at an accepted chunk without text behind one with text. |
| `RunEvents.ToolEventIff` | providers/accumulator.go:253-293 | A tool call is reported as finished exactly at an accepted chunk that is not about it behind one that is, and it is the call with that index. |
| `RunEvents.FinishedContentIsWhole` | providers/accumulator.go:81-86 | A content event hands out all text accumulated before the chunk that ended the run. |
| `RunEvents.FinishedToolCallIsWholeIff` | providers/accumulator.go:91-101 | A tool event hands out the call as accumulated before the chunk that ended its run if and only if that chunk has no fragment at its index that says anything new. |
| `ToolCallIndex.ToolCallIndexManager.GetToolCallIndex` | providers/kiro/converter/parser/parser.go:51-63 | A known id keeps its index and a new one gets the next: the index is the position in order of first appearance. |
| `ToolCallIndex.FragmentsAreGroupedById` | providers/kiro/converter/parser/parser.go:51-63 | Fragments numbered by the manager and merged by the accumulator are exactly the group-by on tool-use id in first-appearance order, arguments concatenated per id. |
| `ToolCallIndex.NumberedCallsStayApart` | providers/accumulator.go:151-171 | Calls numbered 0, 1, 2, ... as the Gemini and Codex streams number them become separate tool calls, unchanged. |
| `StreamChunks.PiecesAddUp` | providers/accumulator.go:116-249 | The chunks of text, reasoning and numbered calls accumulate to their concatenations and to call k as tool call k. |
| `StreamChunks.ChunksAre` | providers/geminicli/sse/stream.go:104-130 | Field by field: the chunks of a stream are partial and stamped by the invocation, the final one is done and carries usage, error and reason. |
| `StreamChunks.FinalAddsUp` | providers/accumulator.go:119-124 | The final chunk completes the response with usage, error and finish reason if no id stands against its own, and otherwise leaves no trace. |
| `StreamChunks.DeliveredIsAccumulated` | providers/kiro/kiro_provider.go:62-89 | In every interleaving, what GenerateContent has accumulated when Each returns is what the chunks add up to in order. |
| `StreamChunks.EveryStreamArrives` | providers/kiro/kiro_provider.go:62-89 | When nothing can move any more both goroutines have ended and every chunk has been accumulated. |
| `GeminiStream.StreamProcessor.ConvertPart` | providers/geminicli/sse/stream.go:136-211 | One part becomes a thought, text or call chunk, or none; only a call draws an index and a running number. |
| `GeminiStream.StreamProcessor.Process` | providers/geminicli/sse/stream.go:33-133 | The chunks pushed for any events are those of the first candidates' parts up to the first API error, numbered across events, then one final chunk with the last positive counts, last reasons and the error. |
| `GeminiAnswer.CallsAreNumbered` | providers/geminicli/sse/stream.go:166-190 | The k-th function call of the parts is call k of the stream. |
| `GeminiAnswer.StreamAnswers` | providers/geminicli/sse/stream.go:33-133 | The accumulated response says all text and thoughts of the first candidates in order, the k-th call as tool call k, and has the last positive counts, the mapped finish reason, the error and the model version of what was heard. |
| `GeminiAnswer.FinalCounts` | providers/geminicli/sse/stream.go:88-101 | The final counts are the last positive ones reported, with their sum if no total was. |
| `GeminiAnswer.HeardUpToFirstError` | providers/geminicli/sse/stream.go:45-52 | The events up to the first API error are heard. |
| `GeminiAnswer.ReasonIsMapped` | providers/geminicli/sse/stream.go:214-231 | Tool calls go first; otherwise a reason is mapped by the words it spells in either case, and an unknown one is an ordinary end. |
| `GeminiAnswer.EveryDeliveryAnswers` | providers/geminicli/sse/stream.go:33-133 | The same for what the consumer holds when Each returns, in every interleaving, over a queue of any capacity; what GenerateContent forces afterwards changes only the object type. |
| `CancelledAnswers.CancelledGeminiAnswers` | providers/geminicli/sse/stream.go:83-132 | Whichever context is cancelled, the accumulated response is that of the stream with some chunks left out: the processor ignores what Push returns. |
| `GeminiAnswer.CallIdsAreDistinct` | providers/geminicli/sse/stream.go:175-177 | No two tool calls of one processor share an id, whatever names and clock readings go into it. |
| `Text.NumberReads` | providers/geminicli/sse/stream.go:51 | A negative number is the minus sign and the digits of its opposite. |
| `Text.DecimalReads` | providers/geminicli/sse/stream.go:175-177 | Reading the decimal digits of a number gives the number, and there is no leading zero. |
| `GeminiAnswer.FinishReasonsAreKnown` | providers/geminicli/sse/stream.go:214-231 | The mapping yields one of five reasons, "tool_calls" exactly if there was a call, and does not mind the case. |
| `CodexStream.ProcessOutputItemDone` | providers/codex/sse/stream.go:244-346 | A finished item becomes one chunk with the joined texts of the right type, or a call with the next index, or nothing. |
| `CodexStream.Process` | providers/codex/sse/stream.go:35-240 | For any events, any point at which Push starts to fail and any read error: the chunks taken, and the final chunk with last reported usage, server model, upstream id, finish reason and the error that ended the stream. |
| `CodexAnswer.MadeSays` | providers/codex/sse/stream.go:58-193 | The pushed pieces carry all deltas and item texts in order, and the k-th function-call item is call k. |
| `CodexAnswer.StreamAnswersIff` | providers/codex/sse/stream.go:222-234 | Usage, finish reason, error and completion reach the accumulated response if and only if nothing was pushed before, or one of the ids is empty, or the upstream id is the invocation's. |
| `CodexAnswer.UsageIsLost` | providers/codex/sse/stream.go:232-234 | A concrete stream whose reported usage never reaches the accumulated response. |
| `CodexAnswer.FinalUsageIs` | providers/codex/sse/stream.go:135-157 | The final counts are those of the last usage reported, with their sum for a missing total, and the last cached and positive reasoning counts. |
| `CodexAnswer.FinishReasonIs` | providers/codex/sse/stream.go:197-206 | The reason is "tool_calls" exactly if some event was a finished function call. |
| `CodexAnswer.CompletedIsStamped` | providers/codex/sse/stream.go:217-234 | A completed response names the model the server last named, or the one asked for, and the id of the invocation or else the upstream one. |
| `CodexAnswer.HeardUpToFirstStop` | providers/codex/sse/stream.go:159-193 | The events up to the first failed or incomplete response or the first refused chunk are heard. |
| `CodexAnswer.StreamErrorIs` | providers/codex/sse/stream.go:159-196 | The stream ends with the error told by its last event, or that of a refused Push, or of reading. |
| `CodexAnswer.FailureIsTold` | providers/codex/sse/stream.go:349-420 | Each known error code has its text, with the message or a stand-in for none, and the delay of a rate limit. |
| `CodexAnswer.UsageArrivesIff` | providers/codex/sse/stream.go:213-234 | The usage the stream ends with is that of the accumulated response if and only if the ids agree and no reasoning tokens were reported. |
| `CodexAnswer.MessageSays` | providers/codex/sse/stream.go:255-333 | Whether the final chunk is accepted or not, the accumulated message says exactly what the queue took: everything heard if no Push was refused, the beginning of it otherwise. |
| `CodexAnswer.EveryDeliveryAnswersIff` | providers/codex/sse/stream.go:35-240 | In every interleaving, when Each returns, the response has its usage and finish reason, and what GenerateContent forces afterwards changes only the object type, if and only if the ids agree. |
| `CancelledAnswers.CancelledCodexAnswers` | providers/codex/sse/stream.go:35-240 | Whichever context is cancelled, the accumulated response is that of a beginning of what the processor sends up to the first refused Push; it says only a beginning of what would have been heard, and is done only with the final chunk. |
| `KiroMetadata.ParseMetadataPayload` | providers/kiro/converter/parser/message_metadata_parser.go:116-175 | Nested counts go first if any is positive, direct ones otherwise, cached tokens come from the nested object either way, and nothing is reported if nothing is positive. |
| `KiroMetadata.CountsAreNotNegative` | providers/kiro/converter/parser/message_metadata_parser.go:116-175 | No reported count is ever negative, whatever the upstream sends. |
| `KiroMetadata.UsageIs` | providers/kiro/converter/parser/message_metadata_parser.go:116-175 | Every count is the whole part of the positive number reported for it: of the nested object if that says something, its two input counts together, and of the direct fields otherwise. |
| `KiroStream.ConvertResponse` | providers/kiro/converter/resp_parser.go:17-43 | Each decoded event yields the result of its parser, and every tool use gets the index of its id's first appearance in the stream. |
| `KiroAnswer.ChunkOfEvent` | providers/kiro/converter/resp_parser.go:17-43 | Which events yield a chunk, and its envelope, usage, error, completion and finish reason for each of them. |
| `KiroAnswer.SentIff` | providers/kiro/kiro_provider.go:222-275 | Usage events are kept for the final chunk; every other event that says something is sent, an inline error if it has a message or is sendable. |
| `KiroStream.CollectUsage` | providers/kiro/kiro_provider.go:222-254 | Adding every completion count and then letting positive metadata values replace the sum leaves just the last positive value. |
| `KiroStream.HandleStreamEvent` | providers/kiro/kiro_provider.go:171-306 | For any events and any point at which Push starts to fail: the chunks taken, and the final chunk with the last positive counts, the finish reason by its three priorities, and the error that ended the loop. |
| `KiroAnswer.FinalCounts` | providers/kiro/kiro_provider.go:188-290 | Completion, prompt and cached counts are the last positive ones of the metadata events, or 0 and the estimate; the total is the last positive one reported, or the sum; the credit is the last one. |
| `KiroAnswer.FinishReasonIs` | providers/kiro/kiro_provider.go:256-285 | The final reason is the last one an event gave, or else tells whether some event brought a tool call. |
| `KiroAnswer.StopReasonsAreTranslated` | providers/kiro/converter/parser/message_stop_parser.go:64-80 | Each of the caller's reasons stands for exactly these reasons of the service; unknown ones pass. |
| `KiroAnswer.HeardUpToFirstStop` | providers/kiro/kiro_provider.go:195-275 | The loop hears the events up to the first error with a message or the first refused Push. |
| `KiroAnswer.LoopErrorIs` | providers/kiro/kiro_provider.go:195-275 | The loop ends with that error, with the decoder's, or, behind a refused Push, with none. |
| `KiroAnswer.ToolCallsAreGrouped` | providers/kiro/converter/parser/tool_use_parser.go:38-63 | The tool calls of the accumulated response are the group-by of the stream's fragments on their tool-use ids. |
| `KiroAnswer.StreamChoice` | providers/kiro/kiro_provider.go:256-299 | All chunks merge into one choice with the texts of the text events and the thinking of the reasoning events in order, and the final finish reason. |
| `KiroAnswer.StreamUsage` | providers/kiro/kiro_provider.go:288-299 | The accumulated usage is that of the final chunk, which always reaches the response. |
| `KiroAnswer.StreamError` | providers/kiro/kiro_provider.go:175-299 | The accumulated error is the one that ended the loop, or else that of the last inline error event that was sent; the response is not partial. |
| `KiroAnswer.EveryDeliveryAnswers` | providers/kiro/kiro_provider.go:171-306 | In every interleaving, what the consumer holds when Each returns has the stamp of the invocation and the text, reasoning, tool calls, finish reason, usage and error of what was heard; what GenerateContent forces afterwards changes only the object type. |
| `CancelledAnswers.CancelledKiroAnswers` | providers/kiro/kiro_provider.go:171-306 | Whichever context is cancelled, the accumulated response is that of a beginning of what the loop sends up to the first refused Push. |
| `GeminiRegroup.FixToolResponseGrouping` | providers/geminicli/converter/req_builder.go:264-328 | The loops compute the regrouping: newest unanswered message first while reading, oldest first at the end. |
| `GeminiRegroup.CallsAreCounted` | providers/geminicli/converter/req_builder.go:297-302 | The counter ends at the number of places of a content that have a call. |
| `GeminiRegroup.ResponseAt` | providers/geminicli/converter/req_builder.go:274-278 | The collected responses of a content are those at its places that have one, in order. |
| `GeminiRegroup.RegroupConserves` | providers/geminicli/converter/req_builder.go:264-328 | Other contents keep their order, and the emitted responses followed by those kept back are all responses in order. |
| `GeminiRegroup.GroupsAnswerDistinctMessages` | providers/geminicli/converter/req_builder.go:280-308 | Every emitted group has exactly as many responses as an earlier model message of its own has places with a call, and for a message with calls that got no group fewer responses than it has calls are kept back. |
| `GeminiRegroup.TurnsAreGrouped` | providers/geminicli/converter/req_builder.go:273-310 | If every calling message is followed by its single-response messages before the next one, each turn gets one group at its last response. |
| `GeminiRegroup.TextBesideCallIsGrouped` | providers/geminicli/converter/req_builder.go:297-302 | A message with a thought, a text and one call is grouped with its one response: only the places that have a call ask for responses. |
| `GeminiRegroup.SecondPassInTurn` | providers/geminicli/converter/req_builder.go:273-310 | For such conversations a second pass changes nothing. |
| `GeminiRegroup.LoopOutputIsStable` | providers/geminicli/converter/req_builder.go:273-310 | What the loop puts out before the tail is handed out is never changed by another pass. |
| `GeminiRegroup.SecondPassIsIdentityIff` | providers/geminicli/converter/req_builder.go:280-325 | A second pass changes nothing if and only if the groups of the tail, which serves the oldest message first, replay newest message first; the numbers of calls and responses per content decide that. |
| `GeminiRegroup.SecondPassCanDiffer` | providers/geminicli/converter/req_builder.go:280-325 | A concrete conversation of single-response contents on which a second pass drops a response. |
| `KiroPreprocess.PreprocessMessages` | providers/kiro/converter/builder/preprocess_builder.go:24-103 | The loop over the last merged message computes the merge of the conversation without a trailing "{" message. |
| `KiroPreprocess.BraceIsDropped` | providers/kiro/converter/builder/preprocess_builder.go:32-48 | Exactly a final assistant message that is just an opening brace, in its content or its first part, is dropped. |
| `KiroPreprocess.MergedIsSeparated` | providers/kiro/converter/builder/preprocess_builder.go:50-102 | No two neighbours of the result have the same role, unless it is the tool role. |
| `KiroPreprocess.MergingIsIdempotent` | providers/kiro/converter/builder/preprocess_builder.go:50-102 | Merging the result again changes nothing. |
| `KiroPreprocess.ToolMessagesPass` | providers/kiro/converter/builder/preprocess_builder.go:58-61 | Every tool message comes through unmerged and in order. |
| `KiroPreprocess.MergedRunByRun` | providers/kiro/converter/builder/preprocess_builder.go:50-102 | The result has one message for each maximal run of the conversation. |
| `KiroPreprocess.RunsAreMaximal` | providers/kiro/converter/builder/preprocess_builder.go:57-61 | The runs put together are the conversation; each has one role, and more than one message only if that is not the tool role; no two neighbours could be one run. |
| `KiroPreprocess.RunsAreUniqueIff` | providers/kiro/converter/builder/preprocess_builder.go:57-61 | Any cut of the conversation with these properties is that into its runs. |
| `KiroPreprocess.MergeKeepsWhatIsSaid` | providers/kiro/converter/builder/preprocess_builder.go:63-99 | Each merged message says what its run says: plain texts joined by one newline, everything else part by part, in order; all else is that of the first message of the run. |
| `KiroHistory.BuildHistoryUserMessage` | providers/kiro/converter/builder/history_builder.go:124-203 | Text, images or their omitted count, tool result and fallback of a history user message. |
| `KiroHistory.BuildAssistantMessage` | providers/kiro/converter/builder/history_builder.go:205-278 | Text with its thinking, fallback and the tool uses of the recognised types. |
| `KiroContent.UserIsSaid` | providers/kiro/converter/builder/history_builder.go:124-203 | A history user message says its text parts in order and a note on its images if they are not kept, and shows the convertible ones if they are. |
| `KiroContent.AssistantIsSaid` | providers/kiro/converter/builder/history_builder.go:205-278 | A history assistant message says its thinking in tags and its text, or a dot, and declares its recognised calls in order. |
| `KiroHistory.BuildHistory` | providers/kiro/converter/builder/history_builder.go:31-121 | The stage computes the filtered, truncated history and the results that no message carried. |
| `KiroHistory.FilterOrphanedToolResults` | providers/kiro/converter/builder/history_builder.go:291-326 | The filter computes the history whose results all have a declared tool use. |
| `KiroHistory.ToolResultsAreConserved` | providers/kiro/converter/builder/history_builder.go:47-99 | Before truncation and filtering, the history's results followed by the pending ones are exactly the tool messages before the last message, each once and in order. |
| `KiroHistory.OrphansAreExactlyRemoved` | providers/kiro/converter/builder/history_builder.go:291-326 | A result of the truncated history survives if and only if a retained assistant entry declares its tool use; survivors keep their order. |
| `KiroOpening.StageBeginsWithUserIff` | providers/kiro/converter/builder/history_builder.go:101-117 | Behind earlier entries, what the history stage leaves begins with a user entry if and only if it has at most 50 entries before truncation, or the cut falls on a message of the user, or on the tool results before a message of the assistant. |
| `KiroOpening.HistoryBeginsWithUserIff` | providers/kiro/converter/builder/current_message_builder.go:30-34 | The non-empty history of any request begins with a user entry if and only if some entry precedes the last message and the cut, if there is one, falls on a message of the user or on the tool results before one of the assistant. |
| `KiroOpening.HistoryCanBeginWithAssistant` | providers/kiro/converter/builder/history_builder.go:101-117 | A concrete conversation of 26 turns whose history begins with the assistant. |
| `KiroOpening.AssistantAloneBeginsHistory` | providers/kiro/converter/builder/current_message_builder.go:30-34 | A concrete conversation of one assistant message, whose request has a history of just that message. |
| `KiroRequest.DeduplicateToolResults` | providers/kiro/converter/builder/helpers.go:100-110 | Keeps the first result of each id. |
| `KiroRequest.DedupIsDistinct` | providers/kiro/converter/builder/helpers.go:100-110 | The kept results have distinct ids, the same set of ids, and come from the input. |
| `KiroRequest.BuildContext.BuildCurrentStage` | providers/kiro/converter/builder/current_message_builder.go:21-108 | The stage turns the last message, the trailing tool run and the pending results into the current message and ends the history with the assistant. |
| `KiroRequest.BuildContext.Assemble` | providers/kiro/converter/builder/assembler.go:22-91 | The assembled request is that of the stage results: prompt wrapped around the content, filtered distinct results, tools. |
| `KiroRequest.ConvertRequest` | providers/kiro/converter/req_builder.go:14-46 | The pipeline of all five stages over the shared context and the assembly compute the conversion, with its error and filtered-out cases. |
| `KiroContent.ConversionIs` | providers/kiro/converter/req_builder.go:14-46 | Nothing is asked of no messages, nothing is sent for system messages alone, and otherwise the request is that of the merged other messages, with the prompt made of the hints and the system texts and with the usable tools. |
| `KiroContent.CurrentMessageSays` | providers/kiro/converter/builder/current_message_builder.go:71-101 | The current message says the text of the last message, its parts in order, behind the wrapped prompt; for an assistant or tool message, or no text, a fixed one; it shows the convertible images of a last message that is neither. |
| `KiroContent.CurrentResultsAre` | providers/kiro/converter/builder/current_message_builder.go:48-69 | The current results are the first of each id among the tool messages since the last user or assistant message, a final one included, as far as the history declares their uses, and none behind the assistant. |
| `KiroContent.HistoryInClosedForm` | providers/kiro/converter/builder/history_builder.go:31-121 | The history, entry by entry: for each earlier message its words, images, tool uses and the results that waited for it, opened by a placeholder, the last 50 of them, results without a declared use left out, closed by the assistant. |
| `KiroContent.HistoryIsStamped` | providers/kiro/converter/builder/history_builder.go:31-121 | Every user entry names the model of the request and its origin, and has a context only for its results. |
| `KiroRequest.EveryBuiltRequestIsConsistent` | providers/kiro/converter/req_builder.go:14-46 | For every conversation and every tool list: history results refer to declared tool uses, current results are distinct and declared whenever any use is, history has at most 51 entries and ends with the assistant, no content is blank, and there are tools, each within the limits. |
| `KiroResults.RetainedResultsSurviveIff` | providers/kiro/converter/builder/current_message_builder.go:30-34 | In the request, exactly those results of the truncated history survive whose tool use the history declares, unless the last message is the assistant's and declares a use that some of them name and no earlier entry declares. |
| `KiroResults.RetainedResultIsLost` | providers/kiro/converter/builder/current_message_builder.go:30-34 | A concrete conversation whose request declares a tool use in its history and has lost the result of that use. |
| `KiroResults.KnownCommutesWithDedup` | providers/kiro/converter/builder/assembler.go:69-70 | Filtering by known ids and removing repeats commute. |
| `KiroResults.TrailingToolsReachTheRequest` | providers/kiro/converter/builder/current_message_builder.go:48-69 | Behind a final tool message, the current results are the admitted, distinct results of the tool messages since the last user or assistant message, though the scans overlap. |
| `KiroResults.RunIsTail` | providers/kiro/converter/builder/current_message_builder.go:50-53 | Without messages of unknown role, the tool messages since the last user or assistant message are exactly the re-scanned trailing run. |
| `KiroResults.OverlapIsHarmless` | providers/kiro/converter/builder/current_message_builder.go:48-69 | Removing repeats from the pending results followed by the re-scanned run leaves what it leaves of the run alone. |
| `KiroResults.PendingToolsReachTheRequest` | providers/kiro/converter/builder/current_message_builder.go:65-69 | Behind a final user message, the pending results are the current results, admitted and distinct. |
| `KiroResults.PendingResultsReachIff` | providers/kiro/converter/builder/current_message_builder.go:30-69 | Every admitted result since the last user or assistant message before the final one reaches the request if and only if the final message is not the assistant's, or each of them also stands in the filtered history. |
| `KiroResults.DistinctResultsReachIff` | providers/kiro/converter/builder/current_message_builder.go:30-69 | If every tool message names a call of its own, they reach it if and only if the final message is not the assistant's or there are none. |
| `KiroResults.PendingResultIsLost` | providers/kiro/converter/builder/current_message_builder.go:30-34 | A concrete conversation with a final assistant message whose only tool result, though its use is declared, stands nowhere in the request. |
| `KiroResults.ShortHistory` | providers/kiro/converter/builder/history_builder.go:31-121 | Up to 25 messages nothing is truncated: the history declares all earlier tool uses and holds all earlier results but the pending ones. |
| `KiroTools.BuildKiroTools` | providers/kiro/converter/builder/tools_builder.go:43-97 | The loops compute the usable tools with their shortened names and cut descriptions, or the placeholder. |
| `KiroTools.ToolsAreSent` | providers/kiro/converter/builder/tools_builder.go:43-97 | Each tool with a name that does not spell web search, in either case, is sent, in order, with its name abbreviated over 64 bytes and its description, or the note of its name, cut over 10237 bytes; without any there is the placeholder. |
| `KiroTools.BlankIsSpaces` | providers/kiro/converter/builder/tools_builder.go:68-73 | A description counts as blank only if it is the UTF-8 encoding of a text of white space. |
| `KiroTools.SpacesAreBlank` | providers/kiro/converter/builder/tools_builder.go:68-73 | And every such text counts as blank. |
| `KiroTools.EveryToolIsAcceptable` | providers/kiro/converter/builder/tools_builder.go:43-97 | Whatever tools are given: at least one is sent, each with a name of 1 to 64 bytes and a description that is not blank and has at most 10237 bytes. |
| `KiroTools.CutDescriptionIsSafe` | providers/kiro/converter/builder/tools_builder.go:75-82 | A valid description over the limit becomes valid UTF-8: its longest prefix of at most 10207 bytes that ends between code points, at most three bytes shorter than that, and the suffix. |
| `KiroTools.ShortenedFits` | providers/kiro/converter/builder/tools_builder.go:102-118 | A name never exceeds 64 bytes, changes exactly if it was longer, and keeps an MCP prefix. |
| `KiroTools.McpKeepsLastSegment` | providers/kiro/converter/builder/tools_builder.go:107-115 | A long MCP name whose last segment has at most 59 bytes becomes the prefix and that segment. |
| `KiroTools.ShortenedIsValidIff` | providers/kiro/converter/builder/tools_builder.go:102-118 | Of a valid long name valid UTF-8 remains if and only if the cut at byte 64 does not fall inside a code point. |
| `KiroTools.ShortenedAlikeIff` | providers/kiro/converter/builder/tools_builder.go:102-118 | Two names are sent as one if and only if they are equal, or both are long and agree in their first 64 bytes or, of MCP tools, in the first 59 bytes of their last segments, or one is short and the other is cut to just that. |
| `KiroTools.NamesAreDistinctIff` | providers/kiro/converter/builder/tools_builder.go:43-97 | The names that a request declares are distinct if and only if no two usable tools are sent alike. |
| `KiroTools.ServersCollide` | providers/kiro/converter/builder/tools_builder.go:107-115 | Two different servers with names of at least 57 bytes that offer a tool of the same short name: the request declares one name twice. |
| `KiroTools.SearchCollides` | providers/kiro/converter/builder/tools_builder.go:107-115 | A concrete pair of distinct tools that are declared under one name. |
| `Utf8.CutIsLastBoundary` | providers/kiro/converter/builder/tools_builder.go:77-80 | In valid UTF-8 the backwards loop stops at the last boundary, after at most three bytes. |
| `Utf8.BoundaryIffStart` | providers/kiro/converter/builder/tools_builder.go:78 | Inside valid UTF-8, the bytes that start a rune are exactly those behind a boundary. |
| `Utf8.PrefixIsValidIff` | providers/kiro/converter/builder/tools_builder.go:81 | A prefix of valid UTF-8 is valid exactly if it ends on a boundary. |
| `Sse.CodexParse` | providers/codex/sse/parser.go:21-82 | The callback gets the events of the lines read, up to and including the first one it refuses; the outcome tells refusal, cancellation and read errors apart. |
| `Sse.GeminiParse` | providers/geminicli/sse/parser.go:20-64 | The same for the parser that reads data lines with a space only. |
| `Sse.LinesAreRead` | providers/codex/sse/parser.go:41-56 | Which lines are names, data and ends for each parser, and that values are what follows, trimmed. |
| `Text.TrimSplits` | providers/codex/sse/parser.go:41-54 | Trimming takes away white space at both ends, all of it, and nothing else. |
| `Sse.BlankLineResets` | providers/codex/sse/parser.go:56-77 | Nothing crosses a blank line: what follows is parsed as if it stood alone. |
| `Sse.UnterminatedIsDiscarded` | providers/codex/sse/parser.go:56-81 | Lines after the last blank line yield no event. |
| `Sse.ParsedBlockByBlock` | providers/codex/sse/parser.go:31-79 | One pass yields, for each block that a blank line ends, the last name and all data of that block alone, and nothing for blank data. |
| `Sse.BlocksCover` | providers/codex/sse/parser.go:56-77 | The blocks with their blank lines and the tail are the whole input, and no block contains a blank line. |
| `SsePrinter.ParseInvertsPrint` | providers/codex/sse/parser.go:31-79 | Printing any events with trimmed data lines that are not all blank as text, scanning and parsing it gives the same events. |
| `SsePrinter.OnlyPrintableIsParsed` | providers/codex/sse/parser.go:41-77 | Every parsed event is of that kind. |
| `SsePrinter.ReprintedTextParsesTheSame` | providers/codex/sse/parser.go:21-82 | For any text at all, printing what it parses to and parsing again changes nothing. |
| `SseAgreement.ParsersAgreeIff` | providers/geminicli/sse/parser.go:35-39 | On any text the two parsers deliver the same data if and only if in every terminated block every data line has the space or none says anything. |
| `SseAgreement.SpacedStreamsAgree` | providers/codex/sse/parser.go:47-54 | In particular they agree on every stream whose data lines all have the space. |
| `UsageWindow.UsageStats.CalculateWindowTime` | usagerule/rule.go:92-128 | The branches compute the first window of the rule, and nothing for an unknown granularity. |
| `UsageWindow.UsageStats.CalculateNextWindowTime` | usagerule/rule.go:169-203 | The next window starts where the current one ends; the current one is computed first if unknown, and nothing else changes. |
| `UsageWindow.UnitContainsNow` | usagerule/rule.go:96-125 | The unit found for now begins at its calendar boundary, a Monday for weeks and day 1 for months, and contains now. |
| `UsageWindow.WeekUnit` | usagerule/rule.go:111-119 | A week begins on its Monday even when that lies in the month or year before. |
| `UsageWindow.FirstWindowContainsNowIff` | usagerule/rule.go:92-128 | start <= now < end holds if and only if the window size is at least 1. |
| `UsageWindow.WindowStartIsOneShift` | usagerule/rule.go:187-198 | The n-th window starts n sizes after the first: no drift builds up. |
| `UsageWindow.Walk` | usagerule/rule.go:169-203 | Assigning each next window to the stats leads in n steps from the first window to the n-th, whatever the clock reads after the first step. |
| `UsageWindow.WindowsTileTime` | usagerule/rule.go:169-203 | Every instant from the first start on lies in exactly one window. |
| `UsageWindow.BoundariesBelongToNoWindow` | usagerule/rule.go:136-142 | In the sense of IsInWindow an instant lies in some window if and only if no window begins at it. |
| `Calendar.MonthShiftsComposeIff` | usagerule/rule.go:120-125 | Month shifts add up if and only if the day is at most the 28th, as it is for windows that start on day 1. |
| `Calendar.MonthStartIsClosedForm` | usagerule/rule.go:120-125 | Counting months one by one agrees with the Gregorian leap-year formula, for every month of every year. |
| `Calendar.AddDateIsDate` | usagerule/rule.go:187-198 | Adding years, months and days is the normalised date of the sums. |

## Left out

- HTTP, credentials, fingerprints, logging, command line, pools and registries: they are input and output
  or wrappers.
- JSON, base64, AWS event-stream decoding, regular expressions and token counting: streams start from
  decoded events, tool arguments are opaque strings, and the delay found in a rate-limit message is part of
  the decoded error.
- Clocks: `now` is a parameter; a Gemini call carries the time at which its id is drawn; `created` is one
  value per call, and the timestamp of a response is not modelled.
- Random ids: an invocation carries the id that all its chunks are stamped with; the per-chunk random id that
  NewResponse draws without an invocation is not modelled.
- Time zones with daylight saving: one fixed offset.
- Integer widths: counts and window sizes are unbounded, so overflow of a 64-bit duration or of a token sum
  is not modelled.
- Scanner limits: the maximum token size of the line scanner; a read error is a parameter of the parsers.
- Text is sequences of characters except in the tools of a request, where it is bytes; invalid UTF-8
  elsewhere is not modelled.
- Upper-casing and lower-casing are modelled as far as comparison with ASCII text can see them.
- Spare capacity: byte slices of tool arguments are values, so two appends into the same spare capacity are
  not modelled; a tool-call slice always has length equal to capacity, as make gives it, so the branch of the
  expand functions for spare capacity is never taken.
- Negative choice and tool indices, on which the code panics.
- In-place mutation inside the Kiro builders: preprocessing and the history filter rewrite through pointers;
  the methods here rebuild the same lists as values, so aliasing with the caller's messages is not captured.
- Inference parameters and conversation id of the Kiro request; its prompt hints are given as texts, so how
  they are worded is not modelled.
- JSON schema conversion of tools: opaque.
- The completion parser's tool calls carry no index and all merge at index 0, so the group-by theorem excludes
  them.
- Error codes and parameters: a response error is its message and type.
- StreamDelivery.EachReturnsEverything: assumes that nothing is cancelled, which `CancelledDelivery` does not, and
  that only the one producer and the one consumer use the queue, as in the providers.
- CancelledAnswers.CancelledGeminiAnswers: a cancelled context also stops the reading of the body; the events
  are those read until then.
- Multi-choice just-finished reporting: the getters read choice 0 only.
- Thought signatures and other extra fields of tool calls.
- The order in which a blocked select is woken: a ready case may be left for a later look, which only adds
  runs.
- QueueCalls.Channel.Pop: a sender counts as waiting from its first step into the select on, whether or not it
  has been parked; so the second select, which on an unbuffered queue finds only parked senders, may take the
  item of a waiting sender or answer ErrQueueClosed.
- ChanQueue.ClosedAnswerIsFinalIff: speaks of the buffer only, so an item held by a waiting Push that later
  fails is not called stranded.
- HTTP status classification, option setters, provider registries and middleware: none of it spans operations.
