# Verified model of the streaming runtime

A Dafny 4.11 model of the in-process streaming runtime of fastapi-agent-protocol,
with proofs of what it promises. `dafny verify dfyconfig.toml` checks everything.

A thread's graph runs stream message chunks. A translator turns them into frames
and publishes them on the thread's event hub, a run manager decides which run may
be active and which interrupts are pending, and clients read the hub through a
replay ring, a bounded queue and a cursor. The code between two `await`s is one
atomic step. Each part is modelled twice: step functions on values, over which the
theorems quantify (any number of steps, interleaved in any order), and the mutable
objects of the source as classes whose methods are proved to do what the step
functions say.

| file | content |
|---|---|
| `Hub`, `Delivery`, `Handoff` | hub, subscriptions and the delivery loop; every interleaving of publishers and connections; exact loss, exactly-once handoff, reconnecting |
| `Translation`, `Translator`, `Frames`, `RoundTrip`, `Interleaving`, `Identity` | the frame encoder as functions and as objects; a strict client-side reader that is also the frame grammar; decoding inverts encoding; what interleaved messages lose; which message a chunk belongs to and what a finished tool call carries |
| `RunConfigs`, `Runs`, `RunInvariants`, `RunGuarantees`, `RunLog`, `RunMessages`, `OpenMessages`, `Resuming`, `Asking` | the run manager on one thread as a step system, its invariant, and what follows from it; what a stream publishes, asks for and resumes |
| `Execution`, `RunManager` | the coroutine of a run and the manager's dictionaries as objects |
| `EndToEnd`, `Threads`, `AllSteps` | from streamed chunks to what a client decodes, on one thread and in a process with any number of them over shared dictionaries and hubs; that the process can take every step its threads can |
| `History`, `Reconstruction`, `Jsonable` | state history as a fold, and its accumulation in place over shared list objects; JSON coercion |
| `Sse`, `Wire`, `Uuid7` | SSE printer and incremental parser, and the whole path over them; thread ids |

Findings about the code, each with a witness and the exact condition:

- Failed starts are documented to release the thread's slot. Two do not: one cancelled while its
  graph resolves, because the handler catches `Exception` only
  (`RunGuarantees.CancelledStartKeepsSlot`), and one whose metadata cannot be merged into its
  config, because that happens after the handler (`BadParamsKeepSlot`: a list as metadata, or
  null as the config's own). An idle thread's slot is free if and only if neither happened to it
  (`IdleIsFree`); once one has, the thread stays busy for ever (`AbandonedForever`). A caller
  avoids the second by sending parameters that are `RunConfigs.Mergeable`, and by no others.
- Every run is documented to have exactly one terminal event. A run cancelled before its task's
  first step has none (`RunLog.CancelledRunIsSilent`), and no other run that is done
  (`RunLog.TerminalUnlessStopped`).
- The translator's docstring says that concurrent messages interleave safely. A fed chunk of a
  known role is dropped if and only if its message was overtaken by a newer one or a finishing call reached
  it (`Interleaving.DroppedIffOvertakenOrEnded`, `InterleavingLosesChunk`).
- The hub's docstring promises exactly-once replay. An envelope can be lost although it was
  queued: if the ring evicted it before the replay pass and the pass found anything newer,
  the cursor moves past it (`Handoff.QueuedYetLost`). `Delivery.Record.Lost` states all ways
  to lose one and `Handoff.ExactLoss` that there are no others.
- A run that ends by asking for input can leave one message without its finish frame
  (`OpenMessages.InterruptLeavesOpen`). It does if and only if no usage was reported for its
  newest message under that message's id (`LeftOpenIff`); a chunk with usage and no id does not
  finish its message either. No run that completed, failed or was cancelled leaves one open.

## Model

| member | source | states |
|---|---|---|
| Hub.Subscription.Matches | src/fastapi_agent_protocol/hub.py:55-72 | the early returns and the prefix loop decide exactly: newer than the cursor, on a chosen channel, under a chosen namespace prefix, where an empty prefix means root events only |
| Hub.ChannelsSelect | src/fastapi_agent_protocol/hub.py:20-38 | of the envelopes a client of some channels gets those named input.requested exactly if it chose input, and any other exactly if it chose that name |
| Hub.NamespacesSelect | src/fastapi_agent_protocol/hub.py:60-71 | a namespace passes if and only if no prefix was given, one of its own non-empty prefixes was, or it is the root and the empty prefix was |
| Hub.BothSelect | src/fastapi_agent_protocol/hub.py:55-72 | the choice of channels and the choice of namespaces restrict independently of each other |
| Hub.ThreadEventHub.Publish | src/fastapi_agent_protocol/hub.py:91-120 | numbers are consecutive, the ring is the newest part of the full log, and every subscriber, in whatever order they are visited, gains the envelope exactly when it matches and its queue has room |
| Hub.ThreadEventHub.Subscribe | src/fastapi_agent_protocol/hub.py:122-136 | a fresh subscriber with an empty queue and a cursor at `since`, never below zero |
| Hub.ThreadEventHub.Replay | src/fastapi_agent_protocol/hub.py:141-149 | the loop returns the matching part of what the ring keeps of the log, and moves the cursor to its last envelope |
| Hub.EventStream.Take | src/fastapi_agent_protocol/router.py:325-338 | one dequeue delivers and advances the cursor, or silently drops what the cursor or filter rejects |
| Hub.EventStream.Close | src/fastapi_agent_protocol/router.py:317-340 | leaving the generator unsubscribes, once it has been entered |
| Delivery.NextInv | src/fastapi_agent_protocol/hub.py:101-149 | every publish, subscribe, replay, send, dequeue, heartbeat and disconnect, of any connection, keeps each connection's accounts balanced against the log |
| Handoff.ExactLoss | src/fastapi_agent_protocol/router.py:314-339 | over every interleaving and with no assumption: once replay has run, delivered + still replaying + queued entries that would pass is the log, filtered, less exactly the envelopes of `Record.Lost` |
| Handoff.NothingElseIsLost | src/fastapi_agent_protocol/router.py:314-339 | an envelope asked for that is neither delivered nor still waiting was evicted before replay or refused by a full queue |
| Handoff.QueuedYetLost | src/fastapi_agent_protocol/hub.py:141-149 | the counterexample: an envelope queued for a subscriber, with room to spare, is never delivered because the replay pass moved the cursor past it |
| Handoff.RefusedMeansFull | src/fastapi_agent_protocol/hub.py:114-119 | an envelope counts as refused if and only if it was published while that subscriber matched it and held a full queue |
| Handoff.ReplayedMeansRing | src/fastapi_agent_protocol/hub.py:141-149 | what the record says of evictions and of the replay pass is the state of the ring at that moment |
| Handoff.SubscribedAsAsked | src/fastapi_agent_protocol/hub.py:122-136 | whatever happens before and after, a connection keeps the filter it asked for and the cursor it asked for, never below zero |
| Handoff.LeavingEnds | src/fastapi_agent_protocol/router.py:317-340 | a connection that left keeps what it was delivered and gets nothing published later |
| Handoff.DeliveredInOrder | src/fastapi_agent_protocol/router.py:322-338 | delivered numbers strictly increase, and everything delivered is from the log, newer than `since` and selected by the filter |
| Handoff.ExactlyOnce | src/fastapi_agent_protocol/hub.py:1-9 | with a queue never full and a ring that still held everything after `since` at replay: nothing is missing, nothing is extra, nothing is out of order |
| Handoff.ReconnectTransparent | src/fastapi_agent_protocol/hub.py:122-149 | what was read on one connection, followed by a second one with `since` at the last envelope read, is what one uninterrupted connection gives |
| Handoff.ManyReconnects | src/fastapi_agent_protocol/hub.py:122-149 | the same for any number of connections in a row |
| Handoff.WaitingArrives | src/fastapi_agent_protocol/router.py:322-338 | from any reachable state a connection that has replayed can send and take until exactly what was outstanding is delivered and nothing is left |
| MutableTranslator.MessagesTranslator.Feed | src/fastapi_agent_protocol/translation.py:85-103 | the emitter objects and the sink after a fed chunk are those of `Translation.Apply`, whatever is already open |
| MutableTranslator.MessagesTranslator.Finish | src/fastapi_agent_protocol/translation.py:105-124 | finishing one message, or all open ones in order, does to the objects what `Translation.Apply` says |
| MutableTranslator.MessagesTranslator.EmitToolCallFragment | src/fastapi_agent_protocol/translation.py:168-211 | one fragment: own or allocated index, first non-empty id and name, start only for a new block, delta only for non-empty arguments |
| MutableTranslator.PlainText | src/fastapi_agent_protocol/translation.py:152-166 | text content is the concatenation of the text parts |
| Translation.RolesAre | src/fastapi_agent_protocol/translation.py:20-33 | the eight kinds of chunks that have a role, and which; any other has none |
| Translation.PartsAdd | src/fastapi_agent_protocol/translation.py:152-166 | a part with text adds it at the end of what came before, any other part adds nothing |
| Translation.PlainTexts | src/fastapi_agent_protocol/translation.py:152-166 | content that is a text is that text, and content that is neither text nor list has none |
| RoundTrip.RoundTrip | src/fastapi_agent_protocol/translation.py:85-228 | for every sequence of feed and finish calls a reader of the frames alone accepts them and recovers, message by message, role, text, tool arguments, usage and whether it is finished, and for each tool call the first non-empty id and name: of all fragments and with the parsed arguments once it is finished, until then of the fragments up to the last that sent a frame |
| RoundTrip.ToldIsSent | src/fastapi_agent_protocol/translation.py:168-211 | that part is everything but the trailing fragments without arguments, which send nothing before the finish |
| RoundTrip.NothingEnteredNothingSent | src/fastapi_agent_protocol/translation.py:99-113 | feeding a finished message, finishing again or an unknown role changes and sends nothing |
| RoundTrip.AtMostOneUnfinished | src/fastapi_agent_protocol/translation.py:94-98 | at any time at most one message is unfinished, the newest |
| Identity.ReadUnderOwnId | src/fastapi_agent_protocol/translation.py:92 | once a chunk of a known role was fed the reader has a message under exactly the id the chunk names, or the name made for a chunk without one |
| Identity.OneMessage | src/fastapi_agent_protocol/translation.py:92-103 | chunks with one id are read as one message with all their texts in order, whatever other calls come between, as long as none introduces a message or ends this one |
| Identity.FinishedUnderOwnId | src/fastapi_agent_protocol/translation.py:111-124 | the finishing call for an id closes that very message, with the usage it brings |
| Identity.FinishedArguments | src/fastapi_agent_protocol/translation.py:48-54 | the arguments of a finished tool call, for every JSON reader: an object as it is, another value as the only field "value", malformed text as the only field "raw", none as the empty object |
| Identity.FirstNonEmpty | src/fastapi_agent_protocol/translation.py:191-193 | the id or name kept for a tool call is the first non-empty one, or the last that came |
| Frames.StartsApart | src/fastapi_agent_protocol/translation.py:94-103 | between two message starts there is a finish, and no id starts twice |
| Frames.FinishesAscend | src/fastapi_agent_protocol/translation.py:213-228 | a block finish is followed at once by one with a larger index or by the message's finish |
| Frames.BlockFramesFollowStart | src/fastapi_agent_protocol/translation.py:174-211 | every block delta and finish follows a start of that block in the same message |
| Frames.OneStartOneFinish | src/fastapi_agent_protocol/translation.py:168-228 | within a message no block is started twice or finished twice |
| Frames.EveryBlockFinishes | src/fastapi_agent_protocol/translation.py:213-228 | every block started in a message has its finish before the finish of the message |
| Interleaving.DroppedIffOvertakenOrEnded | src/fastapi_agent_protocol/translation.py:85-124 | after any sequence of feed and finish calls, a fed chunk is dropped, and nothing sent for it, if and only if a newer message appeared after its own or a finishing call reached its message |
| Interleaving.StatusMeans | src/fastapi_agent_protocol/translation.py:92-124 | said of the calls alone: a message exists once it was fed and is closed once it was overtaken or ended |
| Interleaving.KeptOtherwise | src/fastapi_agent_protocol/translation.py:85-103 | any other fed chunk of a known role is in what the reader decodes, with every chunk ever fed to its message before it |
| Interleaving.InterleavingLosesChunk | src/fastapi_agent_protocol/translation.py:76-78 | the case: of two messages taking turns, the second chunk of the first one changes and sends nothing |
| RunInvariants.NextInv | src/fastapi_agent_protocol/runner.py:116-293 | every step of every suspended call, task, queued callback and client keeps the slot, the pending map, the log and all bookkeeping consistent |
| RunGuarantees.SingleLiveRun | src/fastapi_agent_protocol/runner.py:116-132 | unresolved reservations and unfinished tasks together are at most one, `_active` holds that very record, and the busy guard means exactly that |
| RunGuarantees.StaleCallback | src/fastapi_agent_protocol/runner.py:163-168 | a done-callback, however late, frees the slot if and only if nothing newer has reserved or started |
| RunGuarantees.IdleIsFree | src/fastapi_agent_protocol/runner.py:133-168 | with nothing resolving, running or queued the slot is free if and only if no start was cancelled while its graph resolved and no start with unmergeable parameters had its graph resolved |
| RunGuarantees.CancelledStartKeepsSlot | src/fastapi_agent_protocol/runner.py:133-139 | the counterexample: a start cancelled while resolving leaves its reservation behind |
| RunGuarantees.AbandonedForever | src/fastapi_agent_protocol/runner.py:118-139 | after that no sequence of steps ever starts a run or publishes on the thread again |
| RunGuarantees.BadParamsKeepSlot | src/fastapi_agent_protocol/runner.py:141-149 | the other counterexample, at two concrete requests: the merge raises and leaves the reservation behind |
| RunGuarantees.AbandonedCauses | src/fastapi_agent_protocol/runner.py:133-149 | a start is left without its slot being released if and only if it is one of the two |
| RunGuarantees.BadParamsNeverRun | src/fastapi_agent_protocol/runner.py:141-158 | a start with unmergeable parameters never becomes a run, whatever happens later |
| RunConfigs.RaisesIffNotMergeable | src/fastapi_agent_protocol/runner.py:141-149 | building the run's config raises exactly for parameters a caller can recognise before sending them |
| RunConfigs.CallerWins | src/fastapi_agent_protocol/runner.py:148-149 | the merged metadata has the keys of both, with the caller's value where both have one |
| RunConfigs.OnlyObjectsOrNothing | src/fastapi_agent_protocol/runner.py:141-149 | a configurable or metadata value can be merged if and only if it is an object or one of the six values that count as nothing, and then metadata is left out |
| RunConfigs.ConfigHasThreadId | src/fastapi_agent_protocol/runner.py:141-147 | the configurable part has the thread id unless the caller set its own, every other entry of the caller's and no more; all else is passed on |
| RunLog.LogIsBlocks | src/fastapi_agent_protocol/runner.py:252-293 | every reachable log is the blocks of the runs one after the other, all but the last complete; a block has one request per interrupt its graph raised and is empty for a run that never took a step |
| RunLog.LogGrammar | src/fastapi_agent_protocol/runner.py:252-293 | a scanner that knows nothing of tasks accepts every reachable log, with an unfinished block at its end exactly while a run streams |
| RunLog.OneTerminalPerRun | src/fastapi_agent_protocol/runner.py:253-293 | the log has as many terminal events as there are runs that took a step and ended |
| RunLog.TerminalUnlessStopped | src/fastapi_agent_protocol/runner.py:1-11 | of the accepted runs that are done, each has exactly one terminal event, except that it has none if and only if a cancellation reached its task before its first step |
| RunLog.CancelledRunIsSilent | src/fastapi_agent_protocol/runner.py:156-168 | the case: start, cancel, done, slot free, and nothing in the log |
| RunLog.PendingAgrees | src/fastapi_agent_protocol/runner.py:307-313 | the pending map holds exactly the ids the last run requested, each with its latest payload, beside that run's assistant, and only while nothing runs |
| RunMessages.BalancedMessages | src/fastapi_agent_protocol/runner.py:253-289 | each run's frames decode to what it was fed; it has one message finish per start, but for the newest message while that is open, and a run that completed, failed or was cancelled leaves none open |
| OpenMessages.LeftOpenIff | src/fastapi_agent_protocol/runner.py:259-282 | a run that ended by asking for input lacks one finish if and only if some message appeared in its stream and no usage was reported for the newest one under its id, and otherwise none |
| OpenMessages.InterruptLeavesOpen | src/fastapi_agent_protocol/runner.py:272-279 | the case: one chunk without usage, then an interrupt |
| OpenMessages.CallsAreStreamed | src/fastapi_agent_protocol/runner.py:258-263 | in every history the translator calls of a run are those of exactly the chunks streamed to it, in order, and of its ending |
| Asking.ValuesAreStreamed | src/fastapi_agent_protocol/runner.py:264-266 | in every history a run publishes exactly the values streamed to it, in order, and remembers the last of them |
| Asking.AsksIffEntries | src/fastapi_agent_protocol/runner.py:267-282 | a stream that ends asks for input if and only if the values streamed last to its run, or the checkpoint when none were, hold an entry: then the log gains the interruption and one request per entry, in order, with its own id and value; otherwise the run completes with nothing pending |
| Asking.RespondMeans | src/fastapi_agent_protocol/runner.py:185-201 | on a free thread a response resumes the assistant it names, or else the one that asked, if the last run in the log requested its id; with nothing requested only a named assistant is resumed; any other response changes nothing |
| Asking.FirstStepPublishes | src/fastapi_agent_protocol/runner.py:254-255 | a run that was not cancelled opens with started and running |
| Asking.StreamedValuesPublish | src/fastapi_agent_protocol/runner.py:264-266 | a streamed snapshot adds exactly its values to the log |
| Asking.StreamedChunkPublishes | src/fastapi_agent_protocol/runner.py:259-263 | a streamed chunk publishes what the translator sends for it, then for its finish if it reports usage |
| Asking.CancellationPublishes | src/fastapi_agent_protocol/runner.py:283-286 | a cancellation finishes open messages and ends the run as interrupted |
| Asking.ErrorPublishes | src/fastapi_agent_protocol/runner.py:287-293 | an error of the stream finishes open messages and ends the run as failed, with its text |
| Resuming.FailedStartLeavesNoTrace | src/fastapi_agent_protocol/runner.py:12-18 | whatever happens while a start is suspended, if its resolution fails the pending map, the log and the runs are as it found them and the slot is free |
| Resuming.ResumeAtMostOnce | src/fastapi_agent_protocol/runner.py:185-201 | of all responses that found their interrupt in the same pending map at most one is ever dispatched, directly after the run that asked |
| Resuming.DispatchConsumes | src/fastapi_agent_protocol/runner.py:151-169 | a successful start removes the pending map, publishes nothing, appends exactly its own new run and makes its assistant the last one |
| Resuming.CancelReachesOnlyItsRun | src/fastapi_agent_protocol/runner.py:203-215 | cancelling marks the unfinished run, if it is the one named or none is named, and changes nothing else |
| Resuming.SilencedForGood | src/fastapi_agent_protocol/runner.py:156-159 | a task asked to stop before its first step contributes nothing to the log, in that state or any later one |
| Resuming.RejectedIff | src/fastapi_agent_protocol/runner.py:118-120 | a start or response changes nothing if and only if the thread is busy or nobody knows the interrupt, and otherwise reserves the thread for that run with its own parameters, and changes nothing else a client sees |
| Resuming.AssistantBinding | src/fastapi_agent_protocol/router.py:228-255 | through the router the stored assistant is the last one dispatched, so in-memory and durable responses resume the same one |
| Execution.RunExecution.OnMessage | src/fastapi_agent_protocol/runner.py:259-263 | a streamed message publishes what the translator makes of it, finished at once when it carries usage |
| Execution.RunExecution.OnValues | src/fastapi_agent_protocol/runner.py:264-266 | a streamed snapshot is remembered and published, as the step function has it |
| Execution.RunExecution.EndStream | src/fastapi_agent_protocol/runner.py:267-282 | the end of a stream, through either branch, publishes and registers what the step function says |
| Execution.RunExecution.OnCancelled | src/fastapi_agent_protocol/runner.py:283-286 | the handler of a cancellation does what the step function says |
| Execution.RunExecution.OnRaised | src/fastapi_agent_protocol/runner.py:287-293 | the handler of any other exception does what the step function says |
| Execution.RunExecution.Close | src/fastapi_agent_protocol/runner.py:280-293 | the common ending: open messages are finished, then one terminal event |
| Execution.RunExecution.Interrupts | src/fastapi_agent_protocol/translation.py:240-254 | interrupts of the last values, or of the checkpoint when none were streamed, objects and dicts alike |
| Execution.RunExecution.AskForInput | src/fastapi_agent_protocol/runner.py:272-279 | the terminal event and one request per interrupt, in order, with messages left open |
| RunManagement.RunManager.constructor | src/fastapi_agent_protocol/runner.py:79-89 | a new manager is valid: empty dictionaries, and every thread new |
| RunManagement.RunManager.Begin | src/fastapi_agent_protocol/runner.py:116-132 | the dictionaries after check and reserve stand for the model's thread after it, with every other thread untouched; rejected exactly when busy, naming the run that holds the thread |
| RunManagement.RunManager.ReleaseFailed | src/fastapi_agent_protocol/runner.py:135-139 | the identity test on the slot releases exactly this reservation |
| RunManagement.RunManager.Proceed | src/fastapi_agent_protocol/runner.py:141-169 | with the graph there: dispatched if and only if the parameters can be merged, otherwise no dictionary changes and the reservation stays |
| RunManagement.RunManager.LeaveAbandoned | src/fastapi_agent_protocol/runner.py:133-149 | a start cancelled while resolving, or raising after it, changes no dictionary |
| RunManagement.RunManager.Dispatch | src/fastapi_agent_protocol/runner.py:151-169 | pending inputs are dropped, the reservation is replaced by a record with a new task, and the last assistant is set |
| RunManagement.RunManager.Clear | src/fastapi_agent_protocol/runner.py:163-165 | the identity test in the callback removes this record and never another |
| RunManagement.RunManager.Respond | src/fastapi_agent_protocol/runner.py:185-201 | accepted if and only if an assistant to resume with exists and the thread is free; unknown interrupts are told apart from busy threads |
| RunManagement.RunManager.Cancel | src/fastapi_agent_protocol/runner.py:203-215 | the run's asyncio task is asked to stop exactly when the slot holds an unfinished one and the id given is its own |
| RunManagement.RunManager.RegisterPending | src/fastapi_agent_protocol/runner.py:307-313 | the dictionary built in the loop is the reserved key and, for each id, its last payload |
| RunManagement.PutInOrder | src/fastapi_agent_protocol/runner.py:82-89 | replacing one thread's entries in the shared dictionaries keeps all threads consistent |
| RunManagement.HolderIsPosition | src/fastapi_agent_protocol/runner.py:163-168 | object identity of the slot's record coincides with the position of its run |
| Hub.HubRegistry.HubFor | src/fastapi_agent_protocol/hub.py:152-164 | a thread's own hub, made empty on first use, shared with no other thread |
| Threads.Independent | src/fastapi_agent_protocol/runner.py:116-293 | in every history of a process, over the shared dictionaries and hubs made on demand, the dictionaries stay in order, and each thread, its entries in them and its hub are what its own steps and clients would have made of it alone |
| Threads.OthersDoNotMatter | src/fastapi_agent_protocol/runner.py:118-168 | a step of another thread changes none of this thread's entries in the shared dictionaries, nor its hub |
| Threads.BeginIsStep | src/fastapi_agent_protocol/runner.py:185-201 | the start that the dictionaries decide on, for a start and for either kind of response, is the one the thread would take |
| AllSteps.EveryStepIsPossible | src/fastapi_agent_protocol/runner.py:116-293 | after every history of the process, each step by which a thread of its own would change is one the shared dictionaries allow, so no behaviour of a thread is lost among others |
| Threads.EveryClientReadsItsThread | src/fastapi_agent_protocol/router.py:314-339 | whatever other threads do, a client that lost nothing and has caught up decodes exactly what its thread's graphs streamed |
| EndToEnd.LogCarried | src/fastapi_agent_protocol/runner.py:252-293 | under any interleaving of run steps and clients, the hub's log carries the thread's log, each event under its own method |
| EndToEnd.ClientReadsLog | src/fastapi_agent_protocol/router.py:314-339 | a client from the beginning that lost nothing and has caught up was sent the thread's log, filtered by its channels |
| EndToEnd.ClientReadsKinds | src/fastapi_agent_protocol/hub.py:20-38 | such a client that chose channels was sent exactly the lifecycle events if lifecycle is among them, messages if messages, values if values, and requests if input |
| EndToEnd.WireNames | src/fastapi_agent_protocol/runner.py:253-293 | every envelope in a thread's hub has the wire name of its kind of event |
| EndToEnd.ClientReadsWhatGraphsSaid | src/fastapi_agent_protocol/runner.py:252-293 | such a client, starting a new reader at each run, decodes exactly the meaning of the chunks the graphs streamed |
| EndToEnd.CanCatchUp | src/fastapi_agent_protocol/router.py:322-338 | a client that lost nothing can always catch up, by steps of its own alone |
| Reconstruction.Accumulate | src/fastapi_agent_protocol/state.py:115-123 | one pending write in place, including the one that raises, modifies only lists the accumulation owns |
| Reconstruction.DeepCopy | src/fastapi_agent_protocol/state.py:127 | the same contents in lists nothing else refers to |
| Reconstruction.ReadHistory | src/fastapi_agent_protocol/state.py:110-139 | entry `j` is the fold of all writes from the oldest checkpoint through `j`, newest first, although lists are extended after it was recorded; the checkpointer's lists, shared in any way, are never modified |
| History.FoldDescribed | src/fastapi_agent_protocol/state.py:114-123 | the fold channel by channel: present if written, holding the last single value or else everything listed, in order |
| History.ChannelsAre | src/fastapi_agent_protocol/state.py:115-119 | the state has a channel if and only if it was written and is neither one of the three internal ones nor a branch |
| History.RaisesIffClash | src/fastapi_agent_protocol/state.py:120-123 | the read raises if and only if some list is written to a channel after a single value was |
| History.WindowedRead | src/fastapi_agent_protocol/state.py:110-130 | a limited read succeeds when the full one does, agrees on single values written in the window, and on lists gives the part written in it |
| Jsonable.FixedIffJson | src/fastapi_agent_protocol/state.py:24-36 | the coercion leaves alone exactly what is JSON already, and twice is once |
| Jsonable.Coerced | src/fastapi_agent_protocol/state.py:24-36 | whatever goes in, only JSON shapes come out, at any depth |
| Jsonable.SeenEverywhere | src/fastapi_agent_protocol/state.py:24-36 | along every path of positions and names the coerced value shows what the value shows: members of lists, tuples and sets in place, entries of dicts, public attributes of instances in order under their own names, foreign values as their text, and nothing else |
| Sse.RoundTrip | src/fastapi_agent_protocol/router.py:61-63 | for every sequence of envelopes and comments and every cutting into chunks the parser yields exactly the printed data, and never more than a first part of it before the end |
| Sse.BlockLines | src/fastapi_agent_protocol/router.py:61-63 | a block is a line for the method, one for the data and one for the number; a comment is one line |
| Sse.BlocksRejoin | js/e2e.mjs:44-60 | cutting a text into blocks and a rest loses nothing, and no part has an empty line in it |
| Sse.LinesRejoin | js/e2e.mjs:49 | splitting a block into lines loses nothing, and no line has a break in it |
| Sse.ChunksDoNotMatter | js/e2e.mjs:37-60 | parsing chunk by chunk gives what parsing the whole text gives, buffer included |
| Sse.StreamReader.Feed | js/e2e.mjs:44-60 | the nested loops read every block a chunk completes and keep the rest |
| Sse.StreamReader.FeedAll | js/e2e.mjs:41-67 | over all chunks the reader has exactly the envelopes of the parse of them |
| Wire.ReaderGetsWhatGraphsSaid | js/e2e.mjs:37-60 | whatever chunks a caught-up client's text arrives in, with comments anywhere in it, the parser's envelopes decode to exactly what the graphs streamed |
| Wire.EnvelopeLines | src/fastapi_agent_protocol/router.py:61-63 | an envelope's lines carry its method, its JSON and its number, which reads back |
| Uuid7.PackKeeps | src/fastapi_agent_protocol/uuid7.py:17-26 | version and variant bits are right, and the timestamp and the 74 random bits can be read back |
| Uuid7.IdReads | src/fastapi_agent_protocol/uuid7.py:17-26 | the id is the lower-case hex text of the packed bytes, each of which reads back |
| Uuid7.EarlierIsSmaller | src/fastapi_agent_protocol/uuid7.py:1-6 | 32 hex digits, and a smaller timestamp gives a lexicographically smaller id whatever is random |

## Left out

- Timestamps, `event_id`, `current_seq` and `HubRegistry.drop`: drop is never called, the rest is formatting.
- HTTP: routing, request parsing, 404 and 422 responses, `/info`, factory and lifespan. The router contributes its delivery loop and the order in which its commands call the manager and the thread store.
- LangGraph and LangChain: a graph is any source of messages, values, errors and cancellations; the checkpointer is any newest-first list of tuples.
- `json.dumps` and `json.loads`: any functions; the printer assumes JSON text without line breaks, and arguments that make `loads` raise something else than a decode error (too deep, or a number with too many digits) are not modelled; with those, finishing a message raises, and a run can end without a terminal event.
- `SqliteThreadStore` and `AgentRegistry`: the stored assistant of a thread, which is never refused, and whether resolving succeeds, fails or is cancelled.
- `RunManager.wait` and `pending_interrupts`: observers.
- Run ids are fresh numbers; a chunk without an id brings its object identity along as text.
- Interrupt ids differ from the reserved key `assistant_id`; with that id the pending map would lose its assistant.
- RunManagement.RunManager.Advance: the manager's part of a task step only; what the step publishes is proved on `Execution.RunExecution`, and that both happen in one atomic step is how the step functions combine them.
- RunManagement.RunManager.Begin: whether a start came from the router or a response is a record the theorems read; the router's `set_assistant` is part of the step in `Runs.Dispatch`.
- Threads.Independent: which suspended call, task or queued callback may run next is read off the step system's own record, since the event loop itself is not modelled; everything the manager decides is decided on the dictionaries.
- Exceptions inside one `feed`, between two of its frames, and exceptions while a run is already being closed.
- Reconstruction.Accumulate: a single value that is not a list but has an `extend` method of its own counts as one that raises.
- Elements of lists are values, so deep copies of nested objects are not told apart from shared ones.
- `serialize_values`, `serialize_message` and `read_thread_state`: field-by-field copies.
- Sse.StreamReader.Feed: text decoding of bytes, and the parser's `pendingEvent`, which is written and never read.
- A negative `replay_size`, with which no hub can be made.
