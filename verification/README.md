# Verified model of the chat service core

A Dafny model of the parts of the chat service whose behaviour is decided by
code rather than by configuration, with proofs about every input, every run or
every reachable state:

- **Conversation store** (`Transcript`, `Conversations`, `ConversationSafety`,
  `ConversationRuns`, `ConversationImages`, `ConversationMixing`,
  `MixingHistories`, `ConversationCalls`, `ConversationStore`, `Attachments`):
  message rows with positions and archive marks, runs, attachment planning and
  the image context of a conversation.
- **Run pipeline** (`Messages`, `ModelCall`, `ToolBatch`, `Pairing`,
  `ChatAgents`, `RunExecutor`, `RunTiming`, `DraftCheckpoints`, `RunAccounting`,
  `RunPipeline`, `ContextTrim`, `ToolFragments`): from the provider's stream
  through tool batches, retries and cancellation to numbered events, draft
  checkpoints, phase timing and the final transcript.
- **Lease protocols** (`EmailOutbox`, `OutboxProtocol`, `Avatars`,
  `AvatarSafety`, `AvatarObjects`, `AvatarWorker`, `Batches`): the durable email outbox and
  the avatar worker, with any number of tasks, sweeps and crashes interleaved.
- **Citation numbering** (`Sources`, `SourceHistory`, `SourceRegistries`).
- **History search** (`SearchText`, `LikePattern`, `Paging`).
- **Sliding-window limiter** (`RateLimit`).

Each database transaction is one atomic step, and steps interleave freely. Code
that updates rows or fields in place is a class whose methods are proved equal
to a specification function of the old state; the laws are then proved about
those functions, over whole histories. Clock readings, tool results, provider
streams, storage outcomes and task crashes are arbitrary arguments. URL
normalization, token counting, the snippet squeeze, the quote projection and
JSON decoding are function parameters.

Decisions a reader should know:

- Row ids are indices of append-only tables, and task and object keys are issued
  once, as the autoincrement columns and `uuid4` values are.
- A conversation's rows are modelled for one conversation at a time, as every
  query filters by `conversation_id`.
- "Every stored avatar object is accounted for" fails for three kinds of object the
  code keeps no record of: one whose `put_public` raised after the store had taken
  it, one whose worker died before settling, and a legacy key that stood beside a
  file asset when the file service replaced the avatar (it then deletes only the
  asset). `AvatarObjects.ObjectsAreAccounted` states the equivalence over the
  history. The third kind needs a legacy upload published after a file avatar; the
  routes no longer create such uploads.
- The outbox and avatar attempt bounds are stated for every configured maximum:
  an avatar upload is tried once even when the maximum is below one.
- Image and text-only contexts stay apart as long as each queueing call names
  its model's image capability, as every API route does. For calls that do not,
  `ConversationMixing` says on their inputs exactly which submits, edits and
  regenerations mix, and `MixingHistories` reaches one of each.
- Where `title_match_range` and `normalize_query` differ (a trailing space kept
  by the loop), the theorems hold because a normalized query never ends in one.

## Model

| member | source | states |
|---|---|---|
| Transcript.ViewIsTheQuery | app/services/conversations/image_context.py:93-104 | with increasing positions, the visible list is the one and only list the position-ordered query over unarchived rows can return |
| Transcript.ArchiveFromIsTake | app/services/conversations/service.py:1233-1248 | archiving at or after a visible message's position leaves exactly the list before it |
| Transcript.ArchiveAfterIsTake | app/services/conversations/service.py:1251-1266 | archiving after a visible message's position leaves the list up to and including it |
| Transcript.NextPositionIsLast | app/services/conversations/service.py:1159-1165 | a row at the next position comes after every row ever inserted, archived ones included |
| ConversationRuns.RowsRefineAPlainList | app/services/conversations/service.py:648-1266 | after any history of operations, refused ones included, readers see exactly what the corresponding append, replace-from-i and keep operations make of a plain empty list, each appended row written out field by field |
| ConversationRuns.StepActsOnTheList | app/services/conversations/service.py:648-1266 | one step on the position and archive columns is one operation on the visible list |
| ConversationRuns.EveryHistoryKeepsInv | app/services/conversations/service.py:666-745 | every history of submits, edits, regenerations, finishes and status changes, refused ones included, keeps the store invariant (ordered positions, users own their runs, answers follow their turn, active runs pin the end, one answer per succeeded run) |
| ConversationRuns.SubmitAppends | app/services/conversations/service.py:648-745 | an accepted submit appends one user message carrying a newly queued run and changes nothing else in the list |
| ConversationRuns.EditReplacesTail | app/services/conversations/service.py:789-922 | an accepted edit of entry i leaves the first i entries followed by the new message |
| ConversationRuns.RegenerateTruncates | app/services/conversations/service.py:961-1075 | an accepted regeneration truncates the list just after the anchor, whose entry changes its run and nothing else |
| ConversationRuns.FinishAppends | app/worker/executor.py:566-601 | finishing a started or streaming run appends exactly one assistant message, with the answer as its content, no quote, no files, that run and the next position, and marks the run succeeded; finishing any other run leaves the list alone and no other run changes |
| ConversationRuns.ActiveRunPinsTheEnd | app/services/conversations/service.py:1148-1156 | an active run is the only one, its user message is the last visible message and carries that run |
| ConversationRuns.AnswersFollowTheirTurn | app/services/conversations/service.py:1193-1230 | every visible answer directly follows its run's user message, which still carries the same run |
| ConversationRuns.RegenerateFindsItsAnchor | app/services/conversations/service.py:989-1006 | regenerating any visible message always resolves: to itself, or to the message right before an answer |
| ConversationRuns.EndedRunsStayEnded | app/services/runs/lifecycle.py:44-168 | no step changes the row of a run that has ended |
| ConversationSafety.ActiveRunIsUnique | app/services/conversations/service.py:1148-1156 | two active runs of a conversation are the same run |
| ConversationSafety.MaterializeKeepsInv | app/worker/executor.py:566-601 | succeeding and materializing in one transaction keeps the store invariant |
| ConversationSafety.RerunKeepsInv | app/services/conversations/service.py:1053-1075 | truncating after the anchor and queueing its new run keeps the store invariant |
| ConversationSafety.EditKeepsInv | app/services/conversations/service.py:884-922 | archiving the tail and inserting the edited message keeps the store invariant |
| ConversationImages.ContextsNeverMix | app/services/conversations/service.py:671-675 | in every reachable conversation visible user turns never hold both images and image notices, and no active run's model is given a turn it cannot be shown |
| ConversationImages.EditKeepsImages | app/services/conversations/service.py:834-882 | checking only the turns before the edited one is enough, because the edited one and its tail are replaced |
| ConversationImages.RegenerateKeepsImages | app/services/conversations/service.py:1008-1052 | likewise for regeneration, whose anchor is given the new run's turn |
| ConversationMixing.BlindSubmitMixes | app/services/conversations/service.py:666-706 | an accepted submit that names no capability mixes the context if and only if a visible turn shows an image and an attached file is a picture |
| ConversationMixing.BlindEditMixes | app/services/conversations/service.py:834-882 | an accepted edit that names no capability mixes the context if and only if a visible turn before the target shows an image and a selected file is a picture |
| ConversationMixing.BlindRegenerateMixes | app/services/conversations/service.py:1008-1052 | an accepted regeneration that names no capability mixes the context if and only if a visible turn before the anchor shows an image and the anchor has a picture attached |
| ConversationMixing.OnlyBlindClashesMix | app/services/conversations/service.py:648-1266 | of all steps, exactly the accepted calls of those three kinds mix an unmixed context |
| ConversationMixing.UnmixedExactlyWithoutClashes | app/services/conversations/service.py:648-1266 | a whole history stays unmixed if and only if none of its steps was such a call |
| ConversationMixing.BlindPlanMentions | app/services/files/bindings.py:136-213 | without a capability a plan shows no image and mentions one exactly when a picture is attached |
| MixingHistories.MixingHappens | app/services/conversations/service.py:666-706 | concrete histories from the empty conversation: after a set-up that always names the capability, a submit, an edit and a regeneration without one each mix |
| ConversationImages.ContextBeforeIsExact | app/services/conversations/image_context.py:31-63 | the derived facts before a position hold an image (or an image notice) exactly when a visible user turn before it does |
| ConversationImages.RefusalsAreExact | app/services/conversations/service.py:1342-1360 | a model is refused exactly when a visible turn clashes with it, and a legacy refusal names such a turn |
| ConversationImages.DetachedFilesAreUnreferenced | app/services/files/bindings.py:263-286 | in every reachable conversation a file marked detached is attached to no visible message |
| ConversationCalls.SubmitAcceptsExactly | app/services/conversations/service.py:648-745 | a submit is accepted with a turn if and only if every run has ended, the visible turns suit the model, the quote (if any) names a visible answer, and the turn is a plan of the attached files for the text with its quote projected in |
| ConversationCalls.SubmitRefusals | app/services/conversations/service.py:648-745 | the refusals in the order they are made: an unfinished run, the image context, the quote, and only then the files |
| ConversationCalls.SubmitBinds | app/services/files/bindings.py:234-260 | a submit binds exactly its own files, the unbound ones now and the bound ones as they were, and clears their detached marks |
| ConversationCalls.EditAcceptsExactly | app/services/conversations/service.py:789-922 | an edit is accepted if and only if its target is a visible user message whose turn can be reused with the chosen files, its own by default |
| ConversationCalls.EditRefreshes | app/services/files/bindings.py:263-286 | after an edit a file the message had or now has is detached exactly when no visible message attaches it; every other mark stays |
| ConversationCalls.RegenerateAcceptsExactly | app/services/conversations/service.py:961-1075 | a regeneration is accepted if and only if its anchor is found and the anchor's turn can be reused as it is |
| ConversationCalls.RegenerateLeavesFiles | app/services/conversations/service.py:1053-1075 | a regeneration changes no file and no detached mark |
| ConversationCalls.TargetRefusals | app/services/conversations/service.py:789-833 | a hidden or unknown target, an answer as an edit target and an unfinished run are refused with their own errors, before anything else is looked at |
| ConversationCalls.TurnIsItsRunsInput | app/services/conversations/image_context.py:86-142 | a user turn is what its current run was queued with |
| ConversationCalls.FactsAreTheTurns | app/services/conversations/image_context.py:145-165 | the image facts of a visible user message are its position and the images and image notices of its turn |
| ConversationCalls.LifecycleMoves | app/services/runs/lifecycle.py:13-218 | which statuses each lifecycle action leaves and where it takes them; nothing but a finish succeeds a run |
| ConversationCalls.NextPositionIsOneMore | app/services/conversations/service.py:1159-1165 | the next position is 1 in an empty conversation and otherwise one more than some row's and above every row's |
| ConversationStore.ConversationTables.SubmitMessage | app/services/conversations/service.py:648-745 | the in-place submit equals the submit of the list theorems, with the same error and an unchanged store when refused |
| ConversationStore.ConversationTables.EditMessage | app/services/conversations/service.py:789-922 | the in-place edit equals the edit of the list theorems, errors included |
| ConversationStore.ConversationTables.RegenerateFrom | app/services/conversations/service.py:961-1075 | the in-place regeneration equals that of the list theorems, errors included |
| ConversationStore.ConversationTables.FinalizeSucceeded | app/worker/executor.py:566-601 | the in-place finish appends the written-out answer row, reports it and equals that of the list theorems; a run that is not started or streaming leaves the store as it was |
| ConversationStore.ConversationTables.DeriveImageContext | app/services/conversations/image_context.py:86-142 | the fact loop yields the facts of exactly the visible user messages in order |
| ConversationStore.ConversationTables.BindFiles | app/services/files/bindings.py:234-260 | the bind loop binds each planned file once and clears its detached mark, other files untouched |
| ConversationStore.ConversationTables.RefreshDetached | app/services/files/bindings.py:263-286 | in any order of the files, each touched file not being deleted is marked detached exactly when no visible message attaches it |
| Attachments.PrepareAttachmentPlan | app/services/files/bindings.py:69-231 | the planner's checks and loops give the plan of `PlanAcceptsExactly` or the first error in the source's order |
| Attachments.PlanAcceptsExactly | app/services/files/bindings.py:85-231 | a plan is accepted if and only if the files are few enough, distinct, known, the user's own message attachments, not being deleted, either inherited by the turn or unbound and unexpired, and within the size limit, the blocks are the text and one block per file as its row tells, there is something to read and the turn is within the token limit |
| Attachments.FileBlockExactly | app/services/files/bindings.py:136-213 | a file yields a given block if and only if its row says so: a document with its stored text and metadata, an image with a safe preview for a model with vision, a notice of an image otherwise where one is due |
| Attachments.UnsupportedExactly | app/services/files/bindings.py:151-213 | the model is blamed exactly for a processed image on a model known to lack vision that the turn had no notice of; every other unfit file is an invalid attachment |
| Attachments.RefusalsInOrder | app/services/files/bindings.py:85-135 | too many files, then a repeated one, then one the user may not attach, then their size: each refusal, on the rows and in the order they are made |
| Attachments.PlanIsOneBlockPerFile | app/services/files/bindings.py:133-213 | an accepted plan is the text, if any, then exactly one block per attachment in the caller's order, each file the user's own and attachable |
| Attachments.FileBlockForm | app/services/files/bindings.py:136-213 | a planned block names its own file; documents carry the stored text, images need vision and a safe preview, notices of processed images on a text-only model only repeat earlier notices |
| Attachments.PlanNeverMixes | app/services/files/bindings.py:151-213 | a model without vision is never planned an image, one with vision never an image notice, and both only name attached files |
| Attachments.AcceptedTurnAlwaysFits | app/services/files/bindings.py:214-231 | an accepted turn is a turn of its own and any context ending in it fits the budget when the system prompt costs at most the other half |
| ModelCall.StreamModelCall | app/agent/primitives.py:48-101 | the loop forwards exactly the texts streamed before the first finish, in order, and assembles the message holding exactly the tool calls streamed before it, with the usage and request id of that finish; without a finish there is no message |
| ModelCall.MessageShowsDeltas | app/agent/primitives.py:65-101 | the assembled message shows exactly the forwarded deltas per channel and carries exactly the collected tool calls |
| ModelCall.MessageIsTheStream | app/agent/primitives.py:65-101 | told by the provider's events before the first finish: the message's tool calls are the streamed calls in stream order, its text on each channel is the streamed text, its finish the first one |
| Messages.CoalescedKeepsOrder | app/agent/primitives.py:115-136 | merging keeps every character of every channel in its place and never leaves two adjacent blocks that could have been one |
| Messages.CoalescedContent | app/agent/primitives.py:115-136 | merging a delta into the last block of its kind appends its text to its own channel and no other |
| ToolBatch.Admit | app/services/agents/chat_agent.py:188-205 | admission in call order admits, rejects and counts exactly as specified, never beyond the limit |
| ToolBatch.Complete | app/services/agents/chat_agent.py:231-253 | completions with their metadata and batch count, and results, follow call order whatever order the calls finish in |
| ToolBatch.CountSources | app/services/agents/chat_agent.py:406-415 | the count is the number of different citation ids among the successful results |
| ToolBatch.ExecutedIsPrefixOfKnown | app/services/agents/chat_agent.py:188-205 | a turn executes the first known calls, as many as the limit still allows |
| ToolBatch.BatchAnnouncesThenReports | app/services/agents/chat_agent.py:207-253 | all announcements of the executed calls come first, each with the batch size, then one completion and one result per call, in call order and with that call's own outcome; when several ran, every completion carries the number of different sources the batch found |
| ToolBatch.OutcomeIsOwn | app/services/agents/chat_agent.py:188-253 | a call that is known and within the limit reports its own outcome, any other reports an error without a duration |
| ToolBatch.RejectionsSay | app/services/agents/chat_agent.py:188-205 | what a rejected call is told: its tool does not exist, or the limit is reached |
| ChatAgents.RunStream | app/services/agents/chat_agent.py:151-258 | the loop equals the fold of its turns |
| ChatAgents.EveryModelCallIsWellPaired | app/services/agents/chat_agent.py:156-258 | at every model call each tool-calling turn is directly followed by exactly its results, same ids in the same order |
| Pairing.PairsAreCallByCall | app/services/agents/chat_agent.py:231-258 | well paired means, call by call, a following user message of exactly as many results, each with the id of the call in its place |
| ChatAgents.ExecutedAreTheFirstKnown | app/services/agents/chat_agent.py:188-205 | over all turns the executed calls are exactly the first `max_tool_calls` calls of tools the agent has among those the consumed provider streams ask for, in stream order |
| ChatAgents.AskedIsStreamed | app/services/agents/chat_agent.py:156-187 | what the loop was asked for is what the provider streams it consumed ask for, and it consumes them in order until it ends |
| ChatAgents.TurnFollowsTheStream | app/services/agents/chat_agent.py:156-258 | one turn told by its stream: cut off it fails with the stream's error, without tool calls it completes with that finish's usage and request id, with calls it answers exactly those and goes on |
| ChatAgents.StreamIsFaithful | app/services/agents/chat_agent.py:156-258 | whatever the provider streams, each completed message reads as the deltas shown since the one before |
| RunExecutor.ConsumeAttempt | app/worker/executor.py:270-342 | the inner loop's number, transcript, pending blocks and timer calls, and the fan-out sink it emits into, are those of the specification, also when an emit raises |
| RunExecutor.ConsumeAgent | app/worker/executor.py:254-342 | restarting into the same sink while the retry rule allows, the deciding attempt alone determines the outcome |
| RunExecutor.OutcomesByEnding | app/worker/executor.py:310-342 | told by the delivered events: a stream that ends succeeds with the completed messages and the last usage, a cancel and a provider failure keep the partial message behind them, the failure with its code, and any other exception leaves no outcome |
| RunExecutor.RetriesExactly | app/worker/executor.py:324-352 | an attempt is retried if and only if a provider failure came before anything was delivered, attempts are left, and the code, the error and the cancel flag allow it |
| RunExecutor.ConsumedIsDelivered | app/worker/executor.py:270-300 | the numbers, the emitted payloads and the usage are those of the delivered events in order |
| RunExecutor.FanoutSink.Emit | app/worker/event_sink.py:249-260 | the sink takes the event's number before its children run and keeps it when one raises |
| RunExecutor.CountersAgree | app/worker/event_sink.py:249-260 | wherever the loop may be left, the sink's own counter equals the loop's |
| RunExecutor.SequenceNumbersAreGapless | app/worker/executor.py:270-342 | over all attempts the sink receives exactly initial+1, initial+2, ... and the terminal event takes the next number: from the outcome on the normal path, from the sink's counter when the generator, an emit or the closing flush raises |
| RunExecutor.ExecuteRun | app/worker/executor.py:184-245 | the run from a new sink to its terminal event, for every raise, ends one past the contiguous numbers received; an agent that cannot be built ends at the first number |
| RunExecutor.SeenWatches | app/worker/executor.py:270-342 | watching the agent through a sink that may raise is still watching a beginning of the same agent loop |
| RunExecutor.ForwardedTextIsTranscriptText | app/worker/executor.py:270-342 | for every stream and every cancel, failure or retry point, the text forwarded on each channel is that of the outcome's assistant messages, the partial one included |
| RunExecutor.TranscriptIsDoneMessages | app/worker/executor.py:282-300 | the consumed transcript is exactly the completed messages of the delivered events |
| RunExecutor.WithPartialSpeaks | app/worker/executor.py:708-735 | appending the partial message adds exactly the pending text of each channel |
| RunAccounting.ModelCallsCountToolTurns | app/worker/timing.py:77-113 | the timer's model-call count is one plus the tool-result turns of the outcome's transcript, across retries |
| RunAccounting.SucceededTranscriptIsReplayable | app/worker/executor.py:683-686 | a succeeded run always ends in an assistant message without tool calls, and its transcript after its context has every exchange whole |
| RunTiming.RunTimer.Observe | app/worker/timing.py:88-113 | the in-place update equals the specified transition |
| RunTiming.RunTimer.Finish | app/worker/timing.py:118-136 | the report equals the specified one |
| RunTiming.ReportPartitionsExecution | app/worker/timing.py:66-136 | for every event sequence and non-decreasing clock the phase durations are non-negative and sum exactly to `execution_ms`, and ttft <= work <= execution whenever work is present |
| RunTiming.PhasesAreCreditedTheirTime | app/worker/timing.py:66-136 | each phase is reported exactly the time between clock readings during which it was the phase opened last, and which event opens which phase is written out |
| RunTiming.ReportMarks | app/worker/timing.py:88-136 | `ttft_ms` is the first text or reasoning, `work_ms` the first text of the last model call, and every finished tool is listed with its duration and success |
| RunTiming.RoundIsNearest | app/worker/timing.py:66-67 | clock differences are rounded to the nearest millisecond, halves to the even one |
| DraftCheckpoints.DraftCheckpointSink.EmitEvent | app/worker/event_sink.py:140-176 | the in-place emit equals the specified transition, including when it raises |
| DraftCheckpoints.DraftCheckpointSink.SaveCheckpoint | app/worker/event_sink.py:227-242 | a checkpoint saves everything buffered or, when saving fails, leaves it dirty |
| DraftCheckpoints.SavedDraftIsFold | app/worker/event_sink.py:140-242 | every saved draft holds, channel by channel, the text of all deltas up to its number and exactly the newest `max_events` of them in order |
| DraftCheckpoints.UnsavedTextHasATimer | app/worker/event_sink.py:140-246 | until an error surfaces, unsaved characters stay below the threshold and always have an armed timer |
| DraftCheckpoints.ToolEventOrFlushSavesAll | app/worker/event_sink.py:166-184 | a tool start, a tool finish or a flush that does not raise leaves nothing unsaved |
| DraftCheckpoints.DeltasWaitForTheThreshold | app/worker/event_sink.py:140-176 | a delta below the threshold is only buffered, with a timer; one that reaches it is saved at once or its error raised with nothing lost |
| DraftCheckpoints.OtherEventsSaveAtMost | app/worker/event_sink.py:140-176 | an empty delta changes nothing, and a tool event saves what is unsaved |
| DraftCheckpoints.ErrorsComeFromSaves | app/worker/event_sink.py:140-246 | while every save works no operation ever raises |
| RunPipeline.FlushedDraftIsTranscript | app/worker/event_sink.py:178-184 | after the closing flush the saved draft reads, on every channel, as the assistant messages of the outcome |
| RunPipeline.TrimmedRunsStayWellPaired | app/services/agents/context.py:35-53 | from any well-paired history trimmed to any budget, every model call of the run sees whole tool exchanges only |
| ContextTrim.TrimToBudget | app/services/agents/context.py:75-106 | pricing the turns and popping the oldest gives the specified suffix |
| ContextTrim.TrimmedIsLongestFit | app/services/agents/context.py:75-106 | trimming keeps the longest suffix of whole turns that fits, or just the last turn; a turn opens at a user message that is not made of tool results |
| ContextTrim.ContextIsPromptThenTurns | app/services/agents/context.py:35-53 | a context is the system prompt and the longest suffix of whole turns that fits what the prompt leaves of the budget |
| ContextTrim.PricedTexts | app/services/agents/context.py:109-142 | a block is priced by everything of it the model is given: a document by its metadata and its text, a call by its arguments, a notice by its name, type and wording |
| ContextTrim.MessageCosts | app/services/agents/context.py:145-157 | a message costs the tokens of its nonempty block texts on lines of their own, four more, and the reserve for each image |
| ContextTrim.ContextKeepsPairs | app/services/agents/context.py:35-53 | no context ever holds a tool result without its call or a call without its results |
| ContextTrim.AdmittedTurnFits | app/services/agents/context.py:44-53 | a last turn under half the budget and a prompt within the rest make the whole context fit |
| ToolFragments.AssembleCalls | app/agent/providers/openai_compat.py:240-277 | the buffer loop emits at each finish the calls of the fragments since the last one |
| ToolFragments.CallsAreDetermined | app/agent/providers/openai_compat.py:257-277 | the emitted calls are the only list with one call per index, in increasing order, each the concatenation of its own fragments |
| ToolFragments.CallsAreStrung | app/agent/providers/openai_compat.py:257-277 | told by the fragments alone: each call's id, name and arguments are those of its index's fragments strung together in stream order |
| ToolFragments.InterleavingDoesNotMatter | app/agent/providers/openai_compat.py:257-277 | any interleaving with the same fragments per index gives the same calls |
| ToolFragments.ChunkingDoesNotMatter | app/agent/providers/openai_compat.py:246-277 | so do any two streams that finish once, however they are cut into chunks |
| EmailOutbox.OutboxRow.ClaimOutbox | app/services/email/outbox.py:43-77 | claims exactly a due pending row, changing status and lease only |
| EmailOutbox.OutboxRow.BumpAttempt | app/services/email/outbox.py:80-97 | counts an attempt exactly while the row is SENDING, locked by the caller and not past its lease; otherwise changes nothing |
| EmailOutbox.OutboxRow.MarkSent | app/services/email/outbox.py:114-135 | records a delivery exactly while the row is SENDING, locked by the caller and not past its lease; otherwise changes nothing |
| EmailOutbox.OutboxRow.MarkFailure | app/services/email/outbox.py:138-163 | schedules the retry of that attempt, or buries the row at the limit, exactly while the row is SENDING, locked by the caller and not past its lease; otherwise changes nothing |
| EmailOutbox.OutboxRow.MarkDead | app/services/email/outbox.py:166-179 | buries the row exactly while the row is SENDING, locked by the caller and not past its lease; otherwise changes nothing |
| EmailOutbox.SweepOutbox | app/services/email/outbox.py:182-216 | recovers every expired lease that no other transaction has locked and returns exactly the due rows in order |
| OutboxProtocol.RunsKeepInv | app/services/email/outbox.py:219-300 | every interleaving of tasks, sweeps and crashes with arbitrary clocks keeps the protocol invariant |
| OutboxProtocol.SendsNeverExceedBudget | app/services/email/outbox.py:219-300 | the provider sees at most `max_attempts` calls for one row |
| OutboxProtocol.SendingExactlyWhenLocked | app/services/email/outbox.py:43-216 | a row is SENDING exactly when a task that claimed it is its recorded lease holder |
| OutboxProtocol.TerminalRowsAreFinal | app/services/email/outbox.py:43-216 | SENT and DEAD rows are never written again |
| OutboxProtocol.OnlyTheLiveOwnerWrites | app/services/email/outbox.py:43-216 | a row changes only in a claim of a pending due row, by the task that locked it while SENDING and the lease has not run out, or in a sweep of a lease that has |
| OutboxProtocol.LateStepsChangeNothing | app/services/email/outbox.py:80-179 | an attempt, a delivery, a failure or a burial by a task whose lease has run out, or which is not the holder, leaves every row as it was |
| OutboxProtocol.RowsChangeAsRecorded | app/services/email/outbox.py:43-216 | what every step makes of every row, field by field |
| OutboxProtocol.TasksMoveAsRecorded | app/services/email/outbox.py:219-300 | where every step takes its task: ready, exhausted, calling, settled as delivered, retried or buried, or stopped by a lost lease |
| OutboxProtocol.CallsAreCounted | app/services/email/outbox.py:219-300 | the send count grows with every provider call and with nothing else |
| EmailOutbox.LiveOrExpired | app/services/email/outbox.py:100-111 | at one clock reading no lease is both live and expired, and a held one is live exactly up to its end |
| OutboxProtocol.LostLeaseNeverWrites | app/services/email/outbox.py:100-179 | a task that lost its lease never regains it and never changes the row |
| OutboxProtocol.BackoffIndexInRange | app/services/email/outbox.py:138-163 | whenever a retry is scheduled the backoff index is a real schedule entry |
| AvatarSafety.EveryHistoryKeepsUploads | app/services/avatars/processing.py:80-211 | every interleaving of create, confirm, claim, write, settle, sweep, purge, withdrawal and deactivation keeps the upload invariant |
| AvatarSafety.AttemptsStayBounded | app/services/avatars/maintenance.py:31-57 | attempts never exceed the maximum, processing means leased, only current uploads have succeeded, one current upload in progress per user |
| AvatarSafety.SupersededIsNeverPublished | app/services/avatars/service.py:104-142 | once superseded, withdrawn or purged, an upload never becomes current again and never succeeds, whatever its workers still do |
| AvatarSafety.AvatarsChangeOnlyByTheOwner | app/services/avatars/processing.py:164-211 | an avatar changes to a key only when the task that stored that key settles while its upload is PROCESSING, leased to that task, current and of that active user |
| AvatarSafety.LostLeaseOnlyDiscards | app/services/avatars/processing.py:164-182 | settling a stored object whose upload is gone or leased to another task or none leaves every avatar and upload as it was and queues that object for deletion |
| AvatarSafety.OwnerPublishes | app/services/avatars/processing.py:191-211 | the lease owner of a current upload of an active user publishes: the avatar becomes its object, the upload succeeds, a former avatar is queued for deletion |
| AvatarSafety.SettlesAsRecorded | app/services/avatars/processing.py:108-211 | a settlement changes only the upload whose lease the task owns, to the row its progress calls for |
| AvatarSafety.UploadsChangeAsRecorded | app/services/avatars/maintenance.py:13-57 | what every other step makes of every upload, field by field: superseding, confirming, claiming and sweeping |
| AvatarSafety.TasksMoveAsRecorded | app/services/avatars/processing.py:80-211 | where a write, a settlement or a crash takes a task |
| AvatarSafety.ObjectsChangeAsRecorded | app/services/avatars/processing.py:108-144 | an object is stored by a write of its task and removed only by its due deletion row or by the file service that was handed it |
| AvatarSafety.DeletionTriesAsRecorded | app/services/avatars/maintenance.py:136-162 | a try keeps what was done, completes the row exactly when object and cache are both gone, and otherwise waits a minute doubled per earlier try, six hours at most |
| AvatarSafety.CreatedUpload | app/services/avatars/service.py:104-142 | a new upload is pending, current, unleased and expires with its session |
| AvatarObjects.EveryHistoryKeepsKeys | app/services/avatars/processing.py:108-211 | every interleaving keeps each object key with exactly one recorded holder |
| AvatarObjects.ObjectsAreAccounted | app/services/avatars/processing.py:108-211 | a stored object is a current avatar, awaits deletion or is held by a living unsettled attempt, if and only if no step of the history let go of it: a write that raised after storing, a worker that died holding it, or a replacement of an avatar that stood beside a file asset |
| AvatarObjects.StepLoses | app/services/files/avatar.py:680-697 | exactly those steps mark a key as lost |
| AvatarObjects.WritesAndCrashesLose | app/services/avatars/processing.py:108-144 | concrete histories: a write that raises after storing, and a worker that dies before settling, leave an object nobody answers for |
| AvatarObjects.CurrentAvatarsAreSafe | app/services/avatars/processing.py:191-211 | a current avatar's object is stored, belongs to one user and has no deletion row |
| AvatarObjects.CompletedDeletionsAreDone | app/services/avatars/maintenance.py:136-162 | a completed deletion row has purged its address and its object is gone |
| AvatarWorker.AvatarTables.ClaimUpload | app/services/avatars/processing.py:80-106 | claims exactly a queued current upload of an active user, otherwise changes nothing |
| AvatarWorker.AvatarTables.SettleStoredObject | app/services/avatars/processing.py:146-211 | settles as orphaned, superseded or published exactly as `LostLeaseOnlyDiscards`, `SettlesAsRecorded` and `OwnerPublishes` tell, with the deletion row each case needs |
| AvatarWorker.AvatarTables.SettleFailure | app/services/avatars/processing.py:113-144 | a failed attempt changes the upload only while it still owns the lease |
| AvatarWorker.AvatarTables.SweepUploads | app/services/avatars/maintenance.py:13-72 | the oldest unlocked expired leases and sessions, up to the batch size each, are that many single steps of the protocol, and the oldest due uploads are returned |
| AvatarWorker.QueriesSelect | app/services/avatars/maintenance.py:19-72 | which rows each maintenance query selects and by which column it orders them |
| Batches.BatchIsOldest | app/services/avatars/maintenance.py:19-30 | a batch holds different eligible rows in key order, and leaves an eligible row out only when full of rows whose keys are not greater |
| AvatarWorker.AvatarTables.ProcessDeletions | app/services/avatars/maintenance.py:116-162 | a pass over the oldest unlocked due rows, up to the batch size, is that many single-row steps of the protocol and returns how many of them are now complete |
| AvatarWorker.DeletionQuerySelects | app/services/avatars/maintenance.py:116-135 | the deletion query selects the unlocked incomplete rows that are due, ordered by their next attempt |
| AvatarWorker.AvatarTables.CreateUpload | app/services/avatars/service.py:104-142 | supersedes the user's current uploads and opens one new pending upload |
| AvatarWorker.AvatarTables.ConfirmUpload | app/services/avatars/service.py:172-203 | an upload becomes queued exactly when it was pending, current, in time and its object checks out, and expired exactly when it was pending and late or superseded; owner, currency, attempts and lease and every other row stay as they were |
| Sources.RecordsAreStable | app/search/postprocess.py:88-101 | registering never renumbers or moves a record, and extracted text is never replaced |
| Sources.StoredIdsAreFresh | app/search/postprocess.py:128-137 | what a run stores repeats unambiguous earlier sources or is numbered above them all, with no id twice |
| Sources.StoredSourcesAreListed | app/search/postprocess.py:128-137 | what a run stores is its own sources in order and then each cited id that resolves to an unambiguous earlier source and is not among them, once each, in order of first citation |
| Sources.NewPagesAreRecorded | app/search/postprocess.py:102-123 | a page not seen in this run gets its earlier number or the next one, the extract's text and title where there is one, and its address for want of a title |
| Sources.SeenPagesAreUpgraded | app/search/postprocess.py:88-101 | registering a page again changes at most its text and title, and only from a search snippet to nonblank extracted text |
| Sources.ExtractIsTheLast | app/search/postprocess.py:80-87 | a page's extract is the last one given for its normalized address |
| SourceHistory.RunNumbersPages | app/search/postprocess.py:58-137 | two pages of a run share a number exactly when they are the same page, never an ambiguous number, and a new page gets one above all earlier ids |
| SourceHistory.RunAddsNoAmbiguity | app/search/postprocess.py:128-137 | storing a run's sources leaves the set of ambiguous ids as it was, whatever the earlier sources |
| SourceHistory.NoNumberBecomesAmbiguous | app/search/postprocess.py:49-56 | over any number of runs, edits and regenerations no id becomes ambiguous |
| SourceHistory.NumbersAndPagesStayOneToOne | app/services/runs/history.py:77-109 | in a conversation that starts empty, ids and pages stay in one-to-one correspondence forever |
| SourceRegistries.SourceRegistry.constructor | app/search/postprocess.py:58-78 | the two loops over the earlier sources build the dictionaries the numbering needs |
| SourceRegistries.SourceRegistry.Register | app/search/postprocess.py:80-123 | the registering loop equals the specified numbering and returns one record per result |
| SourceRegistries.SourceRegistry.ListSources | app/search/postprocess.py:128-137 | the citation loop lists this run's sources and each cited earlier one once |
| SearchText.Collapse | app/services/conversations/search_text.py:85-99 | the loop grows the collapsed characters with the UTF-16 span each came from |
| SearchText.CharsAreNormalized | app/services/conversations/search_text.py:25-34 | the loop collapses a title exactly as normalization does, but for one trailing space |
| SearchText.TitleMatchRange | app/services/conversations/search_text.py:85-105 | the method returns the specified range |
| SearchText.MatchExactlyWhenOccurring | app/services/conversations/search_text.py:85-105 | a range is returned exactly when the normalized query occurs in the normalized title |
| SearchText.MatchedSliceIsTheQuery | app/services/conversations/search_text.py:81-105 | slicing the title at the UTF-16 offsets gives whole characters whose normalization is the query |
| SearchText.MatchIsTheFirst | app/services/conversations/search_text.py:100-105 | the range is that of the first occurrence in the collapsed title |
| SearchText.CodeUnitsDecode | app/services/conversations/search_text.py:81-82 | a character is one unit of its own value, or a high and a low surrogate from which its value can be read back |
| LikePattern.EscapeIsPerCharacter | app/services/conversations/search.py:199 | the three sequential replacements are one per-character escape |
| LikePattern.SearchPatternMatchesSubstring | app/services/conversations/search.py:199 | LIKE matches the escaped pattern exactly when the query is a substring |
| Paging.BuildPage | app/services/conversations/search.py:235-274 | the item loop shows the first `limit` rows with their title matches, targets and snippets, and a cursor exactly when one more was fetched |
| Paging.ItemsTellTheirRows | app/services/conversations/search.py:234-259 | an item holds its row, the title match, and the newest hit with target and snippet ranges exactly when the row has one |
| Paging.CursorNamesTheLast | app/services/conversations/search.py:260-273 | there is a cursor exactly when more rows were fetched than shown, and it names the query, the page size and the last row shown |
| Paging.SearchRefusals | app/services/conversations/search.py:161-198 | a search is refused exactly for its page size, or for a cursor of another query or page size, of a conversation that is gone, or without a query |
| Paging.RecentConversations | app/services/conversations/search.py:164-188 | without a query the ten most recent conversations are listed, with no cursor |
| Paging.NextCursorResumes | app/services/conversations/search.py:131-145 | the next cursor leaves exactly the rows after the page, in the same order |
| Paging.VisitShowsTheRest | app/services/conversations/search.py:189-207 | from any accepted cursor the client sees exactly what remains, in order, every page but the last full |
| Paging.FollowingVisitsEveryMatchOnce | app/services/conversations/search.py:131-274 | following the cursors visits every conversation the query occurs in exactly once in (updated_at, id) descending order, and stops |
| RateLimit.SlidingWindow.Check | app/services/auth/rate_limit.py:26-43 | the in-place script equals the specified decision and key |
| RateLimit.DecisionIsWindowCount | app/services/auth/rate_limit.py:26-43 | a request is admitted exactly when fewer than `limit` admissions lie in the window ending now |
| RateLimit.NoWindowExceedsLimit | app/services/auth/rate_limit.py:26-43 | no window (t-W, t], wherever it ends, holds more than `limit` admissions |
| RateLimit.ExpiryNeverChangesADecision | app/services/auth/rate_limit.py:26-43 | whether or not the expired key was already dropped, the decision and the kept members are the same |
| RateLimit.RetryAfterIsExact | app/services/auth/rate_limit.py:109-122 | with no other traffic a rejected caller is admitted after `retry_after` seconds and still rejected a full second earlier |
| RateLimit.RefusalsWait | app/services/auth/rate_limit.py:30-43 | every refusal names at least a second, an admission none, and a non-positive limit refuses everybody with exactly one second and stores nothing |

## Left out

- HTTP routes, schemas, settings, migrations, the CLI, email templates, auth tokens and the frontend: plumbing or finite tables.
- SDK, Redis and object-storage clients, image decoding, Markdown parsing, hashing and signing: foreign code, modelled as steps that may fail or as parameters.
- Ownership and locking of users and conversations, titles, pins, deletion and sharing of conversations: single-step facts.
- Normalization of a reply quote's excerpt and its anchor columns: the excerpt is stored as given; only the lookup of its source message is modelled.
- The assistant and Markdown search projections, and the query that computes a hit's columns: a row carries them.
- The cursor's signature and account binding: a cursor is a value bound to its query and page size.
- The raw query's length and NUL checks and the statement timeout: a search is given the normalized query.
- Termination of the agent loop: the code does not bound the number of model turns; the bound on executed calls is what holds.
- The structure of JSON values: tool metadata, tool arguments and continuation payloads are carried as serialized text.
- What the Postgres and Redis event sinks store, beyond whether an emit raises, and the merging of live and stored events.
- History loading and replay-mode selection: a run's context is built from any well-paired history.
- The converse of detached tracking: an unreferenced file need not be marked, since only the files of the edited message are refreshed.
- The file service's own avatar path: its withdrawals, its replacement of an avatar and its deletions are environment steps.
- That every avatar upload ends in a terminal state: a superseded attempt that fails goes back to queued and is never claimed again.
- Title jobs: an expired lease is reclaimed without a cap and completion checks no owner, so the outbox laws do not carry over.
- Citation parsing of the answer text: the cited ids are an arbitrary list.
- A result with an empty URL: it would be stored but never read back, and the search client filters such results, so the numbering laws speak of the items a later run can read.
- Collisions of random members in the limiter, and a Redis clock that differs from the caller's.
- Deletion of run, message and file rows: files may change arbitrarily between steps, runs and messages only as the modelled operations change them.
