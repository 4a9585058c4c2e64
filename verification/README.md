# Verified model of the agent harness core

This project models, in Dafny, the event-sourced core of the Open Code Harness and proves properties of it
that hold for every log, every run and every answer of the outside world.

- **Session aggregate and request reconstruction** (`Domain`, `Session`, `RequestWalk`). Two machines read one
  log: `Apply` over all events, and the stricter walk over one command's events. Both follow one account of a
  turn's life, so they agree with each other.
- **Context engine** (`Meter`, `Projector`, `ProjectorLoop`, `UnitOrder`, `Straddle`, `ToolPairs`, `Planner`,
  `SourceDigest`, `Scan`, `ToolResult`, `Materialize`, `Summarizer`, `SummaryValidation`, `CompactionTrace`, `Bracket`,
  `CheckpointStore`, `Orchestrator`). The log is folded into whole conversational units, a cut is chosen (by the built-in rule or by an
  arbitrary policy callback), a checkpoint replaces the covered prefix, and the next request is assembled. A scan
  resumed at a checkpoint is compared with the full scan, a rolling digest with a cold rebuild, single passes with
  definitions from scratch.
- **Append protocol and execution registry** (`AppendStore`, `AppendProtocol`, `ReadStream`, `Registry`, `Framing`,
  `RequestIdentity`, `BracketCommit`, `StoreViews`). A store is a step system in which anyone may commit before and
  after every call and any answer may be lost; the registry is a class whose invariant holds over every interleaving
  of calls. The last three modules join the parts: canonical bytes make digests identify requests, a bracket's appends
  are carried out by the append protocol, and every reachable store serves the scans and the bracket.
- **Workspace instructions and durable checkpoints** (`Ordering`, `SourceList`, `Instructions`, `SnapshotRender`,
  `InstructionText`, `CheckpointRecord`, `PriorTurns`). Recorded deltas replay to the live state; a checkpoint records
  the instructions in force at its boundary and is read back from its record; the older projector is compared with the
  newer one.

What comes from outside is a parameter, so each statement is for every value of it: the policy callback, the meter's
price of a message, hash functions, validators of payloads, identifiers and paths (as verdicts carried on records or
as functions), the encoding of a character in a message, the store's replies and losses, identifiers and clocks, the
answers of the summarizer, the masking of secrets, and the caller's cancellation
at each point where the code looks at it. Text is a sequence of code points with the byte length of UTF-8 (section 3
of RFC 3629); hashing is uninterpreted and no collision freedom is claimed. Loops and updates in place are methods,
with arrays or objects where the code shares them, each proved equal to a specification function.

Four properties one might expect are false of the code and are stated exactly instead:

- A unit boundary in front of a turn does not make a resumed scan safe, as the comment on `Scan`
  (`internal/harness/contextengine/planner.go:66-83`) says. `Straddle.BoundaryBeforeTurnMayStraddle` gives a log that
  the session aggregate accepts, where the full scan succeeds and the resumed one fails; `UnitOrder.ResumeAfter` says
  exactly when resuming works: if and only if nothing after the boundary reports on a call left open at it. A failed
  resume is an error, never a silently shorter request.
- A checkpoint is not always readable from its own record: the truncation search of the instruction renderer leaves a
  trial cut in the caller's slice. `CheckpointRecord.LongSourceIsRejected` gives the sources, for every encoding that
  spends a byte on a character, and `CheckpointRecord.CheckpointRoundTrip` the exact condition. By
  `Orchestrator.NextRequestLoads` a completed bracket can so leave a record on which every later request of the session
  fails.
- Without a policy callback a plan may ask for compaction while covering nothing. `Planner.ForcedPlanOverNothing` gives
  the inputs and `Planner.EmptyCompaction` the exact condition: a cut is due and none is eligible. A plan chosen by a
  callback never does this (`Planner.SafeUnderAnyPolicy`).
- The comment on the result of summary validation
  (`internal/harness/contextengine/summarizer_validation.go:60-65`) says that what was checked and what is recorded are
  identical, because redaction comes first. The request is priced on the text as it came
  (`internal/harness/application/context_orchestrator.go:913-917`), and carries it redacted.
  `Bracket.RedactionMovesTheCost` gives the difference, and that there is none exactly when redaction keeps the price;
  `Bracket.RedactionMayOverrun` gives, for the wire meter and every redaction that makes some text dearer, a validated
  summary whose request exceeds the hard limit.

Where code and comments differ the code is followed: the projector also emits instruction messages although its comment
speaks of source events only, and a reset's eligibility is estimated with a placeholder checkpoint identifier.

`dafny verify dfyconfig.toml` checks the whole project.

## Model

| member | source | states |
|---|---|---|
| Session.ReplaySplits | internal/harness/domain/replay.go:79-89 | folding a concatenated log is folding the second part from the state after the first, errors included |
| Session.ReplayIsContiguous | internal/harness/domain/apply.go:11-40 | an accepted log is numbered without gaps from the starting version, and the final version counts its records |
| RequestWalk.WalkRequestCommand | internal/harness/application/request_result.go:77-105 | the index loop computes the walk of the specification, for every list of records and every error |
| RequestWalk.ApplyFollowsView | internal/harness/domain/apply.go:214-324 | every accepted event keeps the aggregate's active turn, item and kind in agreement with the turn's view |
| RequestWalk.StepFollowsView | internal/harness/application/request_result.go:128-343 | every accepted step of the walk, of one event or two, keeps phase, open item, status and text in agreement with the turn's view |
| RequestWalk.LifeIgnoresOtherCommands | internal/harness/application/request_result.go:19-76 | when all events of a turn carry the command, its life over the whole log is its life over the command's records |
| RequestWalk.WalkSimulatesAggregate | internal/harness/application/request_result.go:77-343 | on any accepted log whose turn is started once and owned by the command, an accepted walk shows the aggregate's open item and kind, is terminal exactly when the turn is no longer active, carries the status of every terminal event of that turn and has one exactly when terminal, and reports its text |
| RequestWalk.TerminalEndsTurn | internal/harness/domain/apply.go:214-324 | a turn started once ends at most once: the status of whichever terminal event it has is the one it ends with |
| RequestWalk.WalkIsDisciplined | internal/harness/application/request_result.go:163-285 | beyond the aggregate: in an accepted walk no item is opened twice and no item's usage is recorded twice |
| Meter.EstimateMessages | internal/harness/contextengine/meter.go:80-108 | the accumulating loop is the sum of the prices of the messages |
| Meter.Estimate | internal/harness/contextengine/meter.go:68-78 | messages plus a charge per tool schema |
| Meter.TotalAdditive | internal/harness/contextengine/meter.go:80-108 | pricing is additive over concatenation of message lists |
| Meter.WireEstimateIsTotal | internal/harness/contextengine/meter.go:68-132 | the wire estimator prices messages one by one and the tools as a fixed charge, so all results about additive meters apply to it |
| Meter.TextTokensSubadditive | internal/harness/contextengine/meter.go:127-132 | rounding up makes text pricing subadditive and never cheaper than either part |
| Projector.ResumeEqualsRescan | internal/harness/contextengine/projector.go:112-241 | if a log projects, projecting its tail alone succeeds if and only if the tail names no call left open before it, and then the units are those of the two parts in sequence |
| ProjectorLoop.ProjectSourceEvents | internal/harness/contextengine/projector.go:112-216 | the pass over shared mutable steps computes the fold on values, units and faults alike |
| ProjectorLoop.CloseToolCall | internal/harness/contextengine/projector.go:223-241 | recording one result through a shared step shows under every open call of that step, emits the unit exactly when it was the last one missing, and tells a repeated result from an unknown call |
| ProjectorLoop.OpenCalls | internal/harness/contextengine/projector.go:163-187 | a new step is filed under each offered call, none of which may have been offered before |
| UnitOrder.UnitsAscend | internal/harness/contextengine/projector.go:112-216 | on increasing sequences the last sequences of the units strictly increase |
| UnitOrder.ResumeAfter | internal/harness/contextengine/planner.go:105-143 | a scan resumed after any sequence succeeds if and only if nothing later reports on a call open there, and then returns exactly the full scan's units that end later |
| Straddle.BoundaryBeforeTurnMayStraddle | internal/harness/contextengine/planner.go:66-83 | a boundary right before a turn is not enough to resume from: a concrete log that replays, where the full scan succeeds and the resumed one fails |
| ToolPairs.ProjectKeepsWell | internal/harness/contextengine/projector.go:71-88 | after every accepted log, emitted units are paired, offer each call once, and share no call with an open step |
| ToolPairs.ToolMessageFollowsOffer | internal/harness/contextengine/projector.go:71-88 | in a paired list each tool message stands after, and at the place given by, the message that offered its call |
| ToolPairs.OfferIsAnswered | internal/harness/contextengine/projector.go:71-88 | in a paired list each offered call is answered at its own place after the offer |
| ToolPairs.AnyTailIsPaired | internal/harness/contextengine/planner.go:276-281 | whatever suffix of the projected units is retained, its messages are paired and offer no call twice |
| Planner.LargestEligible | internal/harness/contextengine/planner.go:254-275 | the reference cut: the largest one in front of a turn whose kept tail costs at least the protected tail |
| Planner.WalkBack | internal/harness/contextengine/planner.go:250-275 | the two backward loops find exactly that largest eligible cut |
| Planner.RequestTokensArePrice | internal/harness/contextengine/planner.go:238-249 | the planner's sum over units is the meter's price of the assembled request |
| Planner.SelectCutPoint | internal/harness/contextengine/planner.go:238-298 | below the trigger nothing is covered; otherwise the cut, its coverage, what is retained and the estimate are those of the reference cut |
| Planner.OfferCandidates | internal/harness/contextengine/policy.go:44-68 | the single pass carrying tokens and turns down offers, for each eligible cut, the numbers recomputed from the kept units |
| Planner.OfferedIds | internal/harness/contextengine/policy.go:53-59 | the identifiers offered to a policy are exactly the eligible cuts |
| Planner.PlanUnderPolicy | internal/harness/contextengine/policy.go:16-97 | planning with any callback answer and any cancellation gives the plan, or the refusal, of the definition from scratch |
| Planner.SafeUnderAnyPolicy | internal/harness/contextengine/policy.go:16-97 | whatever the callback answers, covered followed by retained is all units, a cover ends right before a turn and within the forced built-in cut, the kept tail costs at least the protected tail, and a forced plan with any eligible cut compacts |
| Planner.EmptyCompaction | internal/harness/contextengine/planner.go:238-298 | the built-in plan asks for compaction and covers nothing if and only if a cut is due, forced or over the trigger, and no cut is eligible |
| SourceDigest.ExtendSourceDigestOverRecords | internal/harness/contextengine/source.go:79-91 | the loop is the chain over the source events among the records, with their count |
| SourceDigest.ChainSplits | internal/harness/contextengine/source.go:71-91 | extending a digest over more records is digesting the concatenation |
| SourceDigest.ReadRange | internal/harness/application/context_orchestrator.go:1304-1330 | against any store nothing beyond the end of the range is returned; a store that answers pinned reads from one log, whatever it has taken in since, returns exactly that range of it, whatever the page sizes, unless the caller canceled |
| SourceDigest.ProjectCountsTurns | internal/harness/application/context_orchestrator.go:624-632 | the turn units of a projection are counted by the records that start turns |
| SourceDigest.PrefixUnits | internal/harness/contextengine/planner.go:276-297 | the units up to the one ending at a boundary are precisely those of the records up to it, and dropping at the boundary leaves the others |
| SourceDigest.SuccessorIsColdRebuild | internal/harness/application/context_orchestrator.go:882-948 | a checkpoint built on a sound predecessor has the digest, event count and turn count of a rebuild from scratch, and covers strictly more |
| SourceDigest.LineageIsColdRebuild | internal/harness/application/context_orchestrator.go:955-1024 | along every lineage of checkpoints over a growing log the rolling digest and counts equal the cold rebuild, and the boundary moves strictly forward |
| Scan.Scan | internal/harness/contextengine/planner.go:105-143 | against any store a scan projects and digests exactly the records of pages that share one pinned head; a store that slices one log is scanned to its end, from any start, also beyond it |
| ToolResult.EscapeCost | internal/harness/contextengine/tool_result.go:124-128 | escaping a marker costs one byte for each of its occurrences |
| ToolResult.EscapeKeepsOthers | internal/harness/contextengine/tool_result.go:124-128 | escaping one marker neither makes nor breaks occurrences of the other |
| ToolResult.SplitIsExact | internal/harness/contextengine/tool_result.go:82-92 | head and tail excerpts use up the budget exactly, do not overlap, and each grows with it |
| ToolResult.FrameGrows | internal/harness/contextengine/tool_result.go:51-56 | a larger excerpt never makes a cheaper frame, escapes included |
| ToolResult.ProjectToolResult | internal/harness/contextengine/tool_result.go:74-117 | the binary search returns the content verbatim, or the largest excerpt whose frame fits, or the empty frame within the hard limit, or an error |
| ToolResult.ProjectionIsBounded | internal/harness/contextengine/tool_result.go:74-117 | what is returned costs at most the cap, or is the empty frame within the hard limit; an error means that not even the empty frame fits either |
| Materialize.AppendTail | internal/harness/contextengine/materialize.go:100-119 | the nested loop replaces tool results oldest first, as many as allowed, and keeps every other message |
| Materialize.PruneOnlyTexts | internal/harness/contextengine/materialize.go:106-119 | pruning changes texts and nothing else, message by message |
| Materialize.RequestTailIsPaired | internal/harness/contextengine/materialize.go:106-119 | the retained tail stays paired through any cut and any pruning |
| Materialize.PrunedTextsAreBounded | internal/harness/contextengine/materialize.go:106-119 | with the rule in force, every message is kept, or is a tool result over the cap whose new text costs at most the cap or is the empty frame within the hard limit |
| Materialize.Materialize | internal/harness/contextengine/materialize.go:80-145 | the request is prefix, checkpoint, snapshot, pruned tail and current input in that order, priced as a whole, with the checkpoint's identity and the bounds of the tail, zero when it is empty |
| Summarizer.FitUnitsUnderBudget | internal/harness/application/context_orchestrator.go:1114-1125 | the count returned fits the budget and one unit more does not |
| Summarizer.FocusFits | internal/harness/application/context_orchestrator.go:1080-1096 | adding the focus section costs at most what the section costs alone |
| Summarizer.SummarizeChunks | internal/harness/application/context_orchestrator.go:1151-1237 | whether or not it succeeds, the chunks sent are, in order and without gaps, a leading part of the covered units that are not instructions, none empty, each within the hard input budget and so full that the next unit would not fit; each rolls forward the validated answer to the one before; the focus is in the chunk that completes the units and no other; a success has sent all units, and its text answers the last chunk; a failure names its cause: no units or units left after the last chunk allowed was answered, a call without an answer or a next unit that does not fit behind the text rolled forward, an answer that does not validate with units left |
| Summarizer.OutcomeIsDetermined | internal/harness/application/context_orchestrator.go:1151-1237 | that contract leaves no choice: units, budget, provider and validator determine every chunk sent and the outcome |
| Bracket.BuildCoverage | internal/harness/application/context_orchestrator.go:882-905 | the coverage built extends the predecessor's digest and counts over exactly the newly covered records, up to the plan's boundary; there is none only if the caller canceled or a record cannot be digested |
| Bracket.BuildInstructionSnapshot | internal/harness/application/context_orchestrator.go:1260-1282 | the snapshot is that of the instructions replayed over exactly the records up to the boundary, none before the first recorded batch |
| Bracket.BuildSummaryCheckpoint | internal/harness/application/context_orchestrator.go:876-953 | a summary checkpoint that is returned is a valid successor with sound coverage and snapshot; its text is the redacted answer of the chunked summarization, with any focus, of the covered conversation, small, within its cap and cheaper than what it replaces; with the text as it came the request fits and is a tenth cheaper; a failure names its code and cause: how the summarization failed, or why its answer was of no use |
| Bracket.RedactionMovesTheCost | internal/harness/application/context_orchestrator.go:913-947 | the request differs from the recorded estimate by what redaction does to the price, and equals it exactly when redaction keeps the price |
| Bracket.RedactionMayOverrun | internal/harness/contextengine/summarizer_validation.go:60-65 | for the wire meter and every redaction that makes a well-shaped text dearer, a summary that passes validation and a request over the hard limit |
| Bracket.BuildResetCheckpoint | internal/harness/application/context_orchestrator.go:955-1028 | a reset checkpoint that is returned is a valid successor with sound coverage and snapshot whose request costs exactly its recorded estimate, within the hard input budget; a failure names its cause |
| Bracket.RunCompactionBracket | internal/harness/application/context_orchestrator.go:642-744 | the aggregate returned is the one over exactly the events written; unless an append failed no compaction is left open; at most two brackets are written, the second a reset after a failed summary on a request over the hard limit with the caller not canceled, each ended by a completion that records a sound checkpoint, a summary's from the summarization, or by a failure with its reason; a checkpoint is returned exactly when the last bracket completed, and is the one recorded; a failure means that an identifier was missing or that the append of the very next event of the bracket was refused |
| Bracket.CompletedIsReadBack | internal/harness/application/context_orchestrator.go:1332-1390 | the record of a completed bracket reads back as its checkpoint if and only if it has no instructions to show or rendering could leave their last source whole |
| BracketCommit.AppendEvent | internal/harness/application/context_orchestrator.go:835-864 | an append of a bracket, against every behaviour of the store, is commit and resolution of its single event, witnessed in the store where it succeeds |
| BracketCommit.AppendFollowsStream | internal/harness/application/context_orchestrator.go:835-864 | an aggregate that was the replay of its stream is so again after the append |
| Orchestrator.NothingLostNorTwice | internal/harness/application/context_orchestrator.go:447-458 | each projected unit ends at or before the boundary and is covered, or ends after it and is kept once, in order |
| Orchestrator.BracketKeepsRetained | internal/harness/contextengine/planner.go:276-297 | dropping what a new checkpoint covers leaves exactly the plan's retained units |
| Orchestrator.LoadUsableCheckpoint | internal/harness/application/context_orchestrator.go:483-497 | a stored record that does not read back stops the preparation; otherwise its checkpoint, or none, is loaded |
| Orchestrator.ChoosePlan | internal/harness/application/context_orchestrator.go:347-432 | the loaded checkpoint, also one beyond the log, is kept exactly when it passes replay validation against the first plan's tail; the plan is that of the planner over exactly the units after the checkpoint kept, forced exactly by a usage anchor over the trigger; a scan or a plan fails only for the stated reason |
| Orchestrator.CompactAndKeep | internal/harness/application/context_orchestrator.go:438-458 | after a successful bracket the new checkpoint is in force and the plan's retained units are kept; after a failed one the old checkpoint stays in force and nothing after its boundary is dropped |
| Orchestrator.PrepareContext | internal/harness/application/context_orchestrator.go:317-472 | while the log grows between and after its scans, and for every outcome, the request carries exactly the full projection's units that the checkpoint in force does not cover, paired; after a successful bracket these are the plan's retained units; a reset request without pruning costs its recorded estimate, within the hard input budget; the aggregate is the one over what the bracket wrote, and a failed bracket names its cause; an unreadable checkpoint always stops the preparation |
| Orchestrator.PreparedTailIsPaired | internal/harness/application/context_orchestrator.go:447-470 | what is kept of a resumed scan, pruned or not, is paired and offers no call twice |
| Orchestrator.NextRequestLoads | internal/harness/application/context_orchestrator.go:317-346 | after a completed bracket, and until the next completion, every request loads the recorded checkpoint from the stream, if and only if it has no instructions to show or rendering could leave their last source whole; otherwise every one fails on it |
| Orchestrator.LoadedMatches | internal/harness/application/context_orchestrator.go:483-497 | a checkpoint loaded from the store has the digest of the source events it covers |
| CheckpointStore.LoadLatest | internal/harness/adapters/memory/context_checkpoint.go:28-72 | the checkpoint of the latest completion in the stream, if its digest is that of the records it claims to cover, else a failure |
| CheckpointStore.VerifiedIffMatches | internal/harness/adapters/memory/context_checkpoint.go:55-71 | the store accepts a record within the stream if and only if its digest is that of the source events up to its boundary |
| CheckpointStore.BuiltMatches | internal/harness/application/context_orchestrator.go:882-905 | extending a digest that matches gives one that matches, whatever the recorded counts |
| CheckpointStore.CompletedIsLatest | internal/harness/adapters/memory/context_checkpoint.go:28-72 | once completed, a checkpoint built on one whose digest matches passes the store's check and is returned, however the stream grows, until the next completion |
| StoreViews.ReachableViewsServe | internal/harness/adapters/memory/event_store.go:331-365 | in every reachable store, whatever is committed in between, the reader serves whole logs to both scans and keeps each readable at its head for the bracket |
| AppendStore.RunKeepsValid | internal/harness/application/store.go:63-69 | over every run of transactions, commits stand whole at their own range and every stored record belongs to one |
| AppendStore.RunOnlyGrows | internal/harness/application/store.go:63-69 | streams only grow at their end and a commit is never undone or replaced |
| AppendStore.CommittedExactlyOnce | internal/harness/application/store.go:63-69 | in every reachable store a committed batch stands exactly once, in order, at its range, and nowhere else |
| AppendStore.ConflictIsFinal | internal/harness/application/append_resolution.go:74-92 | a batch refused because its stream moved on is never committed afterwards, whatever anyone does |
| AppendProtocol.ResolveAppendIntent | internal/harness/application/append_resolution.go:18-107 | at most the allowed number of store calls; a receipt is witnessed by a commit of that identity at that range, an identity mismatch by a commit of another digest, and a version conflict means the request was not written; an answered lookup decides, and with answers an unknown outcome means the caller canceled |
| AppendProtocol.ApplyCommittedIntent | internal/harness/application/append.go:96-130 | an invalid receipt is refused; otherwise state and records are the fold over the records the batch became |
| AppendProtocol.CommitAppendIntent | internal/harness/application/append.go:67-94 | one call; an answered one gives the fold over the commit the store holds, or the conflict it reports; a lost one never claims more than it knows |
| AppendProtocol.CommitThenResolve | internal/harness/application/context_orchestrator.go:835-864 | commit, then resolution of a lost outcome, for every behaviour of the environment: success means a witnessed commit and the fold over its records, within one call more than a resolution |
| AppendProtocol.ReceiptMeansExactlyOnce | internal/harness/application/append_resolution.go:62-66 | once a receipt was returned, and whatever runs later, the batch stands exactly once at the receipt's range; with a digest that identifies requests it is the intent's own |
| AppendProtocol.StreamIsContiguous | internal/harness/application/store.go:63-69 | every stream of a reachable store is a whole log, numbered from one |
| AppendProtocol.StateFollowsStream | internal/harness/application/append.go:103-130 | the returned state is the replay of the stream itself up to the committed batch |
| ReadStream.ReadWholeStreamPinned | internal/harness/application/read_stream.go:13-80 | against any store the loop terminates and a success is exactly sequences 1 to the head pinned by the first page; a store that slices one log is read back as that log |
| ReadStream.LoadCompactSessionPinned | internal/harness/application/read_stream.go:84-155 | page-by-page replay is the fold over the whole read, against any store; for a store that slices one log the answer is that of replaying the log, whatever the page sizes |
| ReadStream.GrownReaderServesPinned | internal/harness/adapters/memory/event_store.go:331-365 | a stream that has grown still answers reads pinned to an earlier head from the log up to it |
| Registry.CallKeepsInv | internal/harness/application/execution_registry.go:71-322 | every call, accepted or refused, keeps the invariant: counts of live entries and of unreleased leases, one owner lease per entry, unknown phases retained with an intent, waiters signalled once exactly when terminal, departure exactly when finished and unheld |
| Registry.CallAges | internal/harness/application/execution_registry.go:136-310 | identity, owner and published result of an entry never change, waiters are signalled at most once, an execution that is over never runs again, and no entry is admitted for a session holding a retained unknown |
| Registry.RunKeepsInvariant | internal/harness/application/execution_registry.go:71-322 | both over every sequence of calls, hence every interleaving under the lock |
| Registry.ExecutionRegistry.constructor | internal/harness/application/execution_registry.go:67-69 | a new registry is empty and satisfies the invariant |
| Registry.ExecutionRegistry.Acquire | internal/harness/application/execution_registry.go:71-88 | joins a live execution of the same identity, refuses another identity or a session with a retained unknown, else admits a new entry and is its owner |
| Registry.ExecutionRegistry.AttachExisting | internal/harness/application/execution_registry.go:90-102 | attaches only to a live execution of the same identity that is not an orphaned unknown, with a new lease that owns nothing |
| Registry.ExecutionRegistry.FindRetainedUnknown | internal/harness/application/execution_registry.go:104-111 | finds a retained unfinished entry of the session if and only if there is one |
| Registry.ExecutionRegistry.SetPhaseOf | internal/harness/application/execution_registry.go:140-157 | moves the phase only for the owner, along an allowed transition, never into an unknown phase |
| Registry.ExecutionRegistry.RetainIntentOf | internal/harness/application/execution_registry.go:159-174 | stores the intent only for the owner of a running or retained entry |
| Registry.ExecutionRegistry.RetainUnknownAs | internal/harness/application/execution_registry.go:180-196 | enters an unknown phase only with an intent, retaining the entry and suspending its owner |
| Registry.ExecutionRegistry.ResumeAfterResolved | internal/harness/application/execution_registry.go:230-243 | resumes only the owner of a retained entry in the required unknown phase |
| Registry.ExecutionRegistry.PublishRetainedResult | internal/harness/application/execution_registry.go:245-262 | publishes once for a retained entry, signals the waiters and lets it leave when unheld |
| Registry.ExecutionRegistry.PublishResult | internal/harness/application/execution_registry.go:264-280 | publishes once for a running entry, signals the waiters and lets it leave when unheld |
| Registry.ExecutionRegistry.Release | internal/harness/application/execution_registry.go:296-322 | gives a lease back once; the last one of a finished entry removes it and settles the session's count |
| Framing.NumberRoundTrip | internal/harness/application/digest.go:172-176 | fixed-width big-endian numbers decode to what was encoded |
| Framing.EncodeRoundTrip | internal/harness/application/digest.go:23-55 | the canonical bytes of a request decode to the same request with nothing left over |
| Framing.FramedDigestEncoder.WriteRaw | internal/harness/application/digest.go:193-202 | without an error the buffer is everything handed over, within the limit if there is one; with the sticky error it would have exceeded it |
| Framing.FramedDigestEncoder.WriteBytes | internal/harness/application/digest.go:182-191 | hands over the value behind its length |
| Framing.CanonicalBytes | internal/harness/application/digest.go:23-55 | the bytes are produced exactly when they fit the limit of 16 MiB |
| Framing.EqualBytesEqualRequests | internal/harness/application/digest.go:23-55 | requests with equal canonical bytes agree on session, expected version, command, admission and the full event list |
| Framing.RunTurnBytes | internal/harness/application/digest.go:59-75 | the encoder without a limit yields the framed identity of a run-turn request, exactly when both values fit their length prefix |
| Framing.RunTurnBytesAreInjective | internal/harness/application/digest.go:59-75 | run-turn requests with equal bytes have equal sessions and inputs |
| RequestIdentity.HashIdentifies | internal/harness/application/digest.go:23-55 | a hash without collisions on canonical bytes makes digests identify append requests |
| Instructions.ReconcileLoop | internal/harness/agentinstructions/state.go:80-159 | the two loops, over the sorted observations, compute the reconciliation of the specification, faults included |
| Instructions.BatchIsInOrder | internal/harness/agentinstructions/state.go:90-94 | discoveries and changes are emitted shallow scopes first and alphabetically, whatever order the observations came in |
| Instructions.ReplayLoop | internal/harness/agentinstructions/state.go:167-197 | the loops over events, discoveries and changes compute the replay of the specification, faults included |
| Instructions.ReconcileReplays | internal/harness/agentinstructions/state.go:80-227 | replaying a batch on the state it was made from gives the state it led to |
| Instructions.ReconcileKeepsWell | internal/harness/agentinstructions/state.go:98-116 | every source's path stays discovered and at most 256 paths are discovered |
| Instructions.ReplayRebuildsLiveState | internal/harness/agentinstructions/state.go:167-227 | after every run of reconciliations, with other events in between and failed appends, replaying the log gives the live state |
| Instructions.ReplayIsKeyed | internal/harness/agentinstructions/state.go:199-227 | a replayed state files every source under its own path |
| Instructions.ReconcileSortedAgain | internal/harness/agentinstructions/state.go:80-159 | the same for the observations in the order the reconciler takes them |
| Instructions.ReconcileAgain | internal/harness/agentinstructions/state.go:118-152 | reconciling the same observations again, when none failed, yields an empty batch and the same state |
| SourceList.ListSources | internal/harness/agentinstructions/state.go:229-238 | listing a map lists every source once, in order of scope depth and path |
| SourceList.OrderedSourcesReadBack | internal/harness/agentinstructions/state.go:229-238 | filing the ordered sources under their paths gives the map back |
| SnapshotRender.FitSources | internal/harness/agentinstructions/render.go:73-117 | the message is the one that fits by omitting sources and then cutting the last, and the caller's array is left with the last trial cut |
| InstructionText.RenderBounded | internal/harness/agentinstructions/render.go:50-117 | the whole message if it is short; else change contents are blanked in the caller's slice, sources omitted and the last one cut, and the slices are left so |
| InstructionText.JsonGrows | internal/harness/agentinstructions/render.go:50-117 | the JSON message grows with the content of the last source and with each diagnostic, so the search meets its assumption |
| SnapshotRender.LeftUntouched | internal/harness/agentinstructions/render.go:93-112 | rendering leaves the sources as they were if and only if no cut was needed, the last source is empty, or losing one character was enough |
| CheckpointRecord.HexRoundTrip | internal/harness/application/context_orchestrator.go:1392-1400 | hexadecimal digests decode to what was encoded |
| CheckpointRecord.RenderSnapshot | internal/harness/agentinstructions/render.go:36-48 | the snapshot lists what rendering left of the ordered sources and carries the digest of the set itself |
| CheckpointRecord.ReadRecord | internal/harness/application/context_orchestrator.go:1332-1368 | decoding the digest, rendering the recorded sources again and comparing gives the checkpoint or the fault of the specification |
| CheckpointRecord.RoundTripIffAccepted | internal/harness/application/context_orchestrator.go:1332-1390 | reading a record back gives the checkpoint it came from, exactly when its snapshot, if any, passes its own check |
| CheckpointRecord.CheckpointRoundTrip | internal/harness/application/context_orchestrator.go:1332-1390 | a checkpoint with a rendered snapshot, whose set digest tells what rendering left from what was there, survives its record if and only if the truncation search was not needed, or had nothing or one character to cut |
| CheckpointRecord.TruncatedSnapshotIsRejected | internal/harness/agentinstructions/render.go:36-48 | with every encoding that spends a byte on a character, a checkpoint whose last source is two characters over the limit is rejected when read back |
| CheckpointRecord.LongSourceIsRejected | internal/harness/agentinstructions/render.go:36-48 | such sources, and so the rejected checkpoint |
| PriorTurns.ProjectPriorTurns | internal/harness/application/loop.go:91-142 | the loop is the older projection as a fold |
| PriorTurns.ProjectorsAgree | internal/harness/application/loop.go:91-142 | on orderly logs the messages of the projected units are those of the older projection, in the same order |

## Left out

- 64-bit wrap-around of token counts, sequence numbers, epochs and lease counts: numbers are unbounded; only the comparison with the largest trigger and the widths of encoded numbers are bounded.
- Payload, metadata, identifier, path and label validators: their verdicts are parameters, so nothing is said about which inputs they accept.
- `domain.Decide`, `BuildAppendIntent`, the event codec and record cloning: an append takes the event it is given; the records it becomes are arbitrary, and the session of the state is that of the request.
- SHA-256, the fixed pieces of the JSON message and the bytes of an escaped character: parameters; results that need digests to tell requests or source sets apart, or a byte for every character, say so in their hypotheses.
- SummaryValidation.ValidateSummary: the heading check and the masking of secrets are parameters, so nothing is said about which texts have the required shape.
- The manual compaction entry point (`internal/harness/application/context_manual.go`), which brackets the same summary checkpoint with a focus: it would only repeat the automatic bracket.
- Scan.Scan: assumes that a page which does not end the stream moves the cursor on, within some bound, because the loop has no progress check and need not end otherwise.
- SourceDigest.ReadRange: assumes the same of the store, for the same reason.
- Bracket.CompletedIsReadBack: assumes a set digest that tells what rendering left from what was there; with equal digests of different sets the code would accept the cut list.
- Registry.RunKeepsInvariant: entries and leases are handles into the list of objects allocated so far; waiting on the done channel and the snapshot accessor are not modelled.
- PriorTurns.ProjectorsAgree: `turnProjection.applyRecords`, which continues the same fold during a turn, would only add an easy member.
- How a usage anchor is found and priced (its estimate is a parameter), budget percentages, writer authority, timeouts, telemetry and wall-clock time.
- The checkpoint table of the SQLite store, which caches what `CheckpointStore.LoadLatest` recomputes, and the SQLite, MCP, provider, execution and telemetry adapters, the runtime host, the command line, the launcher, the ACP client and the web bridge.
