/** The event-sourced vocabulary shared by every component: identifiers, prompt
    messages, and the recorded events of one session's log.

    Payload and metadata validators (text encodings, identifier syntax, timestamp
    ranges) are represented by their verdicts, carried on the record, so that every
    claim about a log holds whatever those validators decide. */
module Domain {

  datatype Option<+T> = None | Some(value: T)

  datatype Result<+T, +E> = Ok(value: T) | Err(error: E)

  datatype Role = Unset | System | User | Assistant | Tool

  datatype ToolCallOffer = ToolCallOffer(id: string, name: string, arguments: string)

  /** A hidden reasoning block replayed to the provider. */
  datatype ReasoningBlock = ReasoningBlock(thinking: string, signature: Option<string>)

  datatype ProviderState = ProviderState(reasoningContent: string, messagesContent: seq<ReasoningBlock>)

  datatype Message = Message(
    role: Role,
    text: string,
    toolCalls: seq<ToolCallOffer>,
    toolCallID: string,
    name: string,
    providerState: Option<ProviderState>)

  /** A message with a role and a text and nothing else. */
  function TextMessage(role: Role, text: string): Message {
    Message(role, text, [], "", "", None)
  }

  datatype InstructionScope = InstructionScope(path: string, scope: string)

  /** An instruction file as it stands: its place, the digest of its content and the content. */
  datatype InstructionSource = InstructionSource(path: string, scope: string, digest: string, content: string)

  datatype InstructionAction = SetAction | ReplaceAction | RemoveAction | UnknownAction

  datatype InstructionChange = InstructionChange(
    action: InstructionAction, path: string, scope: string,
    priorDigest: string, digest: string, content: string)

  datatype InstructionDiagnostic = InstructionDiagnostic(path: string, failureClass: string)

  datatype CheckpointKind = RollingSummary | SourceTailReset | OtherKind(text: string)

  /** The instructions in force at a sequence, as listed and as rendered. */
  datatype InstructionSnapshot = InstructionSnapshot(
    promptID: string, promptDigest: string, epoch: nat, throughSequence: nat,
    sources: seq<InstructionSource>, renderedMessage: string, digest: string)

  /** A checkpoint as a completed compaction records it. */
  datatype CheckpointRecord = CheckpointRecord(
    id: string, kind: CheckpointKind, sourceSchema: string, summaryFormat: string, promptVersion: string,
    coveredEvents: nat, coveredTurns: nat, throughSequence: nat, sourceDigestHex: string,
    previousID: string, summary: string, limitations: string,
    tokensBefore: nat, checkpointTokens: nat, retainedTailTokens: nat, estimatedRequestTokens: nat,
    summarizerRoute: string, summarizerUsage: nat, summaryChunks: nat, prunedToolResults: nat,
    snapshot: Option<InstructionSnapshot>)

  datatype Trigger = PreTurn | Manual | MidTurn | OverflowRetry

  datatype Strategy = SummaryStrategy | ResetStrategy

  /** The closed vocabulary of failure and interruption codes; any other text is `OtherReason`. */
  datatype Reason =
    | ModelStartup | ModelStream | OutputLimit | InvalidStream | ModelFailure
    | ProviderAuth | ProviderQuota | ProviderRateLimit | ProviderTransient | ProviderPermanent
    | CapabilityMismatch | ContextOverflow | EmptyResponse | StepLimit | EnvelopeLimit
    | CallerCanceled | DeliveryFailed | RequestAbandoned | ProcessCrash
    | RuntimeRecovered
    | OtherReason(text: string)

  datatype Event =
    | SessionCreated(workspaceRoot: string)
    | SessionClosed
    | SessionDeleted
    | TurnStarted(turnID: string, input: string)
    | TurnCompleted(turnID: string)
    | TurnFailed(turnID: string, code: Reason, message: string)
    | TurnInterrupted(turnID: string, reason: Reason)
    | AssistantMessageStarted(turnID: string, itemID: string)
    | AssistantMessageCompleted(turnID: string, itemID: string, text: string,
                                toolCalls: seq<ToolCallOffer>, providerState: Option<ProviderState>)
    | AssistantMessageFailed(turnID: string, itemID: string, code: Reason, message: string)
    | AssistantMessageInterrupted(turnID: string, itemID: string, code: Reason, message: string)
    | ModelRequestRecorded(turnID: string, itemID: string, decisionID: string, attemptIndex: nat)
    | ModelUsageRecorded(turnID: string, itemID: string)
    | ToolCallStarted(turnID: string, itemID: string, callID: string, name: string)
    | ToolCallCompleted(turnID: string, itemID: string, callID: string, content: string)
    | ToolCallFailed(turnID: string, itemID: string, callID: string, code: Reason, message: string)
    | ToolCallInterrupted(turnID: string, itemID: string, callID: string, code: Reason, message: string)
    | PolicyDecisionRecorded(turnID: string, itemID: string)
    | ApprovalRequested(turnID: string, itemID: string)
    | ApprovalResolved(turnID: string, itemID: string)
    | ContextCompactionStarted(compactionID: string, trigger: Trigger, strategy: Strategy)
    | ContextCompactionCompleted(compactionID: string, checkpoint: CheckpointRecord)
    | ContextCompactionFailed(compactionID: string, code: Reason)
    | ContextPreparedRecorded(turnID: string, itemID: string, decisionID: string,
                              attemptIndex: nat, trigger: Trigger)
    | WorkspaceInstructionsRecorded(epoch: nat, discovered: seq<InstructionScope>,
                                    changes: seq<InstructionChange>,
                                    renderedMessage: string, effectiveSetDigest: string)
    | UnknownEvent

  datatype Code =
    | InvalidEvent | InvalidID | InvalidCommand | SequenceMismatch
    | SessionAlreadyExists | SessionNotFound | SessionIsClosed | SessionIsDeleted
    | TurnAlreadyRunning | TurnNotRunning | TurnMismatch
    | CompactionAlreadyRunning | CompactionNotRunning | CompactionMismatch

  /** The verdict of a validator that is not modelled further. */
  datatype Check = Pass | Fault(code: Code)

  /** One event as the store returns it. `metadata` is the verdict on the envelope,
      `turnParses` and `itemParses` on the identifiers inside the event, `payload` on the
      rest of the event. */
  datatype Record = Record(
    eventID: string,
    commandID: string,
    sessionID: string,
    sequence: nat,
    occurredAt: int,
    event: Event,
    metadata: Check,
    turnParses: bool,
    itemParses: bool,
    payload: Check)

  const MAX_UINT64: nat := 0xFFFF_FFFF_FFFF_FFFF

  /** Sequence numbers that strictly increase along the log. */
  ghost predicate Increasing(records: seq<Record>) {
    forall i, j :: 0 <= i < j < |records| ==> records[i].sequence < records[j].sequence
  }

  /** A whole stream: sequences 1, 2, ..., n. */
  ghost predicate Contiguous(records: seq<Record>) {
    forall i :: 0 <= i < |records| ==> records[i].sequence == i + 1
  }
}
