/** The bounded session aggregate: `Apply` folds one recorded event into it. */
module Session {
  import opened Domain

  datatype SessionStatus = NoStatus | Active | Closed | Deleted

  datatype ItemKind = AssistantItem | ToolItem

  datatype Item = Item(id: string, turnID: string, kind: ItemKind, startedAt: int)

  datatype Turn = Turn(id: string, input: string, startedAt: int, lastTransitionAt: int, activeItem: Option<Item>)

  datatype Compaction = Compaction(id: string, trigger: Trigger, strategy: Strategy, baseVersion: nat, startedAt: int)

  datatype State = State(
    id: string,
    status: SessionStatus,
    version: nat,
    workspaceRoot: string,
    activeTurn: Option<Turn>,
    compaction: Option<Compaction>)
  {
    predicate Exists() {
      id != ""
    }
  }

  const PRISTINE := State("", NoStatus, 0, "", None, None)

  function Apply(s: State, r: Record): Result<State, Code> {
    if r.metadata.Fault? then Err(r.metadata.code)
    else if r.sessionID == "" then Err(InvalidID)
    else if s.version == MAX_UINT64 then Err(SequenceMismatch)
    else if r.event.SessionCreated? && s != PRISTINE then Err(SessionAlreadyExists)
    else if r.sequence != s.version + 1 then Err(SequenceMismatch)
    else match r.event
      case SessionCreated(root) =>
        if r.payload.Fault? then Err(r.payload.code)
        else Ok(State(r.sessionID, Active, r.sequence, root, None, None))
      case SessionClosed => ApplyClosed(s, r)
      case SessionDeleted => ApplyDeleted(s, r)
      case TurnStarted(turnID, input) => ApplyTurnStarted(s, r, turnID, input)
      case TurnCompleted(turnID) => ApplyTerminalTurn(s, r, turnID)
      case TurnFailed(turnID, _, _) => AfterPayload(r, ApplyTerminalTurn(s, r, turnID))
      case TurnInterrupted(turnID, _) => AfterPayload(r, ApplyTerminalTurn(s, r, turnID))
      case AssistantMessageStarted(turnID, itemID) => ApplyItemStarted(s, r, turnID, itemID, AssistantItem)
      case ToolCallStarted(turnID, itemID, _, _) => ApplyItemStarted(s, r, turnID, itemID, ToolItem)
      case AssistantMessageCompleted(turnID, itemID, _, _, _) =>
        AfterPayload(r, ApplyTerminalItem(s, r, turnID, itemID, AssistantItem))
      case AssistantMessageFailed(turnID, itemID, _, _) =>
        AfterPayload(r, ApplyTerminalItem(s, r, turnID, itemID, AssistantItem))
      case AssistantMessageInterrupted(turnID, itemID, _, _) =>
        AfterPayload(r, ApplyTerminalItem(s, r, turnID, itemID, AssistantItem))
      case ToolCallCompleted(turnID, itemID, _, _) =>
        AfterPayload(r, ApplyTerminalItem(s, r, turnID, itemID, ToolItem))
      case ToolCallFailed(turnID, itemID, _, _, _) =>
        AfterPayload(r, ApplyTerminalItem(s, r, turnID, itemID, ToolItem))
      case ToolCallInterrupted(turnID, itemID, _, _, _) =>
        AfterPayload(r, ApplyTerminalItem(s, r, turnID, itemID, ToolItem))
      case ModelRequestRecorded(turnID, itemID, _, _) =>
        AfterPayload(r, ApplyFact(s, r, turnID, itemID, AssistantItem))
      case ModelUsageRecorded(turnID, itemID) =>
        AfterPayload(r, ApplyFact(s, r, turnID, itemID, AssistantItem))
      case ContextPreparedRecorded(turnID, itemID, _, _, _) =>
        AfterPayload(r, ApplyFact(s, r, turnID, itemID, AssistantItem))
      case PolicyDecisionRecorded(turnID, itemID) =>
        AfterPayload(r, ApplyFact(s, r, turnID, itemID, ToolItem))
      case ApprovalRequested(turnID, itemID) =>
        AfterPayload(r, ApplyFact(s, r, turnID, itemID, ToolItem))
      case ApprovalResolved(turnID, itemID) =>
        AfterPayload(r, ApplyFact(s, r, turnID, itemID, ToolItem))
      case ContextCompactionStarted(id, trigger, strategy) => ApplyCompactionStarted(s, r, id, trigger, strategy)
      case ContextCompactionCompleted(id, _) => ApplyCompactionEnded(s, r, id)
      case ContextCompactionFailed(id, _) => ApplyCompactionEnded(s, r, id)
      case WorkspaceInstructionsRecorded(_, _, _, _, _) => AfterPayload(r, ApplyInstructions(s, r))
      case UnknownEvent => Err(InvalidEvent)
  }

  function AfterPayload(r: Record, otherwise: Result<State, Code>): Result<State, Code> {
    if r.payload.Fault? then Err(r.payload.code) else otherwise
  }

  function RequireActive(s: State, sessionID: string): Check {
    if !s.Exists() then Fault(SessionNotFound)
    else if sessionID != s.id then Fault(InvalidEvent)
    else if s.status == Closed then Fault(SessionIsClosed)
    else if s.status != Active then Fault(InvalidEvent)
    else Pass
  }

  function RequireTurn(s: State, r: Record, turnID: string): (c: Check)
    ensures c.Pass? ==> RequireActive(s, r.sessionID).Pass? && s.activeTurn.Some? && s.activeTurn.value.id == turnID
  {
    match RequireActive(s, r.sessionID)
    case Fault(code) => Fault(code)
    case Pass =>
      if !r.turnParses then Fault(InvalidEvent)
      else if s.activeTurn.None? then Fault(TurnNotRunning)
      else if s.activeTurn.value.id != turnID then Fault(TurnMismatch)
      else Pass
  }

  function RequireItem(s: State, r: Record, turnID: string, itemID: string, kind: ItemKind): (c: Check)
    ensures c.Pass? ==> RequireTurn(s, r, turnID).Pass? && s.activeTurn.value.activeItem.Some?
    ensures c.Pass? ==> s.activeTurn.value.activeItem.value.id == itemID
    ensures c.Pass? ==> s.activeTurn.value.activeItem.value.kind == kind
  {
    match RequireTurn(s, r, turnID)
    case Fault(code) => Fault(code)
    case Pass =>
      var active := s.activeTurn.value.activeItem;
      if !r.itemParses || active.None? || active.value.id != itemID then Fault(InvalidEvent)
      else if active.value.kind != kind then Fault(InvalidEvent)
      else Pass
  }

  function ApplyInstructions(s: State, r: Record): Result<State, Code> {
    match RequireActive(s, r.sessionID)
    case Fault(code) => Err(code)
    case Pass => Ok(s.(version := r.sequence))
  }

  function ApplyClosed(s: State, r: Record): Result<State, Code> {
    match RequireActive(s, r.sessionID)
    case Fault(code) => Err(code)
    case Pass =>
      if s.activeTurn.Some? then Err(TurnAlreadyRunning)
      else Ok(s.(status := Closed, version := r.sequence))
  }

  function ApplyDeleted(s: State, r: Record): Result<State, Code> {
    if !s.Exists() then Err(SessionNotFound)
    else if r.sessionID != s.id then Err(InvalidEvent)
    else if s.status == Deleted then Err(SessionIsDeleted)
    else if s.status != Active && s.status != Closed then Err(InvalidEvent)
    else if s.activeTurn.Some? then Err(TurnAlreadyRunning)
    else Ok(s.(status := Deleted, version := r.sequence))
  }

  function ApplyTurnStarted(s: State, r: Record, turnID: string, input: string): Result<State, Code> {
    match RequireActive(s, r.sessionID)
    case Fault(code) => Err(code)
    case Pass =>
      if !r.turnParses then Err(InvalidEvent)
      else if r.payload.Fault? then Err(r.payload.code)
      else if s.activeTurn.Some? then Err(TurnAlreadyRunning)
      else Ok(s.(activeTurn := Some(Turn(turnID, input, r.occurredAt, r.occurredAt, None)), version := r.sequence))
  }

  function ApplyTerminalTurn(s: State, r: Record, turnID: string): Result<State, Code> {
    match RequireTurn(s, r, turnID)
    case Fault(code) => Err(code)
    case Pass =>
      var turn := s.activeTurn.value;
      if turn.activeItem.Some? then Err(InvalidEvent)
      else if r.occurredAt < turn.lastTransitionAt then Err(InvalidEvent)
      else Ok(s.(activeTurn := None, version := r.sequence))
  }

  /** Assistant messages and tool calls start alike; a tool call checks its payload instead of its item. */
  function ApplyItemStarted(s: State, r: Record, turnID: string, itemID: string, kind: ItemKind): Result<State, Code> {
    match RequireTurn(s, r, turnID)
    case Fault(code) => Err(code)
    case Pass =>
      var turn := s.activeTurn.value;
      if kind == ToolItem && r.payload.Fault? then Err(r.payload.code)
      else if kind == AssistantItem && !r.itemParses then Err(InvalidEvent)
      else if turn.activeItem.Some? then Err(InvalidEvent)
      else if r.occurredAt < turn.lastTransitionAt then Err(InvalidEvent)
      else
        var item := Item(itemID, turnID, kind, r.occurredAt);
        Ok(s.(activeTurn := Some(turn.(activeItem := Some(item))), version := r.sequence))
  }

  function ApplyTerminalItem(s: State, r: Record, turnID: string, itemID: string, kind: ItemKind): Result<State, Code> {
    match RequireItem(s, r, turnID, itemID, kind)
    case Fault(code) => Err(code)
    case Pass =>
      var turn := s.activeTurn.value;
      if r.occurredAt < turn.activeItem.value.startedAt then Err(InvalidEvent)
      else Ok(s.(activeTurn := Some(turn.(activeItem := None, lastTransitionAt := r.occurredAt)),
                 version := r.sequence))
  }

  /** A fact about a running item moves only the version. */
  function ApplyFact(s: State, r: Record, turnID: string, itemID: string, kind: ItemKind): Result<State, Code> {
    match RequireItem(s, r, turnID, itemID, kind)
    case Fault(code) => Err(code)
    case Pass =>
      if r.occurredAt < s.activeTurn.value.activeItem.value.startedAt then Err(InvalidEvent)
      else Ok(s.(version := r.sequence))
  }

  function ApplyCompactionStarted(s: State, r: Record, id: string, trigger: Trigger,
                                  strategy: Strategy): Result<State, Code>
  {
    match RequireActive(s, r.sessionID)
    case Fault(code) => Err(code)
    case Pass =>
      if s.compaction.Some? then Err(CompactionAlreadyRunning)
      else if r.payload.Fault? then Err(r.payload.code)
      else if (trigger.PreTurn? || trigger.Manual?) && s.activeTurn.Some? then Err(TurnAlreadyRunning)
      else if (trigger.MidTurn? || trigger.OverflowRetry?) && s.activeTurn.None? then Err(TurnNotRunning)
      else Ok(s.(compaction := Some(Compaction(id, trigger, strategy, s.version, r.occurredAt)), version := r.sequence))
  }

  /** Completion and failure both clear the open compaction. */
  function ApplyCompactionEnded(s: State, r: Record, id: string): Result<State, Code> {
    match RequireActive(s, r.sessionID)
    case Fault(code) => Err(code)
    case Pass =>
      if s.compaction.None? then Err(CompactionNotRunning)
      else if s.compaction.value.id != id then Err(CompactionMismatch)
      else if r.occurredAt < s.compaction.value.startedAt then Err(InvalidEvent)
      else if r.payload.Fault? then Err(r.payload.code)
      else Ok(s.(compaction := None, version := r.sequence))
  }

  /** The fold of `Apply` from a given state. */
  function ReplayFrom(s: State, records: seq<Record>): Result<State, Code>
    decreases |records|
  {
    if records == [] then Ok(s)
    else match Apply(s, records[0])
      case Err(code) => Err(code)
      case Ok(next) => ReplayFrom(next, records[1..])
  }

  function Replay(records: seq<Record>): Result<State, Code> {
    ReplayFrom(PRISTINE, records)
  }

  /** Folding a concatenation is folding the second part from where the first ended. */
  lemma {:induction false} ReplaySplits(s: State, a: seq<Record>, b: seq<Record>)
    ensures ReplayFrom(s, a + b) ==
            match ReplayFrom(s, a) { case Err(code) => Err(code) case Ok(mid) => ReplayFrom(mid, b) }
    decreases |a|
  {
    if a == [] {
      assert a + b == b;
    } else {
      assert (a + b)[1..] == a[1..] + b;
      match Apply(s, a[0])
      case Err(_) =>
      case Ok(next) => ReplaySplits(next, a[1..], b);
    }
  }

  /** An accepted log is exactly numbered: its records carry the versions they produced. */
  lemma {:induction false} ReplayIsContiguous(s: State, records: seq<Record>)
    requires ReplayFrom(s, records).Ok?
    ensures forall i :: 0 <= i < |records| ==> records[i].sequence == s.version + 1 + i
    ensures ReplayFrom(s, records).value.version == s.version + |records|
    decreases |records|
  {
    if records != [] {
      var next := Apply(s, records[0]).value;
      ReplayIsContiguous(next, records[1..]);
      forall i | 0 <= i < |records|
        ensures records[i].sequence == s.version + 1 + i
      {
        if i > 0 {
          assert records[i] == records[1..][i - 1];
        }
      }
    }
  }
}
