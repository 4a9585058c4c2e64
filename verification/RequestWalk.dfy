/** Reconstruction of one durable request result from a session log.

    Two machines read the same log: the aggregate (`Session.Apply`, over every event) and
    the stricter walk over the events of one command. `View` is a third, minimal account of
    one turn's life; each machine is shown to follow it, so they agree with each other. */
module RequestWalk {
  import opened Domain
  import opened Session

  // ---------------------------------------------------------------- the walk

  datatype TurnStatus = Running | Completed | Failed | Interrupted

  datatype CommandRecord = CommandRecord(
    sessionID: string, commandID: string, turnID: string, itemID: string, requestDigest: string)

  datatype Phase = OpenAssistant | IdleInTurn | OpenTool | Terminal

  datatype Preparation = Preparation(decisionID: string, attemptIndex: nat)

  datatype Walk = Walk(
    phase: Phase,
    openItem: string,
    seenItems: set<string>,
    sawRequest: bool,
    sawUsage: bool,
    preparation: Option<Preparation>,
    sawPolicy: bool,
    sawApprovalRequest: bool,
    sawApprovalResolution: bool,
    stepHadToolCalls: bool,
    text: string,
    status: TurnStatus,
    terminal: bool)
  {
    function CloseItem(): Walk {
      this.(openItem := "", sawRequest := false, sawUsage := false, preparation := None).ResetToolCompanions()
    }

    function ResetToolCompanions(): Walk {
      this.(sawPolicy := false, sawApprovalRequest := false, sawApprovalResolution := false)
    }

    function Finish(status: TurnStatus): Walk {
      this.(phase := Terminal, status := status)
    }
  }

  predicate AllowedFailureCode(code: Reason) {
    || code.ModelStartup? || code.ModelStream? || code.OutputLimit? || code.InvalidStream? || code.ModelFailure?
    || code.ProviderAuth? || code.ProviderQuota? || code.ProviderRateLimit? || code.ProviderTransient?
       || code.ProviderPermanent?
    || code.CapabilityMismatch? || code.ContextOverflow? || code.EmptyResponse? || code.StepLimit?
       || code.EnvelopeLimit?
  }

  predicate AllowedInterruptionCode(code: Reason) {
    code.CallerCanceled? || code.DeliveryFailed? || code.RequestAbandoned? || code.ProcessCrash?
  }

  /** Why a command's records are rejected as corrupt. */
  datatype WalkFault =
    | MalformedAdmission | DigestMismatch | IdentityMismatch | IllegalEvent | EventsAfterTerminal
    | MisplacedRecovery | MisplacedPreparation | MisplacedFact | DuplicateFact | DisallowedCode
    | ReusedItem | UnofferedTool | MissingTurnTerminal | TerminalMismatch

  /** Where the walk stands after a step, and how many records the step consumed. */
  datatype Progress = Progress(walk: Walk, consumed: nat)

  function Advance(walk: Walk): Result<Progress, WalkFault> {
    Ok(Progress(walk, 1))
  }

  function Admit(digest: (string, string) -> Option<string>, records: seq<Record>,
                 record: CommandRecord): Result<Walk, WalkFault>
  {
    if |records| < 2 then Err(MalformedAdmission)
    else match (records[0].event, records[1].event)
      case (TurnStarted(turnID, input), AssistantMessageStarted(itemTurn, itemID)) =>
        if turnID != record.turnID || itemTurn != record.turnID || itemID != record.itemID then
          Err(MalformedAdmission)
        else if digest(record.sessionID, input) != Some(record.requestDigest) then
          Err(DigestMismatch)
        else
          Ok(Walk(OpenAssistant, itemID, {itemID}, false, false, None, false, false, false, false, "", Running, false))
      case _ => Err(MalformedAdmission)
  }

  /** A compaction the host closes during crash recovery must precede the crash's own closure. */
  predicate ClosesCrash(walk: Walk, event: Event) {
    match event
    case AssistantMessageInterrupted(_, _, code, _) => walk.phase == OpenAssistant && code == ProcessCrash
    case ToolCallInterrupted(_, _, _, code, _) => walk.phase == OpenTool && code == ProcessCrash
    case TurnInterrupted(_, reason) => walk.phase == IdleInTurn && reason == ProcessCrash
    case _ => false
  }

  function Step(walk: Walk, event: Event, following: Option<Event>,
                record: CommandRecord): (r: Result<Progress, WalkFault>)
    ensures r.Ok? ==> r.value.consumed == 1 || (r.value.consumed == 2 && following.Some?)
  {
    match event
    case ContextCompactionFailed(_, code) =>
      if code != RuntimeRecovered || following.None? then Err(MisplacedRecovery)
      else if !ClosesCrash(walk, following.value) then Err(MisplacedRecovery)
      else Advance(walk)
    case _ =>
      match walk.phase
      case OpenAssistant => StepOpenAssistant(walk, event, following, record)
      case IdleInTurn => StepIdleInTurn(walk, event, following, record)
      case OpenTool => StepOpenTool(walk, event, following, record)
      case Terminal => Err(IllegalEvent)
  }

  predicate MatchesOpenItem(walk: Walk, record: CommandRecord, turnID: string, itemID: string) {
    turnID == record.turnID && itemID == walk.openItem
  }

  function StepOpenAssistant(walk: Walk, event: Event, following: Option<Event>,
                             record: CommandRecord): (r: Result<Progress, WalkFault>)
    ensures r.Ok? ==> r.value.consumed == 1 || (r.value.consumed == 2 && following.Some?)
  {
    match event
    case ContextPreparedRecorded(turnID, itemID, decisionID, attemptIndex, trigger) =>
      var prepared := walk.(preparation := Some(Preparation(decisionID, attemptIndex)));
      if !MatchesOpenItem(walk, record, turnID, itemID) then Err(IdentityMismatch)
      else if walk.preparation.None? && !walk.sawRequest && !walk.sawUsage then Advance(prepared)
      else if walk.preparation.None? || !walk.sawRequest || walk.sawUsage || trigger != OverflowRetry
              || walk.preparation.value.attemptIndex == 0
              || attemptIndex != walk.preparation.value.attemptIndex + 1
              || decisionID == "" || decisionID == walk.preparation.value.decisionID then
        Err(MisplacedPreparation)
      else Advance(prepared.(sawRequest := false))
    case ModelRequestRecorded(turnID, itemID, decisionID, attemptIndex) =>
      if !MatchesOpenItem(walk, record, turnID, itemID) then Err(IdentityMismatch)
      else if walk.sawRequest then Err(DuplicateFact)
      else if walk.sawUsage then Err(MisplacedFact)
      else if walk.preparation.Some? && walk.preparation.value != Preparation(decisionID, attemptIndex) then
        Err(MisplacedPreparation)
      else Advance(walk.(sawRequest := true))
    case ModelUsageRecorded(turnID, itemID) =>
      if !MatchesOpenItem(walk, record, turnID, itemID) then Err(IdentityMismatch)
      else if walk.sawUsage then Err(DuplicateFact)
      else Advance(walk.(sawUsage := true))
    case AssistantMessageCompleted(turnID, itemID, text, toolCalls, _) =>
      if !MatchesOpenItem(walk, record, turnID, itemID) then Err(IdentityMismatch)
      else
        var noted := walk.(stepHadToolCalls := |toolCalls| > 0, text := if |toolCalls| > 0 then walk.text else text);
        Advance(noted.CloseItem().(phase := IdleInTurn))
    case AssistantMessageFailed(turnID, itemID, code, message) =>
      if !MatchesOpenItem(walk, record, turnID, itemID) then Err(IdentityMismatch)
      else if !AllowedFailureCode(code) then Err(DisallowedCode)
      else ConsumeTurnFailed(walk, following, record, code, message)
    case AssistantMessageInterrupted(turnID, itemID, code, _) =>
      if !MatchesOpenItem(walk, record, turnID, itemID) then Err(IdentityMismatch)
      else if !AllowedInterruptionCode(code) then Err(DisallowedCode)
      else ConsumeTurnInterrupted(walk, following, record, code)
    case _ => Err(IllegalEvent)
  }

  function OpenNewItem(walk: Walk, record: CommandRecord, turnID: string, itemID: string): Result<Walk, WalkFault> {
    if turnID != record.turnID then Err(IdentityMismatch)
    else if itemID in walk.seenItems then Err(ReusedItem)
    else Ok(walk.(seenItems := walk.seenItems + {itemID}, openItem := itemID))
  }

  function StepIdleInTurn(walk: Walk, event: Event, following: Option<Event>,
                          record: CommandRecord): (r: Result<Progress, WalkFault>)
    ensures r.Ok? ==> r.value.consumed == 1 || (r.value.consumed == 2 && following.Some?)
  {
    match event
    case ToolCallStarted(turnID, itemID, _, _) =>
      if !walk.stepHadToolCalls then Err(UnofferedTool)
      else (match OpenNewItem(walk, record, turnID, itemID)
            case Err(e) => Err(e)
            case Ok(begun) => Advance(begun.ResetToolCompanions().(phase := OpenTool)))
    case AssistantMessageStarted(turnID, itemID) =>
      (match OpenNewItem(walk, record, turnID, itemID)
       case Err(e) => Err(e)
       case Ok(begun) =>
         Advance(begun.(sawRequest := false, sawUsage := false, stepHadToolCalls := false, phase := OpenAssistant)))
    case TurnCompleted(turnID) =>
      if turnID != record.turnID then Err(TerminalMismatch)
      else Advance(walk.Finish(Completed))
    case TurnFailed(turnID, code, _) =>
      if turnID != record.turnID || !AllowedFailureCode(code) then Err(TerminalMismatch)
      else Advance(walk.Finish(Failed))
    case TurnInterrupted(turnID, reason) =>
      if turnID != record.turnID || !AllowedInterruptionCode(reason) then Err(TerminalMismatch)
      else Advance(walk.Finish(Interrupted))
    case _ => Err(IllegalEvent)
  }

  function StepOpenTool(walk: Walk, event: Event, following: Option<Event>,
                        record: CommandRecord): (r: Result<Progress, WalkFault>)
    ensures r.Ok? ==> r.value.consumed == 1 || (r.value.consumed == 2 && following.Some?)
  {
    match event
    case PolicyDecisionRecorded(turnID, itemID) =>
      if !MatchesOpenItem(walk, record, turnID, itemID) then Err(IdentityMismatch)
      else if walk.sawPolicy then Err(DuplicateFact)
      else Advance(walk.(sawPolicy := true))
    case ApprovalRequested(turnID, itemID) =>
      if !MatchesOpenItem(walk, record, turnID, itemID) then Err(IdentityMismatch)
      else if !walk.sawPolicy then Err(MisplacedFact)
      else if walk.sawApprovalRequest then Err(DuplicateFact)
      else Advance(walk.(sawApprovalRequest := true))
    case ApprovalResolved(turnID, itemID) =>
      if !MatchesOpenItem(walk, record, turnID, itemID) then Err(IdentityMismatch)
      else if !walk.sawApprovalRequest then Err(MisplacedFact)
      else if walk.sawApprovalResolution then Err(DuplicateFact)
      else Advance(walk.(sawApprovalResolution := true))
    case ToolCallCompleted(turnID, itemID, _, _) =>
      if !MatchesOpenItem(walk, record, turnID, itemID) then Err(IdentityMismatch)
      else Advance(walk.CloseItem().(phase := IdleInTurn))
    case ToolCallFailed(turnID, itemID, _, _, _) =>
      if !MatchesOpenItem(walk, record, turnID, itemID) then Err(IdentityMismatch)
      else Advance(walk.CloseItem().(phase := IdleInTurn))
    case ToolCallInterrupted(turnID, itemID, _, code, _) =>
      if !MatchesOpenItem(walk, record, turnID, itemID) then Err(IdentityMismatch)
      else if !AllowedInterruptionCode(code) then Err(DisallowedCode)
      else ConsumeTurnInterrupted(walk, following, record, code)
    case _ => Err(IllegalEvent)
  }

  function ConsumeTurnFailed(walk: Walk, following: Option<Event>, record: CommandRecord, code: Reason,
                             message: string): Result<Progress, WalkFault>
  {
    if following.None? then Err(MissingTurnTerminal)
    else match following.value
      case TurnFailed(turnID, turnCode, turnMessage) =>
        if turnID != record.turnID || turnCode != code || !AllowedFailureCode(turnCode) then
          Err(TerminalMismatch)
        else if turnMessage != message then Err(TerminalMismatch)
        else Ok(Progress(walk.CloseItem().Finish(Failed), 2))
      case _ => Err(MissingTurnTerminal)
  }

  function ConsumeTurnInterrupted(walk: Walk, following: Option<Event>, record: CommandRecord,
                                  code: Reason): Result<Progress, WalkFault>
  {
    if following.None? then Err(MissingTurnTerminal)
    else match following.value
      case TurnInterrupted(turnID, reason) =>
        if turnID != record.turnID || reason != code || !AllowedInterruptionCode(reason) then
          Err(TerminalMismatch)
        else Ok(Progress(walk.CloseItem().Finish(Interrupted), 2))
      case _ => Err(MissingTurnTerminal)
  }

  function Following(records: seq<Record>, index: nat): Option<Event> {
    if index + 1 < |records| then Some(records[index + 1].event) else None
  }

  /** The walk's remaining steps, from `index` to the end of the command's records. */
  function WalkFrom(walk: Walk, records: seq<Record>, index: nat, record: CommandRecord): Result<Walk, WalkFault>
    requires index <= |records|
    decreases |records| - index
  {
    if index == |records| then
      Ok(if walk.phase == Terminal then walk.(terminal := true) else walk.(status := Running, terminal := false))
    else if walk.phase == Terminal then Err(EventsAfterTerminal)
    else
      match Step(walk, records[index].event, Following(records, index), record)
      case Err(e) => Err(e)
      case Ok(progress) => WalkFrom(progress.walk, records, index + progress.consumed, record)
  }

  function WalkCommand(digest: (string, string) -> Option<string>, records: seq<Record>,
                       record: CommandRecord): Result<Walk, WalkFault>
  {
    match Admit(digest, records, record)
    case Err(e) => Err(e)
    case Ok(walk) => WalkFrom(walk, records, 2, record)
  }

  /** The index loop over the command's records. */
  method WalkRequestCommand(digest: (string, string) -> Option<string>, records: seq<Record>, record: CommandRecord)
    returns (r: Result<Walk, WalkFault>)
    ensures r == WalkCommand(digest, records, record)
  {
    var admitted := Admit(digest, records, record);
    if admitted.Err? {
      return admitted;
    }
    var walk := admitted.value;
    var index := 2;
    ghost var goal := WalkFrom(walk, records, 2, record);
    while index < |records|
      invariant 2 <= index <= |records|
      invariant WalkFrom(walk, records, index, record) == goal
    {
      if walk.phase == Terminal {
        return Err(EventsAfterTerminal);
      }
      var progress := Step(walk, records[index].event, Following(records, index), record);
      if progress.Err? {
        return Err(progress.error);
      }
      walk, index := progress.value.walk, index + progress.value.consumed;
    }
    if walk.phase == Terminal {
      walk := walk.(terminal := true);
    } else {
      walk := walk.(status := Running, terminal := false);
    }
    return Ok(walk);
  }

  function OfCommand(records: seq<Record>, commandID: string): seq<Record> {
    if records == [] then []
    else (if records[0].commandID == commandID then [records[0]] else []) + OfCommand(records[1..], commandID)
  }

  // ------------------------------------------------- one turn's life, event by event

  datatype View = Unstarted | Idle | Open(item: string, kind: ItemKind) | Ended(status: TurnStatus)

  function TurnOf(event: Event): Option<string> {
    if || event.SessionCreated? || event.SessionClosed? || event.SessionDeleted?
       || event.ContextCompactionStarted? || event.ContextCompactionCompleted? || event.ContextCompactionFailed?
       || event.WorkspaceInstructionsRecorded? || event.UnknownEvent?
    then None
    else Some(event.turnID)
  }

  function ViewStep(view: View, event: Event, turnID: string): View {
    if TurnOf(event) != Some(turnID) then view
    else match event
      case TurnStarted(_, _) => Idle
      case AssistantMessageStarted(_, item) => Open(item, AssistantItem)
      case ToolCallStarted(_, item, _, _) => Open(item, ToolItem)
      case AssistantMessageCompleted(_, _, _, _, _) => Idle
      case AssistantMessageFailed(_, _, _, _) => Idle
      case AssistantMessageInterrupted(_, _, _, _) => Idle
      case ToolCallCompleted(_, _, _, _) => Idle
      case ToolCallFailed(_, _, _, _, _) => Idle
      case ToolCallInterrupted(_, _, _, _, _) => Idle
      case TurnCompleted(_) => Ended(Completed)
      case TurnFailed(_, _, _) => Ended(Failed)
      case TurnInterrupted(_, _) => Ended(Interrupted)
      case _ => view
  }

  /** The text of a turn: that of its latest assistant message offering no tool call. */
  function TextStep(text: string, event: Event, turnID: string): string {
    if event.AssistantMessageCompleted? && event.turnID == turnID && event.toolCalls == [] then event.text else text
  }

  /** A turn's view and text after a log. */
  function Life(view: View, text: string, records: seq<Record>, turnID: string): (View, string)
    decreases |records|
  {
    if records == [] then (view, text)
    else Life(ViewStep(view, records[0].event, turnID), TextStep(text, records[0].event, turnID), records[1..], turnID)
  }

  /** What the aggregate must show of a turn whose view is `view`. */
  predicate Agrees(s: State, view: View, turnID: string) {
    match view
    case Unstarted => s.activeTurn.None? || s.activeTurn.value.id != turnID
    case Ended(_) => s.activeTurn.None? || s.activeTurn.value.id != turnID
    case Idle => s.activeTurn.Some? && s.activeTurn.value.id == turnID && s.activeTurn.value.activeItem.None?
    case Open(item, kind) =>
      && s.activeTurn.Some? && s.activeTurn.value.id == turnID && s.activeTurn.value.activeItem.Some?
      && s.activeTurn.value.activeItem.value.id == item && s.activeTurn.value.activeItem.value.kind == kind
  }

  /** What the walk must show of a turn whose view is `view`. */
  predicate Follows(walk: Walk, view: View, text: string) {
    && walk.text == text
    && match walk.phase
       case OpenAssistant => view == Open(walk.openItem, AssistantItem)
       case OpenTool => view == Open(walk.openItem, ToolItem)
       case IdleInTurn => view == Idle
       case Terminal => view == Ended(walk.status)
  }

  /** The turn identifier is started at most once from here on, and never again once it was. */
  ghost predicate NotReused(view: View, records: seq<Record>, turnID: string) {
    && (view != Unstarted ==> forall i :: 0 <= i < |records| ==> !Starts(records[i].event, turnID))
    && forall i, j :: 0 <= i < j < |records| ==> !(Starts(records[i].event, turnID) && Starts(records[j].event, turnID))
  }

  predicate Starts(event: Event, turnID: string) {
    event.TurnStarted? && event.turnID == turnID
  }

  /** Every event of the turn carries the command's identifier. */
  ghost predicate OwnedBy(records: seq<Record>, turnID: string, commandID: string) {
    forall i :: 0 <= i < |records| && TurnOf(records[i].event) == Some(turnID) ==> records[i].commandID == commandID
  }

  // ------------------------------------------------- both machines follow the view

  lemma ApplyFollowsView(s: State, r: Record, view: View, turnID: string)
    requires Agrees(s, view, turnID) && Apply(s, r).Ok?
    requires Starts(r.event, turnID) ==> view == Unstarted
    ensures Agrees(Apply(s, r).value, ViewStep(view, r.event, turnID), turnID)
  {
  }

  lemma {:induction false} ReplayFollowsView(s: State, records: seq<Record>, view: View, text: string, turnID: string)
    requires Agrees(s, view, turnID) && ReplayFrom(s, records).Ok?
    requires NotReused(view, records, turnID)
    ensures Agrees(ReplayFrom(s, records).value, Life(view, text, records, turnID).0, turnID)
    decreases |records|
  {
    if records != [] {
      var r, rest := records[0], records[1..];
      ApplyFollowsView(s, r, view, turnID);
      var next := ViewStep(view, r.event, turnID);
      NotReusedAfter(s, view, records, turnID);
      ReplayFollowsView(Apply(s, r).value, rest, next, TextStep(text, r.event, turnID), turnID);
    }
  }

  /** Events of other commands leave the turn's life untouched. */
  lemma {:induction false} LifeIgnoresOtherCommands(view: View, text: string, records: seq<Record>, turnID: string,
                                                    commandID: string)
    requires OwnedBy(records, turnID, commandID)
    ensures Life(view, text, records, turnID) == Life(view, text, OfCommand(records, commandID), turnID)
    decreases |records|
  {
    if records != [] {
      var r, rest := records[0], records[1..];
      var view', text' := ViewStep(view, r.event, turnID), TextStep(text, r.event, turnID);
      LifeIgnoresOtherCommands(view', text', rest, turnID, commandID);
      if r.commandID == commandID {
        assert OfCommand(records, commandID)[1..] == OfCommand(rest, commandID);
      } else {
        assert OfCommand(records, commandID) == OfCommand(rest, commandID);
      }
    }
  }

  lemma LifeStep(view: View, text: string, records: seq<Record>, index: nat, turnID: string)
    requires index < |records|
    ensures Life(view, text, records[index..], turnID) ==
            Life(ViewStep(view, records[index].event, turnID), TextStep(text, records[index].event, turnID),
                 records[index + 1..], turnID)
  {
    assert records[index..][1..] == records[index + 1..];
  }

  /** The walk follows the view of the one or two events a step consumed. */
  ghost predicate FollowsAfter(p: Progress, event: Event, following: Option<Event>, turnID: string, view: View,
                               text: string)
  {
    var view1, text1 := ViewStep(view, event, turnID), TextStep(text, event, turnID);
    if p.consumed == 1 then
      Follows(p.walk, view1, text1)
    else
      following.Some? && Follows(p.walk, ViewStep(view1, following.value, turnID),
                                 TextStep(text1, following.value, turnID))
  }

  lemma OpenAssistantFollowsView(walk: Walk, event: Event, following: Option<Event>, record: CommandRecord, view: View,
                                 text: string)
    requires walk.phase == OpenAssistant && Follows(walk, view, text)
    requires StepOpenAssistant(walk, event, following, record).Ok?
    ensures FollowsAfter(StepOpenAssistant(walk, event, following, record).value, event, following, record.turnID,
                         view, text)
  {
    if event.AssistantMessageFailed? {
      assert following.value.TurnFailed?;
    } else if event.AssistantMessageInterrupted? {
      assert following.value.TurnInterrupted?;
    } else {
      assert event.AssistantMessageCompleted? || event.ContextPreparedRecorded? || event.ModelRequestRecorded?
        || event.ModelUsageRecorded?;
    }
  }

  lemma IdleInTurnFollowsView(walk: Walk, event: Event, following: Option<Event>, record: CommandRecord, view: View,
                              text: string)
    requires walk.phase == IdleInTurn && Follows(walk, view, text)
    requires StepIdleInTurn(walk, event, following, record).Ok?
    ensures FollowsAfter(StepIdleInTurn(walk, event, following, record).value, event, following, record.turnID, view,
                         text)
  {
    if event.ToolCallStarted? || event.AssistantMessageStarted? {
      assert OpenNewItem(walk, record, event.turnID, event.itemID).Ok?;
    } else {
      assert event.TurnCompleted? || event.TurnFailed? || event.TurnInterrupted?;
    }
  }

  lemma OpenToolFollowsView(walk: Walk, event: Event, following: Option<Event>, record: CommandRecord, view: View,
                            text: string)
    requires walk.phase == OpenTool && Follows(walk, view, text)
    requires StepOpenTool(walk, event, following, record).Ok?
    ensures FollowsAfter(StepOpenTool(walk, event, following, record).value, event, following, record.turnID, view,
                         text)
  {
  }

  lemma StepFollowsView(walk: Walk, event: Event, following: Option<Event>, record: CommandRecord, view: View,
                        text: string)
    requires Follows(walk, view, text)
    requires Step(walk, event, following, record).Ok?
    ensures FollowsAfter(Step(walk, event, following, record).value, event, following, record.turnID, view, text)
  {
    if !event.ContextCompactionFailed? {
      match walk.phase
      case OpenAssistant => OpenAssistantFollowsView(walk, event, following, record, view, text);
      case IdleInTurn => IdleInTurnFollowsView(walk, event, following, record, view, text);
      case OpenTool => OpenToolFollowsView(walk, event, following, record, view, text);
      case Terminal =>
    }
  }

  lemma {:induction false} WalkFollowsView(walk: Walk, records: seq<Record>, index: nat, record: CommandRecord,
                                           view: View, text: string)
    requires index <= |records| && Follows(walk, view, text)
    requires WalkFrom(walk, records, index, record).Ok?
    ensures var life := Life(view, text, records[index..], record.turnID);
            Follows(WalkFrom(walk, records, index, record).value, life.0, life.1)
    decreases |records| - index
  {
    if index < |records| {
      WalkGoesOn(walk, records, index, record);
      var p := Step(walk, records[index].event, Following(records, index), record).value;
      StepFollowsView(walk, records[index].event, Following(records, index), record, view, text);
      LifeStep(view, text, records, index, record.turnID);
      var view', text' := ViewStep(view, records[index].event, record.turnID),
        TextStep(text, records[index].event, record.turnID);
      if p.consumed == 2 {
        LifeStep(view', text', records, index + 1, record.turnID);
        view', text' := ViewStep(view', records[index + 1].event, record.turnID),
          TextStep(text', records[index + 1].event, record.turnID);
      }
      WalkFollowsView(p.walk, records, index + p.consumed, record, view', text');
    }
  }

  /** A view ends only through a terminal event of the turn, with that event's status. */
  lemma {:induction false} EndedByTerminalEvent(view: View, text: string, records: seq<Record>, turnID: string)
    requires !view.Ended? && Life(view, text, records, turnID).0.Ended?
    ensures exists k ::
              && 0 <= k < |records|
              && TerminalStatus(records[k].event, turnID) == Some(Life(view, text, records, turnID).0.status)
    decreases |records|
  {
    var r, rest := records[0], records[1..];
    var view', text' := ViewStep(view, r.event, turnID), TextStep(text, r.event, turnID);
    if view'.Ended? && !(exists k ::
                      && 0 <= k < |rest|
                      && TerminalStatus(rest[k].event, turnID) == Some(Life(view, text, records, turnID).0.status)) {
      EndedStays(view', text', rest, turnID);
      assert TerminalStatus(records[0].event, turnID) == Some(Life(view, text, records, turnID).0.status);
    } else {
      if !view'.Ended? {
        EndedByTerminalEvent(view', text', rest, turnID);
      }
      var k :| 0 <= k < |rest| && TerminalStatus(rest[k].event, turnID) ==
        Some(Life(view, text, records, turnID).0.status);
      assert records[k + 1] == rest[k];
    }
  }

  function TerminalStatus(event: Event, turnID: string): Option<TurnStatus> {
    match event
    case TurnCompleted(t) => if t == turnID then Some(Completed) else None
    case TurnFailed(t, _, _) => if t == turnID then Some(Failed) else None
    case TurnInterrupted(t, _) => if t == turnID then Some(Interrupted) else None
    case _ => None
  }

  /** Whatever the view later becomes, if it is over its status is the latest terminal event's. */
  lemma {:induction false} EndedStays(view: View, text: string, records: seq<Record>, turnID: string)
    requires view.Ended? && Life(view, text, records, turnID).0.Ended?
    ensures || Life(view, text, records, turnID).0 == view
            || exists k ::
                 && 0 <= k < |records|
                 && TerminalStatus(records[k].event, turnID) == Some(Life(view, text, records, turnID).0.status)
    decreases |records|
  {
    if records != [] {
      var r, rest := records[0], records[1..];
      var view', text' := ViewStep(view, r.event, turnID), TextStep(text, r.event, turnID);
      var last := Life(view, text, records, turnID).0;
      if view'.Ended? {
        EndedStays(view', text', rest, turnID);
        if last == view' {
          if view' != view {
            assert TerminalStatus(records[0].event, turnID) == Some(last.status);
          }
        } else {
          var k :| 0 <= k < |rest| && TerminalStatus(rest[k].event, turnID) == Some(last.status);
          assert records[k + 1] == rest[k];
        }
      } else {
        EndedByTerminalEvent(view', text', rest, turnID);
        var k :| 0 <= k < |rest| && TerminalStatus(rest[k].event, turnID) == Some(last.status);
        assert records[k + 1] == rest[k];
      }
    }
  }

  /** The aggregate accepts no event of a turn that is over, but a second start. */
  lemma OverAccepts(s: State, r: Record, turnID: string)
    requires s.activeTurn.None? || s.activeTurn.value.id != turnID
    requires Apply(s, r).Ok? && !Starts(r.event, turnID)
    ensures TurnOf(r.event) != Some(turnID)
  {
  }

  lemma NotReusedAfter(s: State, view: View, records: seq<Record>, turnID: string)
    requires records != [] && NotReused(view, records, turnID) && Agrees(s, view, turnID) && Apply(s, records[0]).Ok?
    ensures NotReused(ViewStep(view, records[0].event, turnID), records[1..], turnID)
    ensures Starts(records[0].event, turnID) ==> view == Unstarted
  {
    var rest := records[1..];
    assert forall i :: 0 <= i < |rest| ==> rest[i] == records[i + 1];
    if view == Unstarted && !Starts(records[0].event, turnID) {
      OverAccepts(s, records[0], turnID);
    }
  }

  lemma {:induction false} OverStays(s: State, records: seq<Record>, view: View, text: string, turnID: string)
    requires view.Ended? && Agrees(s, view, turnID) && ReplayFrom(s, records).Ok? && NotReused(view, records, turnID)
    ensures Life(view, text, records, turnID).0 == view
    ensures forall k :: 0 <= k < |records| ==> TerminalStatus(records[k].event, turnID).None?
    decreases |records|
  {
    if records != [] {
      var r, rest := records[0], records[1..];
      NotReusedAfter(s, view, records, turnID);
      OverAccepts(s, r, turnID);
      ApplyFollowsView(s, r, view, turnID);
      OverStays(Apply(s, r).value, rest, view, TextStep(text, r.event, turnID), turnID);
      assert forall k :: 0 < k < |records| ==> records[k] == rest[k - 1];
    }
  }

  /** A turn that is started once ends at most once: whichever terminal event it has, its status is the
      one the turn ends with. */
  lemma {:induction false} TerminalEndsTurn(s: State, records: seq<Record>, view: View, text: string, turnID: string,
                                            k: nat)
    requires Agrees(s, view, turnID) && ReplayFrom(s, records).Ok? && NotReused(view, records, turnID)
    requires k < |records| && TerminalStatus(records[k].event, turnID).Some?
    ensures Life(view, text, records, turnID).0 == Ended(TerminalStatus(records[k].event, turnID).value)
    decreases |records|
  {
    var r, rest := records[0], records[1..];
    var next, text' := ViewStep(view, r.event, turnID), TextStep(text, r.event, turnID);
    NotReusedAfter(s, view, records, turnID);
    ApplyFollowsView(s, r, view, turnID);
    if k == 0 {
      OverStays(Apply(s, r).value, rest, next, text', turnID);
    } else {
      assert rest[k - 1] == records[k];
      TerminalEndsTurn(Apply(s, r).value, rest, next, text', turnID, k - 1);
    }
  }

  /** The command walk simulates the aggregate. On a log the aggregate accepts, whose turn is
      started once and whose turn's events all carry the command, an accepted walk shows the
      aggregate's own open item and kind, is terminal exactly when that turn is no longer
      active, ends with the status of every terminal event of that turn, of which there is one then,
      and reports the turn's text. */
  lemma WalkSimulatesAggregate(digest: (string, string) -> Option<string>, records: seq<Record>, record: CommandRecord)
    requires Replay(records).Ok?
    requires NotReused(Unstarted, records, record.turnID)
    requires OwnedBy(records, record.turnID, record.commandID)
    requires WalkCommand(digest, OfCommand(records, record.commandID), record).Ok?
    ensures var walk := WalkCommand(digest, OfCommand(records, record.commandID), record).value;
            var turn := Replay(records).value.activeTurn;
            && walk.terminal == (turn.None? || turn.value.id != record.turnID)
            && (walk.phase == IdleInTurn ==> turn.Some? && turn.value.activeItem.None?)
            && (walk.phase == OpenAssistant ==>
                turn.Some? && turn.value.activeItem.Some? && turn.value.activeItem.value.id == walk.openItem
                                                && turn.value.activeItem.value.kind == AssistantItem)
            && (walk.phase == OpenTool ==>
                turn.Some? && turn.value.activeItem.Some? && turn.value.activeItem.value.id == walk.openItem
                                           && turn.value.activeItem.value.kind == ToolItem)
            && walk.terminal == (walk.phase == Terminal)
            && (!walk.terminal ==> walk.status == Running)
            && (walk.terminal ==>
                  exists k ::
                    && 0 <= k < |records|
                    && TerminalStatus(records[k].event, record.turnID) == Some(walk.status))
            && (forall k :: 0 <= k < |records| && TerminalStatus(records[k].event, record.turnID).Some? ==>
                  walk.terminal && TerminalStatus(records[k].event, record.turnID) == Some(walk.status))
            && walk.text == Life(Unstarted, "", records, record.turnID).1
  {
    var matching := OfCommand(records, record.commandID);
    var admitted := Admit(digest, matching, record).value;
    var turnID := record.turnID;
    ReplayFollowsView(PRISTINE, records, Unstarted, "", turnID);
    LifeIgnoresOtherCommands(Unstarted, "", records, turnID, record.commandID);
    assert matching[0..] == matching;
    LifeStep(Unstarted, "", matching, 0, turnID);
    LifeStep(Idle, "", matching, 1, turnID);
    WalkFollowsView(admitted, matching, 2, record, Open(admitted.openItem, AssistantItem), "");
    WalkEndsConsistently(admitted, matching, 2, record);
    var life := Life(Unstarted, "", records, turnID);
    if life.0.Ended? {
      EndedByTerminalEvent(Unstarted, "", records, turnID);
    }
    forall k | 0 <= k < |records| && TerminalStatus(records[k].event, turnID).Some?
      ensures life.0 == Ended(TerminalStatus(records[k].event, turnID).value)
    {
      TerminalEndsTurn(PRISTINE, records, Unstarted, "", turnID, k);
    }
  }

  lemma {:induction false} WalkEndsConsistently(walk: Walk, records: seq<Record>, index: nat, record: CommandRecord)
    requires index <= |records| && WalkFrom(walk, records, index, record).Ok?
    ensures var end := WalkFrom(walk, records, index, record).value;
            end.terminal == (end.phase == Terminal) && (!end.terminal ==> end.status == Running)
    decreases |records| - index
  {
    if index < |records| {
      WalkGoesOn(walk, records, index, record);
      var p := Step(walk, records[index].event, Following(records, index), record).value;
      WalkEndsConsistently(p.walk, records, index + p.consumed, record);
    }
  }

  lemma WalkGoesOn(walk: Walk, records: seq<Record>, index: nat, record: CommandRecord)
    requires index < |records| && WalkFrom(walk, records, index, record).Ok?
    ensures Step(walk, records[index].event, Following(records, index), record).Ok?
    ensures var p := Step(walk, records[index].event, Following(records, index), record).value;
            && index + p.consumed <= |records|
            && WalkFrom(walk, records, index, record) == WalkFrom(p.walk, records, index + p.consumed, record)
  {
  }

  // ------------------------------------------------- what the walk enforces beyond the aggregate

  function StartedItem(event: Event): Option<string> {
    match event
    case AssistantMessageStarted(_, itemID) => Some(itemID)
    case ToolCallStarted(_, itemID, _, _) => Some(itemID)
    case _ => None
  }

  function UsedItem(event: Event): Option<string> {
    match event
    case ModelUsageRecorded(_, itemID) => Some(itemID)
    case _ => None
  }

  /** The items whose usage was recorded were all opened, and an open one among them is marked. */
  predicate Noted(walk: Walk, used: set<string>) {
    && used <= walk.seenItems
    && (walk.phase == OpenAssistant ==> walk.openItem in walk.seenItems && (walk.openItem in used ==> walk.sawUsage))
  }

  function Add(items: set<string>, item: Option<string>): set<string> {
    if item.Some? then items + {item.value} else items
  }

  lemma StepTakesNoItemAlong(walk: Walk, event: Event, following: Option<Event>, record: CommandRecord)
    requires Step(walk, event, following, record).Ok? && Step(walk, event, following, record).value.consumed == 2
    ensures StartedItem(following.value).None? && UsedItem(following.value).None?
  {
  }

  /** What a step does to the items seen and to those whose usage was recorded: it opens only a new one, and
      records the usage of each but once. */
  ghost predicate Notes(walk: Walk, p: Progress, event: Event, used: set<string>) {
    && (StartedItem(event).Some? ==> StartedItem(event).value !in walk.seenItems)
    && p.walk.seenItems == Add(walk.seenItems, StartedItem(event))
    && (UsedItem(event).Some? ==> UsedItem(event).value !in used) && Noted(p.walk, Add(used, UsedItem(event)))
  }

  lemma StepNotes(walk: Walk, event: Event, following: Option<Event>, record: CommandRecord, used: set<string>)
    requires Step(walk, event, following, record).Ok? && Noted(walk, used)
    ensures Notes(walk, Step(walk, event, following, record).value, event, used)
  {
    if !event.ContextCompactionFailed? {
      match walk.phase
      case OpenAssistant => OpenAssistantNotes(walk, event, following, record, used);
      case IdleInTurn => IdleInTurnNotes(walk, event, following, record, used);
      case OpenTool => OpenToolNotes(walk, event, following, record, used);
      case Terminal =>
    }
  }

  lemma OpenAssistantNotes(walk: Walk, event: Event, following: Option<Event>, record: CommandRecord, used: set<string>)
    requires walk.phase == OpenAssistant && Noted(walk, used) && StepOpenAssistant(walk, event, following, record).Ok?
    ensures Notes(walk, StepOpenAssistant(walk, event, following, record).value, event, used)
  {
    if event.AssistantMessageFailed? {
      assert following.value.TurnFailed?;
    } else if event.AssistantMessageInterrupted? {
      assert following.value.TurnInterrupted?;
    } else if event.ModelUsageRecorded? {
      assert event.itemID == walk.openItem;
    } else {
      assert event.AssistantMessageCompleted? || event.ContextPreparedRecorded? || event.ModelRequestRecorded?;
    }
  }

  lemma IdleInTurnNotes(walk: Walk, event: Event, following: Option<Event>, record: CommandRecord, used: set<string>)
    requires walk.phase == IdleInTurn && Noted(walk, used) && StepIdleInTurn(walk, event, following, record).Ok?
    ensures Notes(walk, StepIdleInTurn(walk, event, following, record).value, event, used)
  {
    if event.ToolCallStarted? || event.AssistantMessageStarted? {
      assert OpenNewItem(walk, record, event.turnID, event.itemID).Ok?;
    } else {
      assert event.TurnCompleted? || event.TurnFailed? || event.TurnInterrupted?;
    }
  }

  lemma OpenToolNotes(walk: Walk, event: Event, following: Option<Event>, record: CommandRecord, used: set<string>)
    requires walk.phase == OpenTool && Noted(walk, used) && StepOpenTool(walk, event, following, record).Ok?
    ensures Notes(walk, StepOpenTool(walk, event, following, record).value, event, used)
  {
  }

  /** From `index` on, no opened item was seen before or is opened again, and no item's usage is
      recorded twice. */
  ghost predicate Disciplined(records: seq<Record>, index: nat, seen: set<string>, used: set<string>) {
    && (forall i :: index <= i < |records| ==>
        FreshIn(StartedItem(records[i].event), seen) && FreshIn(UsedItem(records[i].event), used))
    && (forall i, j :: index <= i < j < |records| ==>
          Apart(StartedItem(records[i].event), StartedItem(records[j].event))
            && Apart(UsedItem(records[i].event), UsedItem(records[j].event)))
  }

  predicate FreshIn(item: Option<string>, items: set<string>) {
    item.Some? ==> item.value !in items
  }

  predicate Apart(a: Option<string>, b: Option<string>) {
    a.Some? ==> a != b
  }

  lemma DisciplineGrows(records: seq<Record>, index: nat, seen: set<string>, used: set<string>)
    requires index < |records|
    requires FreshIn(StartedItem(records[index].event), seen) && FreshIn(UsedItem(records[index].event), used)
    requires Disciplined(records, index + 1, Add(seen, StartedItem(records[index].event)),
                         Add(used, UsedItem(records[index].event)))
    ensures Disciplined(records, index, seen, used)
  {
    var started, noted := StartedItem(records[index].event), UsedItem(records[index].event);
    forall j | index < j < |records|
      ensures Apart(started, StartedItem(records[j].event)) && Apart(noted, UsedItem(records[j].event))
      ensures FreshIn(StartedItem(records[j].event), seen) && FreshIn(UsedItem(records[j].event), used)
    {
      assert FreshIn(StartedItem(records[j].event), Add(seen, started))
        && FreshIn(UsedItem(records[j].event), Add(used, noted));
    }
  }

  /** The walk is stricter than the aggregate: in an accepted walk no item is ever opened twice and no
      item's usage is recorded twice. */
  lemma {:induction false} WalkIsDisciplined(walk: Walk, records: seq<Record>, index: nat, record: CommandRecord,
                                             used: set<string>)
    requires index <= |records| && WalkFrom(walk, records, index, record).Ok? && Noted(walk, used)
    ensures Disciplined(records, index, walk.seenItems, used)
    decreases |records| - index
  {
    if index < |records| {
      var event, following := records[index].event, Following(records, index);
      var p := Step(walk, event, following, record).value;
      StepNotes(walk, event, following, record, used);
      WalkIsDisciplined(p.walk, records, index + p.consumed, record, Add(used, UsedItem(event)));
      if p.consumed == 2 {
        StepTakesNoItemAlong(walk, event, following, record);
        DisciplineGrows(records, index + 1, p.walk.seenItems, Add(used, UsedItem(event)));
      }
      DisciplineGrows(records, index, walk.seenItems, used);
    }
  }
}
