/** A session in which a call is offered in one turn and answered in a later one, and what that does
    to a scan resumed at a turn boundary in between. */
module Straddle {
  import opened Domain
  import opened Session
  import opened Projector

  /** Identifiers of the session: its three turns, the assistant item and the tool item. */
  datatype Cast = Cast(t1: string, t2: string, t3: string, assistant: string, tool: string, offer: ToolCallOffer,
                       input: string)

  /** A record of the session at a sequence; everything but the event passes its validators. */
  function At(base: Record, sequence: nat, event: Event): Record {
    base.(sequence := sequence, event := event)
  }

  /** The first turn offers a call and completes without answering it. */
  function Offering(base: Record, c: Cast): seq<Record> {
    [At(base, 1, SessionCreated(c.input))]
    + ([At(base, 2, TurnStarted(c.t1, c.input))]
    + ([At(base, 3, AssistantMessageStarted(c.t1, c.assistant))]
    + ([At(base, 4, AssistantMessageCompleted(c.t1, c.assistant, c.input, [c.offer], None))]
    + [At(base, 5, TurnCompleted(c.t1))])))
  }

  /** The second turn starts. */
  function Between(base: Record, c: Cast): seq<Record> {
    [At(base, 6, TurnStarted(c.t2, c.input))]
  }

  /** The third turn runs the call that the first one offered. */
  function Answering(base: Record, c: Cast): seq<Record> {
    [At(base, 7, TurnCompleted(c.t2))]
    + ([At(base, 8, TurnStarted(c.t3, c.input))]
    + ([At(base, 9, ToolCallStarted(c.t3, c.tool, c.offer.id, c.offer.name))]
    + [At(base, 10, ToolCallCompleted(c.t3, c.tool, c.offer.id, c.input))]))
  }

  function Log(base: Record, c: Cast): seq<Record> {
    (Offering(base, c) + Between(base, c)) + Answering(base, c)
  }

  /** A record whose envelope, identifiers and payload are all valid. */
  predicate Sound(base: Record) {
    base.metadata.Pass? && base.payload.Pass? && base.turnParses && base.itemParses && base.sessionID != ""
  }

  // ------------------------------------------------------------ the aggregate accepts the session

  lemma ReplayStep(s: State, r: Record, rest: seq<Record>, next: State)
    requires Apply(s, r) == Ok(next)
    ensures ReplayFrom(s, [r] + rest) == ReplayFrom(next, rest)
  {
    assert ([r] + rest)[1..] == rest;
  }

  lemma ReplayLast(s: State, r: Record, next: State)
    requires Apply(s, r) == Ok(next)
    ensures ReplayFrom(s, [r]) == Ok(next)
  {
    assert [r] + [] == [r];
    ReplayStep(s, r, [], next);
  }

  /** The session with no turn running. */
  function Idle(base: Record, c: Cast, version: nat): State {
    State(base.sessionID, Active, version, c.input, None, None)
  }

  function InTurn(base: Record, c: Cast, version: nat, turnID: string, item: Option<Item>): State {
    Idle(base, c, version).(
      activeTurn := Some(Turn(turnID, c.input, base.occurredAt, base.occurredAt, item)))
  }

  lemma OfferingReplays(base: Record, c: Cast)
    requires Sound(base)
    ensures Replay(Offering(base, c)) == Ok(Idle(base, c, 5))
  {
    var r1, r2 := At(base, 1, SessionCreated(c.input)), At(base, 2, TurnStarted(c.t1, c.input));
    var r3 := At(base, 3, AssistantMessageStarted(c.t1, c.assistant));
    var r4 := At(base, 4, AssistantMessageCompleted(c.t1, c.assistant, c.input, [c.offer], None));
    var r5 := At(base, 5, TurnCompleted(c.t1));
    var item := Item(c.assistant, c.t1, AssistantItem, base.occurredAt);
    ReplayStep(PRISTINE, r1, [r2] + ([r3] + ([r4] + [r5])), Idle(base, c, 1));
    ReplayStep(Idle(base, c, 1), r2, [r3] + ([r4] + [r5]), InTurn(base, c, 2, c.t1, None));
    ReplayStep(InTurn(base, c, 2, c.t1, None), r3, [r4] + [r5], InTurn(base, c, 3, c.t1, Some(item)));
    ReplayStep(InTurn(base, c, 3, c.t1, Some(item)), r4, [r5], InTurn(base, c, 4, c.t1, None));
    ReplayLast(InTurn(base, c, 4, c.t1, None), r5, Idle(base, c, 5));
  }

  lemma BetweenReplays(base: Record, c: Cast)
    requires Sound(base)
    ensures ReplayFrom(Idle(base, c, 5), Between(base, c)) == Ok(InTurn(base, c, 6, c.t2, None))
  {
    ReplayLast(Idle(base, c, 5), At(base, 6, TurnStarted(c.t2, c.input)), InTurn(base, c, 6, c.t2, None));
  }

  lemma AnsweringReplays(base: Record, c: Cast)
    requires Sound(base)
    ensures ReplayFrom(InTurn(base, c, 6, c.t2, None), Answering(base, c)) == Ok(InTurn(base, c, 10, c.t3, None))
  {
    var r7, r8 := At(base, 7, TurnCompleted(c.t2)), At(base, 8, TurnStarted(c.t3, c.input));
    var r9 := At(base, 9, ToolCallStarted(c.t3, c.tool, c.offer.id, c.offer.name));
    var r10 := At(base, 10, ToolCallCompleted(c.t3, c.tool, c.offer.id, c.input));
    var item := Item(c.tool, c.t3, ToolItem, base.occurredAt);
    ReplayStep(InTurn(base, c, 6, c.t2, None), r7, [r8] + ([r9] + [r10]), Idle(base, c, 7));
    ReplayStep(Idle(base, c, 7), r8, [r9] + [r10], InTurn(base, c, 8, c.t3, None));
    ReplayStep(InTurn(base, c, 8, c.t3, None), r9, [r10], InTurn(base, c, 9, c.t3, Some(item)));
    ReplayLast(InTurn(base, c, 9, c.t3, Some(item)), r10, InTurn(base, c, 10, c.t3, None));
  }

  lemma LogReplays(base: Record, c: Cast)
    requires Sound(base)
    ensures Replay(Log(base, c)).Ok?
  {
    OfferingReplays(base, c);
    BetweenReplays(base, c);
    AnsweringReplays(base, c);
    ReplaySplits(PRISTINE, Offering(base, c) + Between(base, c), Answering(base, c));
    ReplaySplits(PRISTINE, Offering(base, c), Between(base, c));
  }

  // ------------------------------------------------------------ the projector accepts it whole

  lemma ProjectStep(p: Projection, r: Record, rest: seq<Record>, next: Projection)
    requires Advance(p, r) == Ok(next)
    ensures ProjectFrom(p, [r] + rest) == ProjectFrom(next, rest)
  {
    assert ([r] + rest)[1..] == rest;
  }

  lemma ProjectLast(p: Projection, r: Record)
    ensures ProjectFrom(p, [r]) == Advance(p, r)
  {
    assert [r][1..] == [];
  }

  lemma OneOffer(offer: ToolCallOffer)
    ensures IdSet([offer]) == {offer.id} && Ids([offer]) == [offer.id]
  {
    assert [offer][0] == offer;
  }

  /** The projection while the step waits for its one result. */
  function Waiting(units: seq<Unit>, offer: ToolCallOffer, step: Step): Projection {
    Projection(units, {offer.id}, map[offer.id := step])
  }

  lemma OfferOne(units: seq<Unit>, offer: ToolCallOffer, step: Step)
    ensures Offer(Projection(units, {}, map[]), [offer], step) == Ok(Waiting(units, offer, step))
  {
    OneOffer(offer);
    assert [offer][1..] == [];
    assert FirstRepeated([offer], {}) == None;
    assert {} + IdSet([offer]) == {offer.id};
    assert FileUnder(map[], IdSet([offer]), step) == map[offer.id := step];
  }

  lemma TouchOne(units: seq<Unit>, offer: ToolCallOffer, step: Step, sequence: nat)
    requires step.order == [offer.id]
    ensures Touch(Waiting(units, offer, step), offer.id, sequence) == Ok(Waiting(units, offer, step.Seen(sequence)))
  {
    assert Replace(map[offer.id := step], step, step.Seen(sequence)) == map[offer.id := step.Seen(sequence)];
  }

  lemma AnswerOne(units: seq<Unit>, offer: ToolCallOffer, step: Step, sequence: nat, text: string)
    requires step.order == [offer.id] && step.results == map[]
    ensures Close(Waiting(units, offer, step), offer.id, sequence, text).Ok?
    ensures Close(Waiting(units, offer, step), offer.id, sequence, text).value.units ==
            units + [step.Answered(offer.id, sequence, text).ToUnit()]
  {
    assert |step.Answered(offer.id, sequence, text).results| == 1;
  }

  function TurnAt(turnID: string, input: string, sequence: nat): Unit {
    Unit(TurnUnit, turnID, sequence, sequence, [TextMessage(User, input)])
  }

  function OpenedStep(c: Cast): Step {
    Step(c.t1, 4, 4, Message(Assistant, c.input, [c.offer], "", "", None), [c.offer.id], Names([c.offer]), map[])
  }

  lemma OfferingProjects(base: Record, c: Cast)
    requires c.input != ""
    ensures Project(Offering(base, c)) == Ok(Waiting([TurnAt(c.t1, c.input, 2)], c.offer, OpenedStep(c)))
  {
    var r1, r2 := At(base, 1, SessionCreated(c.input)), At(base, 2, TurnStarted(c.t1, c.input));
    var r3 := At(base, 3, AssistantMessageStarted(c.t1, c.assistant));
    var r4 := At(base, 4, AssistantMessageCompleted(c.t1, c.assistant, c.input, [c.offer], None));
    var r5 := At(base, 5, TurnCompleted(c.t1));
    var units := [TurnAt(c.t1, c.input, 2)];
    assert [] + units == units;
    ProjectStep(EMPTY, r1, [r2] + ([r3] + ([r4] + [r5])), EMPTY);
    ProjectStep(EMPTY, r2, [r3] + ([r4] + [r5]), Projection(units, {}, map[]));
    ProjectStep(Projection(units, {}, map[]), r3, [r4] + [r5], Projection(units, {}, map[]));
    OneOffer(c.offer);
    OfferOne(units, c.offer, OpenedStep(c));
    ProjectStep(Projection(units, {}, map[]), r4, [r5], Waiting(units, c.offer, OpenedStep(c)));
    ProjectLast(Waiting(units, c.offer, OpenedStep(c)), r5);
  }

  lemma BetweenProjects(base: Record, c: Cast, units: seq<Unit>)
    requires c.input != ""
    ensures ProjectFrom(Waiting(units, c.offer, OpenedStep(c)), Between(base, c)) ==
            Ok(Waiting(units + [TurnAt(c.t2, c.input, 6)], c.offer, OpenedStep(c)))
  {
    ProjectLast(Waiting(units, c.offer, OpenedStep(c)), At(base, 6, TurnStarted(c.t2, c.input)));
  }

  /** Running the call closes the step. */
  lemma CallProjects(base: Record, c: Cast, units: seq<Unit>, step: Step)
    requires step.order == [c.offer.id] && step.results == map[]
    ensures var r9 := At(base, 9, ToolCallStarted(c.t3, c.tool, c.offer.id, c.offer.name));
            var r10 := At(base, 10, ToolCallCompleted(c.t3, c.tool, c.offer.id, c.input));
            var p := ProjectFrom(Waiting(units, c.offer, step), [r9] + [r10]);
            p.Ok? && |p.value.units| == |units| + 1 && units <= p.value.units
  {
    var r9 := At(base, 9, ToolCallStarted(c.t3, c.tool, c.offer.id, c.offer.name));
    var r10 := At(base, 10, ToolCallCompleted(c.t3, c.tool, c.offer.id, c.input));
    TouchOne(units, c.offer, step, 9);
    ProjectStep(Waiting(units, c.offer, step), r9, [r10], Waiting(units, c.offer, step.Seen(9)));
    ProjectLast(Waiting(units, c.offer, step.Seen(9)), r10);
    AnswerOne(units, c.offer, step.Seen(9), 10, c.input);
  }

  lemma AnsweringProjects(base: Record, c: Cast, units: seq<Unit>)
    requires c.input != ""
    ensures var p := ProjectFrom(Waiting(units, c.offer, OpenedStep(c)), Answering(base, c));
            p.Ok? && |p.value.units| == |units| + 2 && units + [TurnAt(c.t3, c.input, 8)] <= p.value.units
  {
    var step, more := OpenedStep(c), units + [TurnAt(c.t3, c.input, 8)];
    var r7, r8 := At(base, 7, TurnCompleted(c.t2)), At(base, 8, TurnStarted(c.t3, c.input));
    var r9 := At(base, 9, ToolCallStarted(c.t3, c.tool, c.offer.id, c.offer.name));
    var r10 := At(base, 10, ToolCallCompleted(c.t3, c.tool, c.offer.id, c.input));
    ProjectStep(Waiting(units, c.offer, step), r7, [r8] + ([r9] + [r10]), Waiting(units, c.offer, step));
    ProjectStep(Waiting(units, c.offer, step), r8, [r9] + [r10], Waiting(more, c.offer, step));
    CallProjects(base, c, more, step);
  }

  /** Resumed after the second turn started, the scan meets a call it has not seen offered. */
  lemma AnsweringAloneFails(base: Record, c: Cast)
    requires c.input != ""
    ensures Project(Answering(base, c)).Err?
  {
    var r7, r8 := At(base, 7, TurnCompleted(c.t2)), At(base, 8, TurnStarted(c.t3, c.input));
    var r9 := At(base, 9, ToolCallStarted(c.t3, c.tool, c.offer.id, c.offer.name));
    var r10 := At(base, 10, ToolCallCompleted(c.t3, c.tool, c.offer.id, c.input));
    var p := Projection([TurnAt(c.t3, c.input, 8)], {}, map[]);
    assert [] + [TurnAt(c.t3, c.input, 8)] == [TurnAt(c.t3, c.input, 8)];
    ProjectStep(EMPTY, r7, [r8] + ([r9] + [r10]), EMPTY);
    ProjectStep(EMPTY, r8, [r9] + [r10], p);
    assert ([r9] + [r10])[0] == r9;
    assert Advance(p, r9).Err?;
  }

  /** A unit boundary in front of a turn is not enough to resume from, in a session the aggregate
      accepts. Its units are the turns at 2, 6 and 8 and the step ending at 10; a cut right before the
      third turn resumes after 6, and there the full scan succeeds while the resumed one fails. */
  lemma BoundaryBeforeTurnMayStraddle(base: Record, c: Cast)
    requires Sound(base) && c.input != ""
    ensures var log := Log(base, c);
            && Replay(log).Ok? && |log| == 10
            && Project(log).Ok? && |Project(log).value.units| == 4
            && Project(log).value.units[1].last == 6 && Project(log).value.units[2].kind == TurnUnit
            && Project(log[6..]).Err?
  {
    LogReplays(base, c);
    var log, early := Log(base, c), [TurnAt(c.t1, c.input, 2)];
    OfferingProjects(base, c);
    BetweenProjects(base, c, early);
    AnsweringProjects(base, c, early + [TurnAt(c.t2, c.input, 6)]);
    ProjectSplits(EMPTY, Offering(base, c), Between(base, c));
    ProjectSplits(EMPTY, Offering(base, c) + Between(base, c), Answering(base, c));
    assert log[6..] == Answering(base, c);
    AnsweringAloneFails(base, c);
  }
}
