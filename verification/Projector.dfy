/** Folding a session log into whole conversational units.

    `Project` is the specification, on values: every open call of a step maps to that step,
    and a change to the step shows under each of its open calls. `ProjectorLoop` runs the
    same fold over shared, mutable step objects. */
module Projector {
  import opened Domain

  datatype UnitKind = InstructionUnit | TurnUnit | AssistantUnit | StepUnit

  /** The smallest stretch of conversation that may be kept or covered as a whole. */
  datatype Unit = Unit(kind: UnitKind, turnID: string, first: nat, last: nat, messages: seq<Message>)

  /** An assistant message whose offered calls do not all have a result yet. */
  datatype Step = Step(
    turnID: string,
    first: nat,
    last: nat,
    assistant: Message,
    order: seq<string>,
    names: map<string, string>,
    results: map<string, Message>)
  {
    predicate Balanced() {
      |results| == |order|
    }

    function Seen(sequence: nat): Step {
      if sequence > last then this.(last := sequence) else this
    }

    /** The step once `callID` has its terminal result. */
    function Answered(callID: string, sequence: nat, text: string): Step {
      var name := if callID in names then names[callID] else "";
      this.(results := results[callID := Message(Tool, text, [], callID, name, None)]).Seen(sequence)
    }

    function ToUnit(): Unit {
      Unit(StepUnit, turnID, first, last, [assistant] + InOrder(order, results))
    }
  }

  /** The results in the order their calls were offered. */
  function InOrder(order: seq<string>, results: map<string, Message>): (messages: seq<Message>)
    ensures |messages| == |order|
  {
    if order == [] then []
    else [if order[0] in results then results[order[0]] else TextMessage(Unset, "")] + InOrder(order[1..], results)
  }

  datatype Projection = Projection(units: seq<Unit>, offered: set<string>, open: map<string, Step>)

  const EMPTY := Projection([], {}, map[])

  datatype Fault = OfferedTwice(callID: string) | UnknownCall(callID: string) | AlreadyTerminal(callID: string)

  function Ids(calls: seq<ToolCallOffer>): (ids: seq<string>)
    ensures |ids| == |calls|
    ensures forall i :: 0 <= i < |calls| ==> ids[i] == calls[i].id
  {
    if calls == [] then [] else [calls[0].id] + Ids(calls[1..])
  }

  /** Names by call, a later offer of the same call overriding an earlier one. */
  function Names(calls: seq<ToolCallOffer>): map<string, string> {
    if calls == [] then map[]
    else Names(calls[..|calls| - 1])[calls[|calls| - 1].id := calls[|calls| - 1].name]
  }

  /** The first call that was offered before, if any. */
  function FirstRepeated(calls: seq<ToolCallOffer>, offered: set<string>): Option<string> {
    if calls == [] then None
    else if calls[0].id in offered then Some(calls[0].id)
    else FirstRepeated(calls[1..], offered + {calls[0].id})
  }

  function IdSet(calls: seq<ToolCallOffer>): set<string> {
    set i | 0 <= i < |calls| :: calls[i].id
  }

  /** Every open call of `step` now shows `changed` instead. */
  function Replace(open: map<string, Step>, step: Step, changed: Step): map<string, Step> {
    map c | c in open :: if c in step.order then changed else open[c]
  }

  function NewStep(event: Event, sequence: nat): Step
    requires event.AssistantMessageCompleted?
  {
    Step(event.turnID, sequence, sequence,
         Message(Assistant, event.text, event.toolCalls, "", "", event.providerState),
         Ids(event.toolCalls), Names(event.toolCalls), map[])
  }

  /** `open` with `step` filed under each of `calls`. */
  function FileUnder<T>(open: map<string, T>, calls: set<string>, step: T): map<string, T> {
    open + map c | c in calls :: step
  }

  /** Open `step` under each of its calls, none of which may have been offered before. */
  function Offer(p: Projection, calls: seq<ToolCallOffer>, step: Step): Result<Projection, Fault> {
    match FirstRepeated(calls, p.offered)
    case Some(id) => Err(OfferedTwice(id))
    case None => Ok(p.(offered := p.offered + IdSet(calls), open := FileUnder(p.open, IdSet(calls), step)))
  }

  function Touch(p: Projection, callID: string, sequence: nat): Result<Projection, Fault> {
    if callID !in p.open then Err(UnknownCall(callID))
    else Ok(p.(open := Replace(p.open, p.open[callID], p.open[callID].Seen(sequence))))
  }

  function Close(p: Projection, callID: string, sequence: nat, text: string): Result<Projection, Fault> {
    if callID !in p.open then Err(if callID in p.offered then AlreadyTerminal(callID) else UnknownCall(callID))
    else
      var step := p.open[callID];
      var changed := step.Answered(callID, sequence, text);
      Ok(Projection(if changed.Balanced() then p.units + [changed.ToUnit()] else p.units,
                    p.offered,
                    Replace(p.open, step, changed) - {callID}))
  }

  /** What a record asks of the projection. */
  datatype Action =
    | Skip
    | Emit(unit: Unit)
    | OpenStep(calls: seq<ToolCallOffer>, step: Step)
    | TouchCall(callID: string)
    | CloseCall(callID: string, text: string)

  function ActionOf(r: Record): Action {
    match r.event
    case WorkspaceInstructionsRecorded(_, _, _, rendered, _) =>
      if rendered == "" then Skip
      else Emit(Unit(InstructionUnit, "", r.sequence, r.sequence, [TextMessage(User, rendered)]))
    case TurnStarted(turnID, input) =>
      if input == "" then Skip
      else Emit(Unit(TurnUnit, turnID, r.sequence, r.sequence, [TextMessage(User, input)]))
    case AssistantMessageCompleted(turnID, _, text, toolCalls, providerState) =>
      if toolCalls != [] then OpenStep(toolCalls, NewStep(r.event, r.sequence))
      else if text == "" && providerState.None? then Skip
      else Emit(Unit(AssistantUnit, turnID, r.sequence, r.sequence,
                     [Message(Assistant, text, [], "", "", providerState)]))
    case ToolCallStarted(_, _, callID, _) => TouchCall(callID)
    case ToolCallCompleted(_, _, callID, content) => CloseCall(callID, content)
    case ToolCallFailed(_, _, callID, _, message) => CloseCall(callID, message)
    case ToolCallInterrupted(_, _, callID, _, message) => CloseCall(callID, message)
    case _ => Skip
  }

  function Perform(p: Projection, action: Action, sequence: nat): Result<Projection, Fault> {
    match action
    case Skip => Ok(p)
    case Emit(unit) => Ok(p.(units := p.units + [unit]))
    case OpenStep(calls, step) => Offer(p, calls, step)
    case TouchCall(callID) => Touch(p, callID, sequence)
    case CloseCall(callID, text) => Close(p, callID, sequence, text)
  }

  /** What one record does to the projection. */
  function Advance(p: Projection, r: Record): Result<Projection, Fault> {
    Perform(p, ActionOf(r), r.sequence)
  }

  function ProjectFrom(p: Projection, records: seq<Record>): Result<Projection, Fault>
    decreases |records|
  {
    if records == [] then Ok(p)
    else match Advance(p, records[0])
      case Err(e) => Err(e)
      case Ok(next) => ProjectFrom(next, records[1..])
  }

  function Project(records: seq<Record>): Result<Projection, Fault> {
    ProjectFrom(EMPTY, records)
  }

  lemma {:induction false} ProjectSplits(p: Projection, a: seq<Record>, b: seq<Record>)
    ensures ProjectFrom(p, a + b) ==
            match ProjectFrom(p, a) { case Err(e) => Err(e) case Ok(mid) => ProjectFrom(mid, b) }
    decreases |a|
  {
    if a == [] {
      assert a + b == b;
    } else {
      assert (a + b)[1..] == a[1..] + b;
      match Advance(p, a[0])
      case Err(_) =>
      case Ok(next) => ProjectSplits(next, a[1..], b);
    }
  }

  // ------------------------------------------------------------ open calls

  /** The record reports on one of `calls`. */
  predicate NamesOneOf(r: Record, calls: set<string>) {
    match ActionOf(r)
    case TouchCall(callID) => callID in calls
    case CloseCall(callID, _) => callID in calls
    case _ => false
  }

  /** Some record reports on one of `calls`. */
  predicate NamesAny(records: seq<Record>, calls: set<string>) {
    exists i :: 0 <= i < |records| && NamesOneOf(records[i], calls)
  }

  /** Open calls were offered, and so were all calls of their steps. */
  ghost predicate Offered(p: Projection) {
    && (forall c :: c in p.open ==> c in p.offered)
    && (forall c, d :: c in p.open && d in p.open[c].order ==> d in p.offered)
  }

  lemma OfferKeepsOffered(p: Projection, calls: seq<ToolCallOffer>, step: Step)
    requires Offered(p) && step.order == Ids(calls) && Offer(p, calls, step).Ok?
    ensures Offered(Offer(p, calls, step).value)
  {
    forall d | d in step.order
      ensures d in IdSet(calls)
    {
      var i :| 0 <= i < |step.order| && step.order[i] == d;
      assert calls[i].id == d;
    }
  }

  lemma CloseKeepsOffered(p: Projection, callID: string, sequence: nat, text: string)
    requires Offered(p) && Close(p, callID, sequence, text).Ok?
    ensures Offered(Close(p, callID, sequence, text).value)
  {
  }

  lemma TouchKeepsOffered(p: Projection, callID: string, sequence: nat)
    requires Offered(p) && Touch(p, callID, sequence).Ok?
    ensures Offered(Touch(p, callID, sequence).value)
  {
  }

  /** A step that an action opens answers to exactly the calls it offers. */
  predicate OpensOwnCalls(action: Action) {
    action.OpenStep? ==> action.step.order == Ids(action.calls)
  }

  lemma PerformKeepsOffered(p: Projection, action: Action, sequence: nat)
    requires Offered(p) && OpensOwnCalls(action) && Perform(p, action, sequence).Ok?
    ensures Offered(Perform(p, action, sequence).value)
  {
    match action
    case OpenStep(calls, step) => OfferKeepsOffered(p, calls, step);
    case TouchCall(callID) => TouchKeepsOffered(p, callID, sequence);
    case CloseCall(callID, text) => CloseKeepsOffered(p, callID, sequence, text);
    case _ =>
  }

  lemma {:induction false} ProjectKeepsOffered(p: Projection, records: seq<Record>)
    requires Offered(p) && ProjectFrom(p, records).Ok?
    ensures Offered(ProjectFrom(p, records).value)
    decreases |records|
  {
    if records != [] {
      PerformKeepsOffered(p, ActionOf(records[0]), records[0].sequence);
      ProjectKeepsOffered(Advance(p, records[0]).value, records[1..]);
    }
  }

  // ------------------------------------------------------------ resuming equals rescanning

  /** `full` is `before` extended by `tail`, where nothing in `tail` touches `before`. */
  ghost predicate Extends(before: Projection, full: Projection, tail: Projection) {
    && Offered(before) && Offered(tail)
    && before.offered !! tail.offered
    && full.units == before.units + tail.units
    && full.offered == before.offered + tail.offered
    && full.open == before.open + tail.open
  }

  lemma {:induction false} RepeatedOnlyIfAnywhere(calls: seq<ToolCallOffer>, small: set<string>, large: set<string>)
    requires small <= large && FirstRepeated(calls, large).None?
    ensures FirstRepeated(calls, small).None?
    ensures IdSet(calls) !! large
  {
    if calls != [] {
      RepeatedOnlyIfAnywhere(calls[1..], small + {calls[0].id}, large + {calls[0].id});
      forall i | 0 <= i < |calls|
        ensures calls[i].id !in large
      {
        if i > 0 {
          assert calls[1..][i - 1].id in IdSet(calls[1..]);
        }
      }
    }
  }

  lemma AddExtends(before: map<string, Step>, tail: map<string, Step>, extra: map<string, Step>)
    ensures (before + tail) + extra == before + (tail + extra)
  {
  }

  lemma OfferExtends(before: Projection, full: Projection, tail: Projection, calls: seq<ToolCallOffer>, step: Step)
    requires Extends(before, full, tail) && step.order == Ids(calls) && Offer(full, calls, step).Ok?
    ensures Offer(tail, calls, step).Ok?
    ensures Extends(before, Offer(full, calls, step).value, Offer(tail, calls, step).value)
  {
    RepeatedOnlyIfAnywhere(calls, tail.offered, full.offered);
    OfferKeepsOffered(tail, calls, step);
    AddExtends(before.open, tail.open, map c | c in IdSet(calls) :: step);
  }

  lemma ReplaceExtends(before: Projection, full: Projection, tail: Projection, callID: string, changed: Step)
    requires Extends(before, full, tail) && callID in tail.open
    ensures Replace(full.open, tail.open[callID], changed) == before.open
            + Replace(tail.open, tail.open[callID], changed)
    ensures callID !in before.open && full.open[callID] == tail.open[callID]
  {
  }

  lemma RemoveExtends(before: map<string, Step>, tail: map<string, Step>, callID: string)
    requires callID !in before
    ensures (before + tail) - {callID} == before + (tail - {callID})
  {
  }

  lemma TouchExtends(before: Projection, full: Projection, tail: Projection, callID: string, sequence: nat)
    requires Extends(before, full, tail) && callID in tail.open
    ensures Touch(tail, callID, sequence).Ok? && Touch(full, callID, sequence).Ok?
    ensures Extends(before, Touch(full, callID, sequence).value, Touch(tail, callID, sequence).value)
  {
    TouchKeepsOffered(tail, callID, sequence);
    ReplaceExtends(before, full, tail, callID, tail.open[callID].Seen(sequence));
  }

  lemma AppendExtends(before: seq<Unit>, tail: seq<Unit>, unit: Unit)
    ensures (before + tail) + [unit] == before + (tail + [unit])
  {
  }

  lemma CloseOpenExtends(before: Projection, full: Projection, tail: Projection, callID: string, sequence: nat,
                         text: string)
    requires Extends(before, full, tail) && callID in tail.open
    ensures Close(tail, callID, sequence, text).Ok? && Close(full, callID, sequence, text).Ok?
    ensures Close(full, callID, sequence, text).value.open == before.open
            + Close(tail, callID, sequence, text).value.open
  {
    var changed := tail.open[callID].Answered(callID, sequence, text);
    ReplaceExtends(before, full, tail, callID, changed);
    RemoveExtends(before.open, Replace(tail.open, tail.open[callID], changed), callID);
  }

  lemma CloseUnitsExtends(before: Projection, full: Projection, tail: Projection, callID: string, sequence: nat,
                          text: string)
    requires Extends(before, full, tail) && callID in tail.open
    ensures Close(tail, callID, sequence, text).Ok? && Close(full, callID, sequence, text).Ok?
    ensures Close(full, callID, sequence, text).value.units == before.units
            + Close(tail, callID, sequence, text).value.units
  {
    AppendExtends(before.units, tail.units, tail.open[callID].Answered(callID, sequence, text).ToUnit());
  }

  lemma CloseExtends(before: Projection, full: Projection, tail: Projection, callID: string, sequence: nat,
                     text: string)
    requires Extends(before, full, tail) && callID in tail.open
    ensures Close(tail, callID, sequence, text).Ok? && Close(full, callID, sequence, text).Ok?
    ensures Extends(before, Close(full, callID, sequence, text).value, Close(tail, callID, sequence, text).value)
  {
    CloseOpenExtends(before, full, tail, callID, sequence, text);
    CloseUnitsExtends(before, full, tail, callID, sequence, text);
    CloseKeepsOffered(tail, callID, sequence, text);
  }

  /** A record that names no call left open before is handled alike with and without the past. */
  lemma AdvanceExtends(before: Projection, full: Projection, tail: Projection, r: Record)
    requires Extends(before, full, tail) && Advance(full, r).Ok?
    requires !NamesOneOf(r, before.open.Keys)
    ensures Advance(tail, r).Ok? && Extends(before, Advance(full, r).value, Advance(tail, r).value)
  {
    match ActionOf(r)
    case OpenStep(calls, step) => OfferExtends(before, full, tail, calls, step);
    case TouchCall(callID) => TouchExtends(before, full, tail, callID, r.sequence);
    case CloseCall(callID, text) => CloseExtends(before, full, tail, callID, r.sequence, text);
    case Emit(unit) => AppendExtends(before.units, tail.units, unit);
    case Skip =>
  }

  /** A record that names a call left open before cannot be handled without the past. */
  lemma AdvanceNeedsPast(before: Projection, full: Projection, tail: Projection, r: Record)
    requires Extends(before, full, tail) && NamesOneOf(r, before.open.Keys)
    ensures Advance(tail, r).Err?
  {
  }

  lemma {:induction false} ResumeFrom(before: Projection, full: Projection, tail: Projection, records: seq<Record>)
    requires Extends(before, full, tail) && ProjectFrom(full, records).Ok?
    ensures ProjectFrom(tail, records).Ok? <==> !NamesAny(records, before.open.Keys)
    ensures ProjectFrom(tail, records).Ok? ==>
              ProjectFrom(full, records).value.units == before.units + ProjectFrom(tail, records).value.units
    decreases |records|
  {
    if records != [] {
      var r, rest := records[0], records[1..];
      if NamesOneOf(r, before.open.Keys) {
        AdvanceNeedsPast(before, full, tail, r);
      } else {
        AdvanceExtends(before, full, tail, r);
        ResumeFrom(before, Advance(full, r).value, Advance(tail, r).value, rest);
        NamesAnyStep(records, before.open.Keys);
      }
    }
  }

  lemma NamesAnyStep(records: seq<Record>, calls: set<string>)
    requires records != []
    ensures NamesAny(records, calls) <==> NamesOneOf(records[0], calls) || NamesAny(records[1..], calls)
  {
    var rest := records[1..];
    if i :| 0 <= i < |rest| && NamesOneOf(rest[i], calls) {
      assert records[i + 1] == rest[i];
    }
    if i :| 0 < i < |records| && NamesOneOf(records[i], calls) {
      assert rest[i - 1] == records[i];
    }
  }

  /** Resuming equals rescanning, exactly when the tail reports on no call left open before it.
      If the whole log projects, projecting `b` alone succeeds if and only if no record of `b`
      names a call that `a` left open; and then the whole result is that of `a` followed by
      that of `b`. */
  lemma ResumeEqualsRescan(a: seq<Record>, b: seq<Record>)
    requires Project(a + b).Ok?
    ensures Project(a).Ok?
    ensures Project(b).Ok? <==> !NamesAny(b, Project(a).value.open.Keys)
    ensures Project(b).Ok? ==> Project(a + b).value.units == Project(a).value.units + Project(b).value.units
  {
    ProjectSplits(EMPTY, a, b);
    ProjectKeepsOffered(EMPTY, a);
    var before := Project(a).value;
    assert before.open + EMPTY.open == before.open;
    ResumeFrom(before, before, EMPTY, b);
  }
}
