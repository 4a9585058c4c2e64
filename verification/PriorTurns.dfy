/** The older projection of committed turns straight into messages, and its agreement with the
    projection into units on orderly logs. */
module PriorTurns {
  import opened Domain
  import opened Projector
  import opened ToolPairs

  /** Tool names seen so far and messages emitted so far. */
  datatype Prior = Prior(names: map<string, string>, messages: seq<Message>)

  function NameOf(names: map<string, string>, callID: string): string {
    if callID in names then names[callID] else ""
  }

  function PriorStep(p: Prior, event: Event, current: string): Prior {
    match event
    case TurnStarted(turnID, input) =>
      if turnID == current || input == "" then p else p.(messages := p.messages + [TextMessage(User, input)])
    case AssistantMessageCompleted(turnID, _, text, toolCalls, providerState) =>
      if turnID == current || (toolCalls == [] && text == "" && providerState.None?) then p
      else p.(messages := p.messages + [Message(Assistant, text, toolCalls, "", "", providerState)])
    case ToolCallStarted(turnID, _, callID, name) =>
      if turnID == current then p else p.(names := p.names[callID := name])
    case ToolCallCompleted(turnID, _, callID, content) =>
      if turnID == current then p
      else p.(messages := p.messages + [Message(Tool, content, [], callID, NameOf(p.names, callID), None)])
    case ToolCallFailed(turnID, _, callID, _, message) =>
      if turnID == current then p
      else p.(messages := p.messages + [Message(Tool, message, [], callID, NameOf(p.names, callID), None)])
    case _ => p
  }

  function PriorFrom(p: Prior, records: seq<Record>, current: string): Prior
    decreases |records|
  {
    if records == [] then p else PriorFrom(PriorStep(p, records[0].event, current), records[1..], current)
  }

  method ProjectPriorTurns(records: seq<Record>, current: string) returns (messages: seq<Message>)
    ensures messages == PriorFrom(Prior(map[], []), records, current).messages
  {
    var p := Prior(map[], []);
    for i := 0 to |records|
      invariant PriorFrom(p, records[i..], current) == PriorFrom(Prior(map[], []), records, current)
    {
      assert records[i..][1..] == records[i + 1..];
      p := PriorStep(p, records[i].event, current);
    }
    messages := p.messages;
  }

  // ------------------------------------------------------------ orderly logs

  /** What a record means to an orderly log, with no turn excluded. */
  datatype Cue =
    | Silence
    | Speech(message: Message)
    | Offering(calls: seq<ToolCallOffer>, message: Message)
    | Start(callID: string, name: string)
    | Reply(callID: string, text: string)
    | Disorder

  function CueOf(event: Event, current: string): Cue {
    match event
    case WorkspaceInstructionsRecorded(_, _, _, rendered, _) => if rendered == "" then Silence else Disorder
    case TurnStarted(turnID, input) =>
      if turnID == current then Disorder else if input == "" then Silence else Speech(TextMessage(User, input))
    case AssistantMessageCompleted(turnID, _, text, toolCalls, providerState) =>
      if turnID == current then Disorder
      else if toolCalls != [] then Offering(toolCalls, Message(Assistant, text, toolCalls, "", "", providerState))
      else if text == "" && providerState.None? then Silence
      else Speech(Message(Assistant, text, toolCalls, "", "", providerState))
    case ToolCallStarted(turnID, _, callID, name) => if turnID == current then Disorder else Start(callID, name)
    case ToolCallCompleted(turnID, _, callID, content) => if turnID == current then Disorder else Reply(callID, content)
    case ToolCallFailed(turnID, _, callID, _, message) => if turnID == current then Disorder else Reply(callID, message)
    case ToolCallInterrupted(_, _, _, _, _) => Disorder
    case _ => Silence
  }

  /** Results come in offered order right after their offer, complete and none interrupted, each
      started before under the offered name; there are no instruction messages and nothing of the
      excluded turn. `pending` are the offers without a result, `started` the calls that began. */
  predicate Orderly(records: seq<Record>, current: string, pending: seq<ToolCallOffer>, started: set<string>)
    decreases |records|
  {
    if records == [] then pending == []
    else match CueOf(records[0].event, current)
      case Silence => Orderly(records[1..], current, pending, started)
      case Speech(_) => pending == [] && Orderly(records[1..], current, pending, started)
      case Offering(calls, _) => pending == [] && Orderly(records[1..], current, calls, {})
      case Start(callID, name) =>
        IsOffered(pending, callID, name) && Orderly(records[1..], current, pending, started + {callID})
      case Reply(callID, _) =>
        && pending != [] && pending[0].id == callID && callID in started
        && Orderly(records[1..], current, pending[1..], started)
      case Disorder => false
  }

  predicate IsOffered(pending: seq<ToolCallOffer>, callID: string, name: string) {
    exists i :: 0 <= i < |pending| && pending[i].id == callID && pending[i].name == name
  }

  /** How each cue moves the older projection. */
  function PriorCue(p: Prior, cue: Cue): Prior {
    match cue
    case Speech(message) => p.(messages := p.messages + [message])
    case Offering(_, message) => p.(messages := p.messages + [message])
    case Start(callID, name) => p.(names := p.names[callID := name])
    case Reply(callID, text) => p.(messages := p.messages
                                   + [Message(Tool, text, [], callID, NameOf(p.names, callID), None)])
    case _ => p
  }

  lemma PriorStepFollowsCue(p: Prior, event: Event, current: string)
    requires CueOf(event, current) != Disorder
    ensures PriorStep(p, event, current) == PriorCue(p, CueOf(event, current))
  {
  }

  /** How each cue moves the projection into units. */
  predicate ActionFits(action: Action, cue: Cue) {
    match cue
    case Silence => action == Skip
    case Speech(message) => action.Emit? && action.unit.messages == [message]
    case Offering(calls, message) =>
      && action.OpenStep? && action.calls == calls
      && action.step.assistant == message && action.step.order == Ids(calls)
      && action.step.names == Names(calls) && action.step.results == map[]
    case Start(callID, _) => action == TouchCall(callID)
    case Reply(callID, text) => action == CloseCall(callID, text)
    case Disorder => true
  }

  lemma ActionFollowsCue(r: Record, current: string)
    ensures ActionFits(ActionOf(r), CueOf(r.event, current))
  {
  }

  // ------------------------------------------------------------ the two agree

  /** Between steps: every message emitted is in a unit. */
  ghost predicate AtRest(p: Projection, messages: seq<Message>) {
    p.open == map[] && messages == Flatten(p.units)
  }

  /** The first `k` calls of a step, and no others, have their results. */
  ghost predicate Answered(step: Step, k: nat) {
    k <= |step.order| && NoDup(step.order) && step.results.Keys == SetOf(step.order[..k])
  }

  /** Only the calls from `k` on are open, all in the same step. */
  ghost predicate OpenFrom(open: map<string, Step>, step: Step, k: nat) {
    k <= |step.order| && open.Keys == SetOf(step.order[k..]) && forall c :: c in open ==> open[c] == step
  }

  /** The started calls among those still open carry their offered names. */
  ghost predicate Named(names: map<string, string>, pending: seq<ToolCallOffer>, started: set<string>) {
    forall i :: 0 <= i < |pending| && pending[i].id in started ==>
      pending[i].id in names && names[pending[i].id] == pending[i].name
  }

  /** Inside a step: its offer and the results so far are emitted but not yet in a unit. */
  ghost predicate InStep(p: Projection, step: Step, k: nat, messages: seq<Message>) {
    && Answered(step, k) && k < |step.order| && OpenFrom(p.open, step, k)
    && messages == Flatten(p.units) + ([step.assistant] + InOrder(step.order[..k], step.results))
  }

  lemma FlattenAppend(units: seq<Unit>, unit: Unit)
    ensures Flatten(units + [unit]) == Flatten(units) + unit.messages
  {
    FlattenSplits(units, [unit]);
    assert [unit][1..] == [];
  }

  /** Adding a result for a call not in the list leaves the list's results, and adding the call puts
      its result at the end. */
  lemma {:induction false} InOrderAppend(order: seq<string>, id: string, results: map<string, Message>, m: Message)
    requires id !in order
    ensures InOrder(order + [id], results[id := m]) == InOrder(order, results) + [m]
  {
    if order == [] {
      assert [id][1..] == [] && [] + [id] == [id];
    } else {
      assert (order + [id])[1..] == order[1..] + [id] && order[0] in order;
      InOrderAppend(order[1..], id, results, m);
    }
  }

  lemma {:induction false} NameIsOffered(calls: seq<ToolCallOffer>, i: nat)
    requires i < |calls| && NoDup(Ids(calls))
    ensures calls[i].id in Names(calls) && Names(calls)[calls[i].id] == calls[i].name
  {
    var less := calls[..|calls| - 1];
    if i < |less| {
      assert forall j :: 0 <= j < |less| ==> Ids(less)[j] == Ids(calls)[j];
      NameIsOffered(less, i);
      assert Ids(calls)[i] != Ids(calls)[|calls| - 1];
    }
  }

  lemma SetOfSplits(a: seq<string>, b: seq<string>)
    ensures SetOf(a + b) == SetOf(a) + SetOf(b)
  {
  }

  lemma SetOfOne(id: string)
    ensures SetOf([id]) == {id}
  {
  }

  /** Without repetitions, the id at `k` is in neither half around it. */
  lemma Apart(ids: seq<string>, k: nat)
    requires k < |ids| && NoDup(ids)
    ensures ids[k] !in ids[..k] && ids[k] !in ids[k + 1..]
  {
  }

  lemma OneFewerOpen(ids: seq<string>, k: nat)
    requires k < |ids| && NoDup(ids)
    ensures SetOf(ids[k..]) - {ids[k]} == SetOf(ids[k + 1..]) && ids[k] in SetOf(ids[k..])
  {
    Apart(ids, k);
    assert ids[k..] == [ids[k]] + ids[k + 1..];
    SetOfSplits([ids[k]], ids[k + 1..]);
    SetOfOne(ids[k]);
  }

  lemma OneMoreAnswered(ids: seq<string>, k: nat)
    requires k < |ids|
    ensures SetOf(ids[..k + 1]) == SetOf(ids[..k]) + {ids[k]}
  {
    assert ids[..k + 1] == ids[..k] + [ids[k]];
    SetOfSplits(ids[..k], [ids[k]]);
    SetOfOne(ids[k]);
  }

  // one lemma for each cue

  lemma OfferingEntersStep(p: Projection, calls: seq<ToolCallOffer>, step: Step, messages: seq<Message>)
    requires AtRest(p, messages) && calls != [] && Offer(p, calls, step).Ok?
    requires step.order == Ids(calls) && step.results == map[]
    ensures InStep(Offer(p, calls, step).value, step, 0, messages + [step.assistant])
  {
    FreshCalls(calls, p.offered);
    FirstInStep(p, step, IdSet(calls), messages);
  }

  lemma FirstInStep(p: Projection, step: Step, calls: set<string>, messages: seq<Message>)
    requires AtRest(p, messages) && NoDup(step.order) && step.order != [] && SetOf(step.order) == calls
             && step.results == map[]
    ensures InStep(p.(open := FileUnder(p.open, calls, step)), step, 0, messages + [step.assistant])
  {
    assert step.order[0..] == step.order;
    assert FileUnder(p.open, calls, step).Keys == calls;
    assert [step.assistant] + [] == [step.assistant];
  }

  lemma OpenIsInOrder(open: map<string, Step>, step: Step, k: nat, c: string)
    requires OpenFrom(open, step, k) && c in open
    ensures c in step.order && open[c] == step
  {
    assert c in step.order[k..];
  }

  lemma SeenOpens(open: map<string, Step>, step: Step, changed: Step, k: nat)
    requires OpenFrom(open, step, k) && changed.order == step.order
    ensures OpenFrom(Replace(open, step, changed), changed, k)
  {
    forall c | c in open
      ensures c in step.order
    {
      OpenIsInOrder(open, step, k, c);
    }
  }

  lemma StartStaysInStep(p: Projection, step: Step, k: nat, messages: seq<Message>, callID: string, sequence: nat)
    requires InStep(p, step, k, messages) && callID in p.open
    ensures InStep(Touch(p, callID, sequence).value, step.Seen(sequence), k, messages)
  {
    SeenOpens(p.open, step, step.Seen(sequence), k);
    assert p.open[callID] == step;
  }

  /** A result moves the step on by one call. */
  lemma ReplyAnswers(step: Step, k: nat, sequence: nat, text: string)
    requires Answered(step, k) && k < |step.order|
    ensures Answered(step.Answered(step.order[k], sequence, text), k + 1)
  {
    OneMoreAnswered(step.order, k);
  }

  lemma ReplyInOrder(order: seq<string>, k: nat, results: map<string, Message>, reply: Message)
    requires NoDup(order) && k < |order|
    ensures InOrder(order[..k + 1], results[order[k] := reply]) == InOrder(order[..k], results) + [reply]
  {
    Apart(order, k);
    assert order[..k + 1] == order[..k] + [order[k]];
    InOrderAppend(order[..k], order[k], results, reply);
  }

  lemma ReplyOpens(open: map<string, Step>, step: Step, changed: Step, k: nat)
    requires OpenFrom(open, step, k) && k < |step.order| && NoDup(step.order) && changed.order == step.order
    ensures step.order[k] in open && OpenFrom(Replace(open, step, changed) - {step.order[k]}, changed, k + 1)
  {
    OneFewerOpen(step.order, k);
    forall c | c in open
      ensures c in step.order
    {
      OpenIsInOrder(open, step, k, c);
    }
  }

  lemma AnsweredCount(ids: seq<string>, k: nat)
    requires k <= |ids| && NoDup(ids)
    ensures |SetOf(ids[..k])| == k
  {
    DistinctCount(ids[..k]);
  }

  /** The step is finished exactly with its last call. */
  lemma BalancedAtEnd(step: Step, k: nat)
    requires Answered(step, k)
    ensures step.Balanced() <==> k == |step.order|
    ensures k == |step.order| ==> step.ToUnit().messages == [step.assistant] + InOrder(step.order[..k], step.results)
  {
    AnsweredCount(step.order, k);
    assert |step.results| == |step.results.Keys|;
    assert step.order[..|step.order|] == step.order;
  }

  lemma ReplyMovesOn(p: Projection, step: Step, k: nat, messages: seq<Message>, sequence: nat, text: string,
                     reply: Message)
    requires InStep(p, step, k, messages)
    requires reply == Message(Tool, text, [], step.order[k], if step.order[k] in step.names then
                              step.names[step.order[k]] else "", None)
    ensures step.order[k] in p.open && Close(p, step.order[k], sequence, text).Ok?
    ensures var next := Close(p, step.order[k], sequence, text).value;
            if k + 1 < |step.order| then InStep(next, step.Answered(step.order[k], sequence, text), k + 1,
                                                messages + [reply])
            else AtRest(next, messages + [reply])
  {
    var changed := step.Answered(step.order[k], sequence, text);
    ReplyAnswers(step, k, sequence, text);
    ReplyInOrder(step.order, k, step.results, reply);
    ReplyOpens(p.open, step, changed, k);
    BalancedAtEnd(changed, k + 1);
    Regrouped(Flatten(p.units), step.assistant, InOrder(step.order[..k], step.results), reply);
    if k + 1 == |step.order| {
      FlattenAppend(p.units, changed.ToUnit());
      assert step.order[k + 1..] == [];
    }
  }

  lemma Regrouped(a: seq<Message>, first: Message, rest: seq<Message>, last: Message)
    ensures a + ([first] + rest) + [last] == a + ([first] + (rest + [last]))
  {
  }

  // the simulation

  /** The two projections are in step: nothing pending and nothing withheld, or one open step whose
      unanswered calls are the pending ones. */
  ghost predicate InTune(p: Projection, prior: Prior, calls: seq<ToolCallOffer>, k: nat, started: set<string>) {
    && k <= |calls|
    && if k == |calls| then AtRest(p, prior.messages)
       else exists step :: Tuned(p, prior, step, calls, k, started)
  }

  ghost predicate Tuned(p: Projection, prior: Prior, step: Step, calls: seq<ToolCallOffer>, k: nat,
                        started: set<string>)
  {
    && k < |calls| && InStep(p, step, k, prior.messages) && step.order == Ids(calls) && step.names == Names(calls)
    && Named(prior.names, calls[k..], started)
  }

  lemma OfferingInTune(p: Projection, prior: Prior, calls: seq<ToolCallOffer>, step: Step)
    requires AtRest(p, prior.messages) && calls != [] && Offer(p, calls, step).Ok?
    requires step.order == Ids(calls) && step.names == Names(calls) && step.results == map[]
    ensures InTune(Offer(p, calls, step).value, prior.(messages := prior.messages + [step.assistant]), calls, 0, {})
  {
    OfferingEntersStep(p, calls, step, prior.messages);
    assert Tuned(Offer(p, calls, step).value, prior.(messages := prior.messages + [step.assistant]), step, calls, 0,
                 {});
  }

  lemma SpeechInTune(p: Projection, prior: Prior, unit: Unit, message: Message)
    requires AtRest(p, prior.messages) && unit.messages == [message]
    ensures AtRest(p.(units := p.units + [unit]), prior.messages + [message])
  {
    FlattenAppend(p.units, unit);
  }

  lemma StartNamed(names: map<string, string>, pending: seq<ToolCallOffer>, started: set<string>, callID: string,
                   name: string)
    requires Named(names, pending, started) && DistinctOffers(pending) && IsOffered(pending, callID, name)
    ensures Named(names[callID := name], pending, started + {callID})
  {
    var j :| 0 <= j < |pending| && pending[j].id == callID && pending[j].name == name;
    forall i | 0 <= i < |pending| && pending[i].id in started + {callID}
      ensures names[callID := name][pending[i].id] == pending[i].name
    {
      if pending[i].id == callID {
        assert i == j;
      }
    }
  }

  ghost predicate DistinctOffers(offers: seq<ToolCallOffer>) {
    forall i, j :: 0 <= i < j < |offers| ==> offers[i].id != offers[j].id
  }

  lemma DistinctByIds(calls: seq<ToolCallOffer>, ids: seq<string>)
    requires NoDup(ids) && |ids| == |calls| && forall i :: 0 <= i < |calls| ==> ids[i] == calls[i].id
    ensures DistinctOffers(calls)
  {
    forall i, j | 0 <= i < j < |calls|
      ensures calls[i].id != calls[j].id
    {
      assert ids[i] != ids[j];
    }
  }

  lemma SuffixDistinct(calls: seq<ToolCallOffer>, k: nat)
    requires k <= |calls| && DistinctOffers(calls)
    ensures DistinctOffers(calls[k..])
  {
  }

  lemma StartInTune(p: Projection, prior: Prior, step: Step, calls: seq<ToolCallOffer>, k: nat, started: set<string>,
                    callID: string, name: string, sequence: nat)
    requires Tuned(p, prior, step, calls, k, started) && callID in p.open && IsOffered(calls[k..], callID, name)
    ensures Tuned(Touch(p, callID, sequence).value, prior.(names := prior.names[callID := name]), step.Seen(sequence),
                  calls, k, started + {callID})
  {
    StartStaysInStep(p, step, k, prior.messages, callID, sequence);
    DistinctByIds(calls, step.order);
    SuffixDistinct(calls, k);
    StartNamed(prior.names, calls[k..], started, callID, name);
  }

  lemma ReplyInTune(p: Projection, prior: Prior, step: Step, calls: seq<ToolCallOffer>, k: nat, started: set<string>,
                    text: string, sequence: nat)
    requires Tuned(p, prior, step, calls, k, started) && calls[k].id in started
    ensures var id := calls[k].id;
            var reply := Message(Tool, text, [], id, NameOf(prior.names, id), None);
            && Close(p, id, sequence, text).Ok?
            && InTune(Close(p, id, sequence, text).value, prior.(messages := prior.messages + [reply]), calls, k + 1,
                      started)
  {
    var id := calls[k].id;
    assert calls[k..][0] == calls[k] && id == step.order[k];
    NameIsOffered(calls, k);
    var reply := Message(Tool, text, [], id, calls[k].name, None);
    ReplyMovesOn(p, step, k, prior.messages, sequence, text, reply);
    if k + 1 < |calls| {
      FewerNamed(prior.names, calls, k, started);
      assert Tuned(Close(p, id, sequence, text).value, prior.(messages := prior.messages + [reply]),
                   step.Answered(id, sequence, text), calls, k + 1, started);
    }
  }

  lemma FewerNamed(names: map<string, string>, calls: seq<ToolCallOffer>, k: nat, started: set<string>)
    requires k < |calls| && Named(names, calls[k..], started)
    ensures Named(names, calls[k + 1..], started)
  {
    var more, fewer := calls[k..], calls[k + 1..];
    assert forall i :: 0 <= i < |fewer| ==> fewer[i] == more[i + 1];
  }

  /** What an orderly log demands of a cue, with the calls from `k` on pending. */
  predicate InOrderlyPlace(cue: Cue, calls: seq<ToolCallOffer>, k: nat, started: set<string>)
    requires k <= |calls|
  {
    match cue
    case Silence => true
    case Speech(_) => k == |calls|
    case Offering(offers, _) => k == |calls| && offers != []
    case Start(callID, name) => k < |calls| && IsOffered(calls[k..], callID, name)
    case Reply(callID, _) => k < |calls| && calls[k].id == callID && callID in started
    case Disorder => false
  }

  /** The calls, how many are answered and which are started after a cue. */
  function AfterCue(cue: Cue, calls: seq<ToolCallOffer>, k: nat, started: set<string>):
    (seq<ToolCallOffer>, nat, set<string>)
  {
    match cue
    case Offering(offers, _) => (offers, 0, {})
    case Start(callID, _) => (calls, k, started + {callID})
    case Reply(_, _) => (calls, k + 1, started)
    case _ => (calls, k, started)
  }

  lemma OfferingOffers(event: Event, current: string)
    ensures CueOf(event, current).Offering? ==> CueOf(event, current).calls != []
  {
  }

  lemma OrderlyStep(records: seq<Record>, current: string, calls: seq<ToolCallOffer>, k: nat, started: set<string>)
    requires records != [] && k <= |calls| && Orderly(records, current, calls[k..], started)
    ensures var cue := CueOf(records[0].event, current);
            && InOrderlyPlace(cue, calls, k, started)
            && var (calls', k', started') := AfterCue(cue, calls, k, started);
               k' <= |calls'| && Orderly(records[1..], current, calls'[k'..], started')
  {
    OfferingOffers(records[0].event, current);
    var cue := CueOf(records[0].event, current);
    if cue.Reply? {
      assert calls[k..][0] == calls[k] && calls[k..][1..] == calls[k + 1..];
    } else if cue.Offering? {
      assert cue.calls[0..] == cue.calls;
    }
  }

  lemma StartKeepsTune(p: Projection, prior: Prior, calls: seq<ToolCallOffer>, k: nat, started: set<string>,
                       callID: string, name: string, sequence: nat)
    requires InTune(p, prior, calls, k, started) && k < |calls| && callID in p.open
             && IsOffered(calls[k..], callID, name)
    ensures InTune(Touch(p, callID, sequence).value, prior.(names := prior.names[callID := name]), calls, k,
                   started + {callID})
  {
    var step :| Tuned(p, prior, step, calls, k, started);
    StartInTune(p, prior, step, calls, k, started, callID, name, sequence);
  }

  lemma ReplyKeepsTune(p: Projection, prior: Prior, calls: seq<ToolCallOffer>, k: nat, started: set<string>,
                       text: string, sequence: nat)
    requires InTune(p, prior, calls, k, started) && k < |calls| && calls[k].id in started
    ensures var id := calls[k].id;
            var reply := Message(Tool, text, [], id, NameOf(prior.names, id), None);
            && Close(p, id, sequence, text).Ok?
            && InTune(Close(p, id, sequence, text).value, prior.(messages := prior.messages + [reply]), calls, k + 1,
                      started)
  {
    var step :| Tuned(p, prior, step, calls, k, started);
    ReplyInTune(p, prior, step, calls, k, started, text, sequence);
  }

  /** One record of an orderly log keeps the two projections in step. */
  lemma CueInTune(p: Projection, prior: Prior, calls: seq<ToolCallOffer>, k: nat, started: set<string>, cue: Cue,
                  action: Action, sequence: nat)
    requires InTune(p, prior, calls, k, started) && ActionFits(action, cue) && Perform(p, action, sequence).Ok?
    requires InOrderlyPlace(cue, calls, k, started)
    ensures var (calls', k', started') := AfterCue(cue, calls, k, started);
            InTune(Perform(p, action, sequence).value, PriorCue(prior, cue), calls', k', started')
  {
    match cue
    case Silence =>
    case Speech(message) => SpeechInTune(p, prior, action.unit, message);
    case Offering(offers, message) =>
      OfferingInTune(p, prior, offers, action.step);
    case Start(callID, name) =>
      StartKeepsTune(p, prior, calls, k, started, callID, name, sequence);
    case Reply(callID, text) =>
      ReplyKeepsTune(p, prior, calls, k, started, text, sequence);
  }

  lemma {:induction false} AgreeFrom(p: Projection, prior: Prior, calls: seq<ToolCallOffer>, k: nat,
                                     started: set<string>, records: seq<Record>, current: string)
    requires InTune(p, prior, calls, k, started) && Orderly(records, current, calls[k..], started)
    requires ProjectFrom(p, records).Ok?
    ensures PriorFrom(prior, records, current).messages == Flatten(ProjectFrom(p, records).value.units)
    decreases |records|
  {
    if records != [] {
      var r := records[0];
      var cue := CueOf(r.event, current);
      OrderlyStep(records, current, calls, k, started);
      PriorStepFollowsCue(prior, r.event, current);
      ActionFollowsCue(r, current);
      CueInTune(p, prior, calls, k, started, cue, ActionOf(r), r.sequence);
      var (calls', k', started') := AfterCue(cue, calls, k, started);
      AgreeFrom(Advance(p, r).value, PriorCue(prior, cue), calls', k', started', records[1..], current);
    }
  }

  /** Two projectors agree: on an orderly log the messages of the units are the messages of the older
      projection, in the same order. */
  lemma ProjectorsAgree(records: seq<Record>, current: string)
    requires Orderly(records, current, [], {}) && Project(records).Ok?
    ensures PriorFrom(Prior(map[], []), records, current).messages == Flatten(Project(records).value.units)
  {
    AgreeFrom(EMPTY, Prior(map[], []), [], 0, {}, records, current);
  }
}
