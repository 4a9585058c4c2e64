/** Tool-call pairing: every offered call that reaches a request is answered exactly once,
    right after its offer and in offered order. */
module ToolPairs {
  import opened Domain
  import opened Projector

  function SetOf(ids: seq<string>): set<string> {
    set d | d in ids
  }

  ghost predicate NoDup(ids: seq<string>) {
    forall i, j :: 0 <= i < j < |ids| ==> ids[i] != ids[j]
  }

  predicate IsAnswer(message: Message, callID: string) {
    message.role == Tool && message.toolCallID == callID && message.toolCalls == []
  }

  /** The messages answer `calls` one by one, in order. */
  predicate Answers(calls: seq<ToolCallOffer>, messages: seq<Message>) {
    && |messages| == |calls|
    && forall i :: 0 <= i < |calls| ==> IsAnswer(messages[i], calls[i].id)
  }

  /** A request's messages in which each offer is immediately followed by all its answers,
      and no tool message stands anywhere else. */
  predicate Paired(messages: seq<Message>)
    decreases |messages|
  {
    messages == [] ||
    (&& messages[0].role != Tool
     && |messages[0].toolCalls| < |messages|
     && Answers(messages[0].toolCalls, messages[1..1 + |messages[0].toolCalls|])
     && Paired(messages[1 + |messages[0].toolCalls|..]))
  }

  /** A unit on its own is paired: one message without calls, or an offer and its answers. */
  predicate UnitPaired(u: Unit) {
    && |u.messages| > 0
    && u.messages[0].role != Tool
    && Answers(u.messages[0].toolCalls, u.messages[1..])
  }

  function Flatten(units: seq<Unit>): seq<Message> {
    if units == [] then [] else units[0].messages + Flatten(units[1..])
  }

  lemma {:induction false} FlattenSplits(a: seq<Unit>, b: seq<Unit>)
    ensures Flatten(a + b) == Flatten(a) + Flatten(b)
  {
    if a == [] {
      assert a + b == b;
    } else {
      assert (a + b)[1..] == a[1..] + b;
      FlattenSplits(a[1..], b);
    }
  }

  /** The calls offered by units, in order. */
  function Offers(units: seq<Unit>): seq<string> {
    if units == [] then [] else UnitOffers(units[0]) + Offers(units[1..])
  }

  function UnitOffers(u: Unit): seq<string> {
    if u.messages == [] then [] else Ids(u.messages[0].toolCalls)
  }

  // ------------------------------------------------------------ the projection keeps pairs

  ghost predicate AllAnswers(results: map<string, Message>) {
    forall d :: d in results ==> IsAnswer(results[d], d)
  }

  /** What holds of a step filed under its open call `c`. */
  ghost predicate StepOpenAt(c: string, step: Step) {
    && step.assistant.role == Assistant && Ids(step.assistant.toolCalls) == step.order
    && NoDup(step.order) && c in step.order && c !in step.results
    && step.results.Keys <= SetOf(step.order)
    && AllAnswers(step.results)
  }

  /** Open calls file one and the same step, or steps without a call in common. */
  ghost predicate OpenWell(open: map<string, Step>) {
    && (forall c :: c in open ==> StepOpenAt(c, open[c]))
    && (forall c, e :: c in open && e in open ==> open[c] == open[e] || SetOf(open[c].order) !! SetOf(open[e].order))
  }

  /** Emitted units are paired, offer each call once, and none that is still open. */
  ghost predicate UnitsWell(p: Projection) {
    && (forall i :: 0 <= i < |p.units| ==> UnitPaired(p.units[i]))
    && NoDup(Offers(p.units))
    && SetOf(Offers(p.units)) <= p.offered
    && (forall c :: c in p.open ==> SetOf(p.open[c].order) !! SetOf(Offers(p.units)))
  }

  ghost predicate Well(p: Projection) {
    Offered(p) && OpenWell(p.open) && UnitsWell(p)
  }

  /** What an action must introduce. */
  ghost predicate WellAction(action: Action) {
    match action
    case Emit(unit) => UnitPaired(unit) && UnitOffers(unit) == []
    case OpenStep(calls, step) =>
      && step.order == Ids(calls) && step.assistant.role == Assistant && step.assistant.toolCalls == calls
      && step.results == map[]
    case _ => true
  }

  lemma {:induction false} FreshCalls(calls: seq<ToolCallOffer>, offered: set<string>)
    requires FirstRepeated(calls, offered).None?
    ensures NoDup(Ids(calls)) && SetOf(Ids(calls)) == IdSet(calls) && IdSet(calls) !! offered
  {
    RepeatedOnlyIfAnywhere(calls, offered, offered);
    if calls != [] {
      FreshCalls(calls[1..], offered + {calls[0].id});
      assert Ids(calls)[1..] == Ids(calls[1..]);
    }
    assert forall i :: 0 <= i < |calls| ==> calls[i].id == Ids(calls)[i];
  }

  /** Filing a new step under calls no open step has keeps the filing well. */
  lemma FileKeepsOpenWell(open: map<string, Step>, calls: set<string>, step: Step)
    requires OpenWell(open) && SetOf(step.order) == calls
    requires forall c :: c in calls ==> StepOpenAt(c, step)
    requires forall c :: c in open ==> SetOf(open[c].order) !! calls
    ensures OpenWell(FileUnder(open, calls, step))
  {
  }

  lemma OfferKeepsUnitsWell(p: Projection, calls: seq<ToolCallOffer>, step: Step)
    requires UnitsWell(p) && step.order == Ids(calls) && SetOf(step.order) == IdSet(calls)
    requires Offer(p, calls, step).Ok? && IdSet(calls) !! p.offered
    ensures UnitsWell(Offer(p, calls, step).value)
  {
  }

  lemma OfferKeepsWell(p: Projection, calls: seq<ToolCallOffer>, step: Step)
    requires Well(p) && WellAction(OpenStep(calls, step)) && Offer(p, calls, step).Ok?
    ensures Well(Offer(p, calls, step).value)
  {
    FreshCalls(calls, p.offered);
    OfferKeepsOffered(p, calls, step);
    OfferKeepsUnitsWell(p, calls, step);
    forall c | c in p.open
      ensures SetOf(p.open[c].order) !! IdSet(calls)
    {
      assert forall d :: d in p.open[c].order ==> d in p.offered;
    }
    FileKeepsOpenWell(p.open, IdSet(calls), step);
  }

  /** A change to a step that keeps its calls open keeps the filing well. */
  lemma ReplaceKeepsOpenWell(open: map<string, Step>, callID: string, changed: Step)
    requires OpenWell(open) && callID in open && changed.order == open[callID].order
    requires forall c :: c in open && c in changed.order && c != callID ==> StepOpenAt(c, changed)
    ensures OpenWell(Replace(open, open[callID], changed) - {callID})
  {
    var next := Replace(open, open[callID], changed) - {callID};
    forall c, e | c in next && e in next
      ensures next[c] == next[e] || SetOf(next[c].order) !! SetOf(next[e].order)
    {
      assert open[c] == open[e] || SetOf(open[c].order) !! SetOf(open[e].order);
      assert c in SetOf(open[c].order) && e in SetOf(open[e].order);
      assert open[c] == open[callID] || SetOf(open[c].order) !! SetOf(open[callID].order);
      assert open[e] == open[callID] || SetOf(open[e].order) !! SetOf(open[callID].order);
    }
  }

  lemma TouchKeepsWell(p: Projection, callID: string, sequence: nat)
    requires Well(p) && Touch(p, callID, sequence).Ok?
    ensures Well(Touch(p, callID, sequence).value)
  {
    TouchKeepsOffered(p, callID, sequence);
    TouchKeepsOpenWell(p.open, callID, p.open[callID].Seen(sequence));
  }

  lemma TouchKeepsOpenWell(open: map<string, Step>, callID: string, changed: Step)
    requires OpenWell(open) && callID in open && changed == open[callID].(last := changed.last)
    ensures OpenWell(Replace(open, open[callID], changed))
  {
    var next := Replace(open, open[callID], changed);
    forall c, e | c in next && e in next
      ensures next[c] == next[e] || SetOf(next[c].order) !! SetOf(next[e].order)
    {
      assert open[c] == open[e] || SetOf(open[c].order) !! SetOf(open[e].order);
      assert c in SetOf(open[c].order) && e in SetOf(open[e].order);
      assert open[c] == open[callID] || SetOf(open[c].order) !! SetOf(open[callID].order);
      assert open[e] == open[callID] || SetOf(open[e].order) !! SetOf(open[callID].order);
    }
    forall c | c in next
      ensures StepOpenAt(c, next[c])
    {
      assert open[c] == open[callID] || SetOf(open[c].order) !! SetOf(open[callID].order);
      assert c in SetOf(open[c].order) && StepOpenAt(c, open[c]);
    }
  }

  /** Distinct keys drawn from a list without repetition, as many as the list is long, are all of it. */
  lemma {:induction false} AllAnswered(order: seq<string>, answered: set<string>)
    requires NoDup(order) && answered <= SetOf(order) && |answered| == |order|
    ensures answered == SetOf(order)
  {
    DistinctCount(order);
    if answered != SetOf(order) {
      ProperSubsetSmaller(answered, SetOf(order));
    }
  }

  lemma ProperSubsetSmaller(a: set<string>, b: set<string>)
    requires a < b
    ensures |a| < |b|
  {
    var x :| x in b && x !in a;
    assert a + {x} <= b;
    SubsetCount(a + {x}, b);
  }

  lemma {:induction false} SubsetCount(a: set<string>, b: set<string>)
    requires a <= b
    ensures |a| <= |b|
    decreases |a|
  {
    if a != {} {
      var x :| x in a;
      SubsetCount(a - {x}, b - {x});
    }
  }

  lemma {:induction false} DistinctCount(order: seq<string>)
    requires NoDup(order)
    ensures |SetOf(order)| == |order|
  {
    if order != [] {
      DistinctCount(order[1..]);
      assert SetOf(order) == {order[0]} + SetOf(order[1..]);
      assert order[0] !in order[1..];
    }
  }

  lemma {:induction false} InOrderAnswers(calls: seq<ToolCallOffer>, results: map<string, Message>)
    requires forall i :: 0 <= i < |calls| ==> calls[i].id in results
    requires AllAnswers(results)
    ensures Answers(calls, InOrder(Ids(calls), results))
  {
    if calls != [] {
      InOrderAnswers(calls[1..], results);
      assert Ids(calls)[1..] == Ids(calls[1..]);
      var rest := InOrder(Ids(calls[1..]), results);
      var all := InOrder(Ids(calls), results);
      assert all == [results[calls[0].id]] + rest;
      forall i | 0 <= i < |calls|
        ensures IsAnswer(all[i], calls[i].id)
      {
        if i > 0 {
          assert all[i] == rest[i - 1] && calls[i] == calls[1..][i - 1];
        }
      }
    }
  }

  lemma AnsweredResults(step: Step, callID: string, sequence: nat, text: string)
    requires AllAnswers(step.results)
    ensures AllAnswers(step.Answered(callID, sequence, text).results)
    ensures step.Answered(callID, sequence, text).results.Keys == step.results.Keys + {callID}
  {
  }

  /** An answered step stays open under its other calls. */
  lemma AnsweredStaysOpen(step: Step, callID: string, sequence: nat, text: string, c: string)
    requires StepOpenAt(callID, step) && StepOpenAt(c, step) && c != callID
    ensures StepOpenAt(c, step.Answered(callID, sequence, text))
  {
    AnsweredResults(step, callID, sequence, text);
  }

  /** Once every call is answered the step is a paired unit offering exactly those calls. */
  lemma BalancedStepIsPaired(step: Step, callID: string, sequence: nat, text: string)
    requires StepOpenAt(callID, step) && step.Answered(callID, sequence, text).Balanced()
    ensures var changed := step.Answered(callID, sequence, text);
            && UnitPaired(changed.ToUnit()) && UnitOffers(changed.ToUnit()) == step.order
            && SetOf(step.order) == step.results.Keys + {callID}
  {
    var changed := step.Answered(callID, sequence, text);
    AnsweredResults(step, callID, sequence, text);
    AllAnswered(step.order, changed.results.Keys);
    var calls := step.assistant.toolCalls;
    forall i | 0 <= i < |calls|
      ensures calls[i].id in changed.results
    {
      assert Ids(calls)[i] in SetOf(step.order);
    }
    InOrderAnswers(calls, changed.results);
    assert changed.ToUnit().messages[1..] == InOrder(step.order, changed.results);
  }

  lemma {:induction false} OffersAppend(units: seq<Unit>, u: Unit)
    ensures Offers(units + [u]) == Offers(units) + UnitOffers(u)
  {
    if units == [] {
      assert [u][1..] == [];
    } else {
      assert (units + [u])[1..] == units[1..] + [u];
      OffersAppend(units[1..], u);
    }
  }

  lemma EmitKeepsUnitsWell(p: Projection, u: Unit, open: map<string, Step>)
    requires UnitsWell(p) && UnitPaired(u) && NoDup(UnitOffers(u))
    requires SetOf(UnitOffers(u)) !! SetOf(Offers(p.units)) && SetOf(UnitOffers(u)) <= p.offered
    requires forall c :: c in open ==>
               SetOf(open[c].order) !! SetOf(Offers(p.units)) && SetOf(open[c].order) !! SetOf(UnitOffers(u))
    ensures UnitsWell(Projection(p.units + [u], p.offered, open))
  {
    OffersAppend(p.units, u);
    NoDupConcat(Offers(p.units), UnitOffers(u));
  }

  lemma NoDupConcat(a: seq<string>, b: seq<string>)
    requires NoDup(a) && NoDup(b) && SetOf(a) !! SetOf(b)
    ensures NoDup(a + b) && SetOf(a + b) == SetOf(a) + SetOf(b)
  {
    forall i, j | 0 <= i < j < |a + b|
      ensures (a + b)[i] != (a + b)[j]
    {
      if i < |a| <= j {
        assert (a + b)[i] in SetOf(a) && (a + b)[j] in SetOf(b);
      }
    }
  }

  lemma CloseKeepsWell(p: Projection, callID: string, sequence: nat, text: string)
    requires Well(p) && Close(p, callID, sequence, text).Ok?
    ensures Well(Close(p, callID, sequence, text).value)
  {
    CloseKeepsOffered(p, callID, sequence, text);
    CloseKeepsOpenWell(p, callID, sequence, text);
    CloseKeepsUnitsWell(p, callID, sequence, text);
  }

  lemma CloseKeepsOpenWell(p: Projection, callID: string, sequence: nat, text: string)
    requires Well(p) && callID in p.open
    ensures OpenWell(Close(p, callID, sequence, text).value.open)
  {
    var step := p.open[callID];
    forall c | c in p.open && c in step.order && c != callID
      ensures StepOpenAt(c, step.Answered(callID, sequence, text))
    {
      assert c in SetOf(p.open[c].order) && c in SetOf(step.order);
      AnsweredStaysOpen(step, callID, sequence, text, c);
    }
    ReplaceKeepsOpenWell(p.open, callID, step.Answered(callID, sequence, text));
  }

  lemma CloseKeepsUnitsWell(p: Projection, callID: string, sequence: nat, text: string)
    requires Well(p) && callID in p.open
    ensures UnitsWell(Close(p, callID, sequence, text).value)
  {
    var step := p.open[callID];
    var changed := step.Answered(callID, sequence, text);
    var open := Close(p, callID, sequence, text).value.open;
    if changed.Balanced() {
      BalancedStepIsPaired(step, callID, sequence, text);
      forall c | c in open
        ensures SetOf(open[c].order) !! SetOf(step.order)
      {
        assert p.open[c] == step || SetOf(p.open[c].order) !! SetOf(step.order);
        assert StepOpenAt(c, p.open[c]) && c in SetOf(p.open[c].order);
        assert p.open[c] != step;
        assert c !in step.order;
      }
      EmitKeepsUnitsWell(p, changed.ToUnit(), open);
    }
  }

  lemma PerformKeepsWell(p: Projection, action: Action, sequence: nat)
    requires Well(p) && WellAction(action) && Perform(p, action, sequence).Ok?
    ensures Well(Perform(p, action, sequence).value)
  {
    match action
    case Skip =>
    case Emit(unit) => EmitKeepsUnitsWell(p, unit, p.open);
    case OpenStep(calls, step) => OfferKeepsWell(p, calls, step);
    case TouchCall(callID) => TouchKeepsWell(p, callID, sequence);
    case CloseCall(callID, text) => CloseKeepsWell(p, callID, sequence, text);
  }

  lemma ActionsAreWell(r: Record)
    ensures WellAction(ActionOf(r))
  {
  }

  lemma {:induction false} ProjectKeepsWell(p: Projection, records: seq<Record>)
    requires Well(p) && ProjectFrom(p, records).Ok?
    ensures Well(ProjectFrom(p, records).value)
    decreases |records|
  {
    if records != [] {
      ActionsAreWell(records[0]);
      PerformKeepsWell(p, ActionOf(records[0]), records[0].sequence);
      ProjectKeepsWell(Advance(p, records[0]).value, records[1..]);
    }
  }

  // ------------------------------------------------------------ any run of whole units is paired

  lemma {:induction false} PairedConcat(a: seq<Message>, b: seq<Message>)
    requires Paired(a) && Paired(b)
    ensures Paired(a + b)
    decreases |a|
  {
    if a == [] {
      assert a + b == b;
    } else {
      var n := |a[0].toolCalls|;
      CutOfConcat(a, b, 1 + n);
      PairedConcat(a[1 + n..], b);
      PairedFrom(a + b);
    }
  }

  /** An offer, its answers and a paired rest. */
  lemma PairedFrom(m: seq<Message>)
    requires m != [] && m[0].role != Tool && |m[0].toolCalls| < |m|
    requires Answers(m[0].toolCalls, m[1..1 + |m[0].toolCalls|]) && Paired(m[1 + |m[0].toolCalls|..])
    ensures Paired(m)
  {
  }

  lemma CutOfConcat(a: seq<Message>, b: seq<Message>, n: nat)
    requires 1 <= n <= |a|
    ensures (a + b)[1..n] == a[1..n] && (a + b)[n..] == a[n..] + b && (a + b)[0] == a[0]
  {
  }

  lemma {:induction false} FlattenPaired(units: seq<Unit>)
    requires forall i :: 0 <= i < |units| ==> UnitPaired(units[i])
    ensures Paired(Flatten(units))
  {
    if units != [] {
      var m := units[0].messages;
      assert m[1..1 + |m[0].toolCalls|] == m[1..];
      assert Paired(m);
      FlattenPaired(units[1..]);
      PairedConcat(m, Flatten(units[1..]));
    }
  }

  /** In a paired list every tool message follows the message that offered its call. */
  lemma {:induction false} ToolMessageFollowsOffer(messages: seq<Message>, i: nat)
    requires Paired(messages) && i < |messages| && messages[i].role == Tool
    ensures exists j :: OffersTo(messages, j, i)
    decreases |messages|
  {
    var n := |messages[0].toolCalls|;
    if i <= n {
      assert messages[1..1 + n][i - 1] == messages[i];
      assert OffersTo(messages, 0, i);
    } else {
      var rest := messages[1 + n..];
      ToolMessageFollowsOffer(rest, i - 1 - n);
      var j :| OffersTo(rest, j, i - 1 - n);
      assert OffersTo(messages, j + 1 + n, i);
    }
  }

  /** Message `j` offers, at the matching place, the call that the later message `i` answers. */
  predicate OffersTo(messages: seq<Message>, j: int, i: int) {
    && 0 <= j < i < |messages| && i - j - 1 < |messages[j].toolCalls|
    && messages[j].toolCalls[i - j - 1].id == messages[i].toolCallID
  }

  /** In a paired list every offered call is answered, at its own place after the offer. */
  lemma {:induction false} OfferIsAnswered(messages: seq<Message>, j: nat, k: nat)
    requires Paired(messages) && j < |messages| && k < |messages[j].toolCalls|
    ensures j + 1 + k < |messages| && IsAnswer(messages[j + 1 + k], messages[j].toolCalls[k].id)
    decreases |messages|
  {
    var n := |messages[0].toolCalls|;
    var answers := messages[1..1 + n];
    assert forall i :: 0 <= i < n ==> answers[i] == messages[1 + i];
    if j == 0 {
    } else if j <= n {
      assert false;
    } else {
      var rest := messages[1 + n..];
      assert rest[j - 1 - n] == messages[j];
      OfferIsAnswered(rest, j - 1 - n, k);
    }
  }

  lemma {:induction false} OffersOfSuffix(units: seq<Unit>, k: nat)
    requires k <= |units| && NoDup(Offers(units))
    ensures NoDup(Offers(units[k..]))
    decreases k
  {
    if k > 0 {
      var rest := Offers(units[1..]);
      assert forall i :: 0 <= i < |rest| ==> rest[i] == Offers(units)[|UnitOffers(units[0])| + i];
      OffersOfSuffix(units[1..], k - 1);
      assert units[1..][k - 1..] == units[k..];
    } else {
      assert units[0..] == units;
    }
  }

  /** Tool-pair safety through any cut: whatever suffix of the projected units is retained, its
      messages are paired and no call is offered twice in it. */
  lemma AnyTailIsPaired(records: seq<Record>, k: nat)
    requires Project(records).Ok? && k <= |Project(records).value.units|
    ensures Paired(Flatten(Project(records).value.units[k..]))
    ensures NoDup(Offers(Project(records).value.units[k..]))
  {
    ProjectKeepsWell(EMPTY, records);
    FlattenPaired(Project(records).value.units[k..]);
    OffersOfSuffix(Project(records).value.units, k);
  }

  /** Two message lists that differ in text at most. */
  predicate SameButText(a: seq<Message>, b: seq<Message>) {
    |a| == |b| && forall i :: 0 <= i < |a| ==> b[i] == a[i].(text := b[i].text)
  }

  /** Rewriting texts, as pruning does, keeps a list paired. */
  lemma {:induction false} PairedIgnoresText(a: seq<Message>, b: seq<Message>)
    requires SameButText(a, b) && Paired(a)
    ensures Paired(b)
    decreases |a|
  {
    if a != [] {
      var n := |a[0].toolCalls|;
      PairedIgnoresText(a[1 + n..], b[1 + n..]);
      var x, y := a[1..1 + n], b[1..1 + n];
      assert forall i :: 0 <= i < n ==> x[i] == a[1 + i] && y[i] == b[1 + i];
    }
  }
}
