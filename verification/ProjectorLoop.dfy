/** The projector as it runs: one pass over the records, mutating step objects that every
    call of a step shares. It computes exactly the fold `Projector.Project`. */
module ProjectorLoop {
  import opened Domain
  import opened Projector

  class OpenStep {
    const turnID: string
    const first: nat
    const assistant: Message
    var last: nat
    var order: seq<string>
    var names: map<string, string>
    var results: map<string, Message>

    constructor (turnID: string, sequence: nat, assistant: Message)
      ensures Value() == Step(turnID, sequence, sequence, assistant, [], map[], map[])
    {
      this.turnID, first, this.assistant, last := turnID, sequence, assistant, sequence;
      order, names, results := [], map[], map[];
    }

    function Value(): Step
      reads this
    {
      Step(turnID, first, last, assistant, order, names, results)
    }

    method SeeAt(sequence: nat)
      modifies this`last
      ensures Value() == old(Value()).Seen(sequence)
    {
      if sequence > last {
        last := sequence;
      }
    }

    method Answer(callID: string, sequence: nat, text: string)
      modifies this`results, this`last
      ensures Value() == old(Value()).Answered(callID, sequence, text)
    {
      var name := if callID in names then names[callID] else "";
      results := results[callID := Message(Tool, text, [], callID, name, None)];
      SeeAt(sequence);
    }
  }

  /** The step each open call sees. */
  ghost function Values(open: map<string, OpenStep>): map<string, Step>
    reads open.Values
  {
    map c | c in open :: open[c].Value()
  }

  /** Two open calls share an object exactly when they belong to the same step. */
  ghost predicate Shared(open: map<string, OpenStep>)
    reads open.Values
  {
    forall c, e :: c in open && e in open ==> (open[c] == open[e] <==> e in open[c].order)
  }

  /** File `step` under each offered call, stopping at a call offered before. */
  method OfferCalls(step: OpenStep, calls: seq<ToolCallOffer>, offered: set<string>, open: map<string, OpenStep>)
    returns (repeated: Option<string>, offered': set<string>, open': map<string, OpenStep>)
    requires step.order == [] && step.names == map[]
    modifies step`order, step`names
    ensures repeated == FirstRepeated(calls, offered)
    ensures repeated.None? ==> offered' == offered + IdSet(calls) && open' == FileUnder(open, IdSet(calls), step)
    ensures repeated.None? ==> step.Value() == old(step.Value()).(order := Ids(calls), names := Names(calls))
  {
    offered', open' := offered, open;
    ghost var done: set<string> := {};
    for k := 0 to |calls|
      invariant offered' == offered + done
      invariant open' == FileUnder(open, done, step)
      invariant Filed(calls, k, done, step.order, step.names)
      invariant FirstRepeated(calls, offered) == FirstRepeated(calls[k..], offered')
    {
      var call := calls[k];
      RepeatedNext(calls, k, offered');
      if call.id in offered' {
        return Some(call.id), offered', open';
      }
      FileOneMore(open, done, call.id, step);
      OneMore(calls, k, done, step.order, step.names);
      offered', open' := offered' + {call.id}, open'[call.id := step];
      step.order, step.names := step.order + [call.id], step.names[call.id := call.name];
      done := done + {call.id};
    }
    assert calls[..|calls|] == calls && calls[|calls|..] == [];
    repeated := None;
  }

  /** The bookkeeping of the first `k` calls. */
  ghost predicate Filed(calls: seq<ToolCallOffer>, k: nat, done: set<string>, order: seq<string>,
                        names: map<string, string>)
    requires k <= |calls|
  {
    done == IdSet(calls[..k]) && order == Ids(calls[..k]) && names == Names(calls[..k])
  }

  lemma RepeatedNext(calls: seq<ToolCallOffer>, k: nat, offered: set<string>)
    requires k < |calls|
    ensures FirstRepeated(calls[k..], offered) ==
            if calls[k].id in offered then Some(calls[k].id) else FirstRepeated(calls[k + 1..], offered + {calls[k].id})
  {
    assert calls[k..][1..] == calls[k + 1..];
  }

  lemma FileOneMore<T>(open: map<string, T>, calls: set<string>, id: string, step: T)
    ensures FileUnder(open, calls + {id}, step) == FileUnder(open, calls, step)[id := step]
  {
  }

  lemma OneMore(calls: seq<ToolCallOffer>, k: nat, done: set<string>, order: seq<string>, names: map<string, string>)
    requires k < |calls| && Filed(calls, k, done, order, names)
    ensures Filed(calls, k + 1, done + {calls[k].id}, order + [calls[k].id], names[calls[k].id := calls[k].name])
  {
    var less, more := calls[..k], calls[..k + 1];
    assert more[..k] == less;
    forall d | d in IdSet(less) + {calls[k].id}
      ensures d in IdSet(more)
    {
      if d in IdSet(less) {
        var i :| 0 <= i < |less| && less[i].id == d;
        assert more[i].id == d;
      } else {
        assert more[k].id == d;
      }
    }
    forall d | d in IdSet(more)
      ensures d in IdSet(less) + {calls[k].id}
    {
      var i :| 0 <= i < |more| && more[i].id == d;
      if i < k {
        assert less[i].id == d;
      }
    }
  }

  /** The sharing of step objects survives the opening of a step whose calls are new. */
  lemma OfferKeepsShared(open: map<string, OpenStep>, calls: set<string>, step: OpenStep)
    requires Shared(open) && step !in open.Values
    requires forall d :: d in calls <==> d in step.order
    requires open.Keys !! calls && (forall c, d :: c in open && d in open[c].order ==> d !in calls)
    ensures Shared(FileUnder(open, calls, step))
  {
  }

  lemma OfferedValues(open: map<string, OpenStep>, calls: set<string>, step: OpenStep)
    ensures Values(FileUnder(open, calls, step)) == FileUnder(Values(open), calls, step.Value())
  {
  }

  lemma OrderIsIdSet(calls: seq<ToolCallOffer>)
    ensures forall d :: d in IdSet(calls) <==> d in Ids(calls)
  {
    forall d | d in Ids(calls)
      ensures d in IdSet(calls)
    {
      var i :| 0 <= i < |calls| && Ids(calls)[i] == d;
      assert calls[i].id == d;
    }
    forall d | d in IdSet(calls)
      ensures d in Ids(calls)
    {
      var i :| 0 <= i < |calls| && calls[i].id == d;
      assert Ids(calls)[i] == d;
    }
  }

  /** Open a step for an assistant message that offers calls. */
  method OpenCalls(offered: set<string>, open: map<string, OpenStep>, calls: seq<ToolCallOffer>, opening: Step)
    returns (repeated: Option<string>, offered': set<string>, open': map<string, OpenStep>, step: OpenStep)
    requires Shared(open) && Offered(Projection([], offered, Values(open)))
    requires opening.first == opening.last && opening.results == map[]
    requires opening.order == Ids(calls) && opening.names == Names(calls)
    ensures repeated == FirstRepeated(calls, offered)
    ensures repeated.None? ==> offered' == offered + IdSet(calls)
    ensures repeated.None? ==> Shared(open') && Values(open') == FileUnder(Values(open), IdSet(calls), opening)
    ensures fresh(step) && (repeated.None? ==> open'.Values <= open.Values + {step})
  {
    step := new OpenStep(opening.turnID, opening.first, opening.assistant);
    repeated, offered', open' := OfferCalls(step, calls, offered, open);
    if repeated.None? {
      OpenedCalls(offered, open, calls, step);
    }
  }

  /** Filing a new step under fresh calls, seen through the object map. */
  lemma OpenedCalls(offered: set<string>, open: map<string, OpenStep>, calls: seq<ToolCallOffer>, step: OpenStep)
    requires Shared(open) && Offered(Projection([], offered, Values(open)))
    requires step !in open.Values && step.order == Ids(calls) && FirstRepeated(calls, offered).None?
    ensures var open' := FileUnder(open, IdSet(calls), step);
            Shared(open') && Values(open') == FileUnder(Values(open), IdSet(calls), step.Value())
              && open'.Values <= open.Values + {step}
  {
    FreshCalls(offered, open, calls);
    OfferKeepsShared(open, IdSet(calls), step);
    OfferedValues(open, IdSet(calls), step);
  }

  lemma FreshCalls(offered: set<string>, open: map<string, OpenStep>, calls: seq<ToolCallOffer>)
    requires Offered(Projection([], offered, Values(open))) && FirstRepeated(calls, offered).None?
    ensures forall d :: d in IdSet(calls) <==> d in Ids(calls)
    ensures open.Keys !! IdSet(calls) && forall c, d :: c in open && d in open[c].order ==> d !in IdSet(calls)
  {
    RepeatedOnlyIfAnywhere(calls, offered, offered);
    OrderIsIdSet(calls);
    forall c, d | c in open && d in open[c].order
      ensures d in offered
    {
      assert d in Values(open)[c].order;
    }
    assert open.Keys == Values(open).Keys;
  }

  method TouchCall(open: map<string, OpenStep>, callID: string, sequence: nat)
    requires Shared(open) && callID in open
    modifies open.Values
    ensures Shared(open)
    ensures Values(open) == Replace(old(Values(open)), old(Values(open))[callID],
                                    old(Values(open))[callID].Seen(sequence))
  {
    open[callID].SeeAt(sequence);
  }

  /** Record one call's result; the step becomes a unit once it was the last one missing. */
  method CloseToolCall(units: seq<Unit>, offered: set<string>, open: map<string, OpenStep>, callID: string,
                       sequence: nat, text: string)
    returns (units': seq<Unit>, open': map<string, OpenStep>, fault: Option<Fault>)
    requires Shared(open)
    modifies open.Values
    ensures open'.Values <= open.Values && Shared(open')
    ensures var closed := Close(Projection(units, offered, old(Values(open))), callID, sequence, text);
            && (closed.Err? ==> fault == Some(closed.error))
            && (closed.Ok? ==> fault == None && closed.value == Projection(units', offered, Values(open')))
  {
    units', open', fault := units, open, None;
    if callID !in open {
      fault := Some(if callID in offered then AlreadyTerminal(callID) else UnknownCall(callID));
      return;
    }
    var step := open[callID];
    ghost var before := Values(open);
    step.Answer(callID, sequence, text);
    assert Values(open) == Replace(before, before[callID], step.Value());
    open' := open - {callID};
    assert Values(open') == Replace(before, before[callID], step.Value()) - {callID};
    if |step.results| == |step.order| {
      units' := units + [step.Value().ToUnit()];
    }
  }

  /** One pass over the records. */
  method ProjectSourceEvents(records: seq<Record>) returns (r: Result<seq<Unit>, Fault>)
    ensures Project(records).Err? ==> r == Err(Project(records).error)
    ensures Project(records).Ok? ==> r == Ok(Project(records).value.units)
  {
    var units: seq<Unit> := [];
    var offered: set<string> := {};
    var open: map<string, OpenStep> := map[];
    ghost var p := EMPTY;
    for i := 0 to |records|
      invariant fresh(open.Values) && Shared(open)
      invariant p == Projection(units, offered, Values(open))
      invariant Offered(p) && ProjectFrom(p, records[i..]) == Project(records)
    {
      assert records[i..][0] == records[i] && records[i..][1..] == records[i + 1..];
      var fault: Option<Fault>;
      units, offered, open, fault := HandleRecord(units, offered, open, records[i]);
      if fault.Some? {
        return Err(fault.value);
      }
      PerformKeepsOffered(p, ActionOf(records[i]), records[i].sequence);
      p := Projection(units, offered, Values(open));
    }
    r := Ok(units);
  }

  /** The effect of an offer of calls on the run. */
  method HandleOffer(units: seq<Unit>, offered: set<string>, open: map<string, OpenStep>, record: Record)
    returns (offered': set<string>, open': map<string, OpenStep>, fault: Option<Fault>)
    requires Shared(open) && Offered(Projection([], offered, Values(open))) && ActionOf(record).OpenStep?
    ensures var next := Advance(Projection(units, offered, Values(open)), record);
            && (next.Err? ==> fault == Some(next.error))
            && (next.Ok? ==> fault == None && next.value == Projection(units, offered', Values(open')))
    ensures fault.None? ==> Shared(open') && fresh(open'.Values - open.Values)
  {
    var repeated, step;
    repeated, offered', open', step := OpenCalls(offered, open, ActionOf(record).calls, ActionOf(record).step);
    fault := if repeated.Some? then Some(OfferedTwice(repeated.value)) else None;
  }

  /** The effect of one record on the run. */
  method HandleRecord(units: seq<Unit>, offered: set<string>, open: map<string, OpenStep>, record: Record)
    returns (units': seq<Unit>, offered': set<string>, open': map<string, OpenStep>, fault: Option<Fault>)
    requires Shared(open) && Offered(Projection([], offered, Values(open)))
    modifies open.Values
    ensures var next := Advance(Projection(units, offered, old(Values(open))), record);
            && (next.Err? ==> fault == Some(next.error))
            && (next.Ok? ==> fault == None && next.value == Projection(units', offered', Values(open')))
    ensures fault.None? ==> Shared(open') && fresh(open'.Values - open.Values)
  {
    units', offered', open', fault := units, offered, open, None;
    match ActionOf(record)
    case Skip =>
    case Emit(unit) => units' := units + [unit];
    case OpenStep(_, _) =>
      offered', open', fault := HandleOffer(units, offered, open, record);
    case TouchCall(callID) =>
      if callID !in open {
        fault := Some(UnknownCall(callID));
        return;
      }
      TouchCall(open, callID, record.sequence);
    case CloseCall(callID, text) =>
      units', open', fault := CloseToolCall(units, offered, open, callID, record.sequence, text);
  }
}
