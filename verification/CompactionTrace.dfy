/** What compaction brackets write: events appended one by one, each bracket a start and an end. */
module CompactionTrace {
  import opened Domain
  import opened Session
  import opened Materialize
  import Durable = CheckpointRecord

  // ------------------------------------------------------------ appends and the aggregate

  /** The aggregate once `event` is appended as the given record. */
  function Appended(state: State, event: Event, record: Option<Record>): Option<State> {
    match record
    case None => None
    case Some(r) =>
      match Apply(state, r.(event := event))
      case Err(_) => None
      case Ok(next) => Some(next)
  }

  /** What appending an event as the `n`-th append comes to. */
  type Append = (nat, State, Event) -> Option<State>

  /** Appends that become the given records, or fail where there is none. */
  function ByRecords(appends: nat -> Option<Record>): Append {
    (n: nat, state: State, event: Event) => Appended(state, event, appends(n))
  }

  /** The aggregate once all events of a trace are appended. */
  function AppendAll(append: Append, state: State, trace: seq<Event>): Option<State> {
    if trace == [] then Some(state)
    else match AppendAll(append, state, trace[..|trace| - 1])
      case None => None
      case Some(s) => append(|trace| - 1, s, trace[|trace| - 1])
  }

  lemma AppendOneMore(append: Append, state: State, trace: seq<Event>, event: Event, s: State)
    requires AppendAll(append, state, trace) == Some(s)
    ensures AppendAll(append, state, trace + [event]) == append(|trace|, s, event)
  {
    assert (trace + [event])[..|trace|] == trace;
  }

  /** A checkpoint that was built completes its bracket with its record; otherwise the bracket fails with
      the reason. */
  function EndEvent(id: string, built: Result<Checkpoint, string>): Event {
    if built.Ok? then ContextCompactionCompleted(id, Durable.RecordFromCheckpoint(built.value))
    else ContextCompactionFailed(id, OtherReason(built.error))
  }

  /** The end of a bracket leaves none open. */
  ghost predicate Closing(append: Append) {
    forall n: nat, state: State, id: string, built: Result<Checkpoint, string> ::
      append(n, state, EndEvent(id, built)).Some? ==> append(n, state, EndEvent(id, built)).value.compaction.None?
  }

  lemma RecordsClose(appends: nat -> Option<Record>)
    ensures Closing(ByRecords(appends))
  {
    forall n: nat, state: State, id: string, built: Result<Checkpoint, string>
      | ByRecords(appends)(n, state, EndEvent(id, built)).Some?
      ensures ByRecords(appends)(n, state, EndEvent(id, built)).value.compaction.None?
    {
      EndCloses(state, id, built, appends(n));
    }
  }

  lemma EndCloses(state: State, id: string, built: Result<Checkpoint, string>, record: Option<Record>)
    requires Appended(state, EndEvent(id, built), record).Some?
    ensures Appended(state, EndEvent(id, built), record).value.compaction.None?
  {
  }

  // ------------------------------------------------------------ one bracket

  /** Whether what a strategy built, or the reason it gives, is justified. */
  type Judge = (Strategy, string, Result<Checkpoint, string>) -> bool

  /** The outside of a bracket: its trigger, the identifiers it draws and its appends. */
  datatype Setting = Setting(trigger: Trigger, ids: nat -> Option<string>, append: Append)

  function IdFor(setting: Setting, strategy: Strategy): Option<string> {
    setting.ids(if strategy == ResetStrategy then 1 else 0)
  }

  function StartEvent(id: string, setting: Setting, strategy: Strategy): Event {
    ContextCompactionStarted(id, setting.trigger, strategy)
  }

  /** The event ends the bracket as its checkpoint justly turned out. */
  ghost predicate Ends(judge: Judge, strategy: Strategy, id: string, event: Event) {
    exists built :: event == EndEvent(id, built) && judge(strategy, id, built)
  }

  /** One bracket, after what was written before it. */
  ghost predicate BracketAt(judge: Judge, setting: Setting, strategy: Strategy, before: seq<Event>, trace: seq<Event>) {
    var id, n := IdFor(setting, strategy), |before|;
    && before <= trace && |trace| <= n + 2
    && (|trace| > n ==> id.Some? && trace[n] == StartEvent(id.value, setting, strategy))
    && (|trace| > n + 1 ==> Ends(judge, strategy, id.value, trace[n + 1]))
  }

  datatype BracketFault = IDFailed | AppendFailed

  datatype Outcome = Outcome(state: State, checkpoint: Option<Checkpoint>, ran: bool)

  /** The append of `tried` was refused: the start of the bracket, or its end, as the checkpoint
      turned out. */
  ghost predicate Refused(judge: Judge, setting: Setting, strategy: Strategy, before: nat, trace: seq<Event>,
                          durable: State, tried: Event)
  {
    var id := IdFor(setting, strategy);
    && id.Some? && setting.append(|trace|, durable, tried).None?
    && (if |trace| == before then tried == StartEvent(id.value, setting, strategy)
        else |trace| == before + 1 && Ends(judge, strategy, id.value, tried))
  }

  /** The last event records the checkpoint, which is justified. */
  ghost predicate Sealed(judge: Judge, strategy: Strategy, id: string, trace: seq<Event>, c: Checkpoint) {
    trace != [] && trace[|trace| - 1] == EndEvent(id, Ok(c)) && judge(strategy, id, Ok(c))
  }

  /** The bracket was written whole; it ran if it completed, and then left its checkpoint. */
  ghost predicate Ran(judge: Judge, setting: Setting, strategy: Strategy, before: nat, trace: seq<Event>,
                      durable: State, o: Outcome)
  {
    var id := IdFor(setting, strategy);
    && durable == o.state && durable.compaction.None? && |trace| == before + 2 && id.Some?
    && (o.ran <==> o.checkpoint.Some?) && (o.ran <==> trace[before + 1].ContextCompactionCompleted?)
    && (o.ran ==> Sealed(judge, strategy, id.value, trace, o.checkpoint.value))
  }

  /** How one strategy ended, on the aggregate `state` behind what was written before. */
  ghost predicate Strategized(judge: Judge, setting: Setting, strategy: Strategy, state: State, before: seq<Event>,
                              r: Result<Outcome, BracketFault>, trace: seq<Event>, durable: State, tried: Event)
  {
    && BracketAt(judge, setting, strategy, before, trace)
    && match r
       case Ok(o) => Ran(judge, setting, strategy, |before|, trace, durable, o)
       case Err(IDFailed) => IdFor(setting, strategy).None? && trace == before && durable == state
       case Err(AppendFailed) => Refused(judge, setting, strategy, |before|, trace, durable, tried)
  }

  /** The bracket of `strategy` was opened behind what was written before. */
  ghost predicate Opened(setting: Setting, strategy: Strategy, start: State, before: seq<Event>, id: string,
                         begun: State)
  {
    && IdFor(setting, strategy) == Some(id)
    && AppendAll(setting.append, start, before + [StartEvent(id, setting, strategy)]) == Some(begun)
  }

  /** Draw the identifier and append the start. */
  method OpenBracket(setting: Setting, strategy: Strategy, state: State, written: nat, ghost judge: Judge,
                     ghost start: State, ghost before: seq<Event>)
    returns (r: Result<(string, State), BracketFault>, ghost tried: Event)
    requires written == |before| && AppendAll(setting.append, start, before) == Some(state)
    ensures r.Ok? ==> Opened(setting, strategy, start, before, r.value.0, r.value.1)
    ensures r.Err? ==> Strategized(judge, setting, strategy, state, before, Err(r.error), before, state, tried)
  {
    tried := UnknownEvent;
    var id := IdFor(setting, strategy);
    if id.None? {
      return Err(IDFailed), tried;
    }
    var event := StartEvent(id.value, setting, strategy);
    tried := event;
    AppendOneMore(setting.append, start, before, event, state);
    var begun := setting.append(written, state, event);
    if begun.None? {
      return Err(AppendFailed), tried;
    }
    r := Ok((id.value, begun.value));
  }

  /** Append the end that goes with what was built. */
  method CloseBracket(setting: Setting, strategy: Strategy, id: string, begun: State, written: nat,
                      built: Result<Checkpoint, string>, ghost judge: Judge, ghost state: State, ghost start: State,
                      ghost before: seq<Event>)
    returns (r: Result<Outcome, BracketFault>, ghost trace: seq<Event>, ghost durable: State, ghost tried: Event)
    requires written == |before| && Opened(setting, strategy, start, before, id, begun)
    requires Closing(setting.append) && judge(strategy, id, built)
    ensures AppendAll(setting.append, start, trace) == Some(durable)
    ensures Strategized(judge, setting, strategy, state, before, r, trace, durable, tried)
  {
    trace, durable := before + [StartEvent(id, setting, strategy)], begun;
    var event := EndEvent(id, built);
    tried := event;
    assert Ends(judge, strategy, id, event);
    AppendOneMore(setting.append, start, trace, event, begun);
    var closed := setting.append(written + 1, begun, event);
    if closed.None? {
      return Err(AppendFailed), trace, durable, tried;
    }
    trace, durable := trace + [event], closed.value;
    r := Ok(Outcome(closed.value, if built.Ok? then Some(built.value) else None, built.Ok?));
  }

  // ------------------------------------------------------------ a summary, then perhaps a reset

  /** What is written in all: a summary bracket, and after it a reset bracket only if the summary
      failed and a reset was called for. */
  ghost predicate TraceWell(judge: Judge, setting: Setting, resetDue: bool, trace: seq<Event>) {
    if |trace| <= 2 then BracketAt(judge, setting, SummaryStrategy, [], trace)
    else
      && BracketAt(judge, setting, SummaryStrategy, [], trace[..2]) && trace[1].ContextCompactionFailed?
      && BracketAt(judge, setting, ResetStrategy, trace[..2], trace) && resetDue
  }

  /** The strategy whose bracket was written last. */
  function LastStrategy(trace: seq<Event>): Strategy {
    if |trace| < 3 then SummaryStrategy else ResetStrategy
  }

  /** It ran exactly if the last bracket completed, and then left the checkpoint of that bracket. */
  ghost predicate ClosedWith(judge: Judge, setting: Setting, trace: seq<Event>, durable: State, o: Outcome) {
    var id := IdFor(setting, LastStrategy(trace));
    && durable == o.state && (o.ran <==> o.checkpoint.Some?)
    && (o.ran <==> trace != [] && trace[|trace| - 1].ContextCompactionCompleted?)
    && (o.ran ==> id.Some? && Sealed(judge, LastStrategy(trace), id.value, trace, o.checkpoint.value))
  }

  /** An identifier was not to be had, or the append of `tried` was refused. */
  ghost predicate BrokeOff(judge: Judge, setting: Setting, trace: seq<Event>, durable: State, tried: Event,
                           fault: BracketFault)
  {
    match fault
    case IDFailed => setting.ids(if trace == [] then 0 else 1).None?
    case AppendFailed =>
      if |trace| < 2 then Refused(judge, setting, SummaryStrategy, 0, trace, durable, tried)
      else Refused(judge, setting, ResetStrategy, 2, trace, durable, tried)
  }

  /** How everything ended: what was written is well ordered and left open only by a refused append; an
      outcome and a fault say what they rest on. */
  ghost predicate Bracketed(judge: Judge, setting: Setting, resetDue: bool, r: Result<Outcome, BracketFault>,
                            trace: seq<Event>, durable: State, tried: Event)
  {
    && TraceWell(judge, setting, resetDue, trace)
    && (r != Err(AppendFailed) ==> |trace| % 2 == 0 && (trace == [] || durable.compaction.None?))
    && match r
       case Ok(o) => ClosedWith(judge, setting, trace, durable, o)
       case Err(fault) => BrokeOff(judge, setting, trace, durable, tried, fault)
  }

  lemma SummaryAlone(judge: Judge, setting: Setting, resetDue: bool, state: State, r: Result<Outcome, BracketFault>,
                     trace: seq<Event>, durable: State, tried: Event)
    requires Strategized(judge, setting, SummaryStrategy, state, [], r, trace, durable, tried)
    ensures Bracketed(judge, setting, resetDue, r, trace, durable, tried)
  {
  }

  lemma ResetAfterSummary(judge: Judge, setting: Setting, state: State, summary: seq<Event>,
                          r: Result<Outcome, BracketFault>, trace: seq<Event>, durable: State, tried: Event)
    requires BracketAt(judge, setting, SummaryStrategy, [], summary) && |summary| == 2
    requires !summary[1].ContextCompactionCompleted? && state.compaction.None?
    requires Strategized(judge, setting, ResetStrategy, state, summary, r, trace, durable, tried)
    ensures Bracketed(judge, setting, true, r, trace, durable, tried)
  {
    TwoBrackets(judge, setting, summary, trace);
    match r
    case Ok(o) => assert |trace| == 4 && ClosedWith(judge, setting, trace, durable, o);
    case Err(IDFailed) => assert |trace| == 2;
    case Err(AppendFailed) =>
  }

  lemma TwoBrackets(judge: Judge, setting: Setting, summary: seq<Event>, trace: seq<Event>)
    requires BracketAt(judge, setting, SummaryStrategy, [], summary) && |summary| == 2
    requires !summary[1].ContextCompactionCompleted?
    requires BracketAt(judge, setting, ResetStrategy, summary, trace)
    ensures TraceWell(judge, setting, true, trace)
  {
    assert trace[..2] == summary && trace[1] == summary[1];
    if |trace| == 2 {
      assert trace == summary;
    }
  }

  /** An outcome that ran is that of the last bracket, the reset's if there were two. */
  lemma OutcomeIsSealed(judge: Judge, setting: Setting, resetDue: bool, o: Outcome, trace: seq<Event>, durable: State,
                        tried: Event)
    requires Bracketed(judge, setting, resetDue, Ok(o), trace, durable, tried)
    ensures o.ran <==> o.checkpoint.Some?
    ensures o.ran ==> && IdFor(setting, LastStrategy(trace)).Some?
                      && Sealed(judge, LastStrategy(trace), IdFor(setting, LastStrategy(trace)).value, trace,
                                o.checkpoint.value)
    ensures o.ran ==> (LastStrategy(trace) == ResetStrategy <==> |trace| == 4)
  {
  }
}
