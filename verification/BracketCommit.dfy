/** The appends of a bracket as the append protocol carries them out. */
module BracketCommit {
  import opened Domain
  import opened Session
  import opened AppendStore
  import opened AppendProtocol
  import opened CompactionTrace

  /** The one record of a committed batch; none where the append failed. */
  function RecordOf(r: Result<(State, seq<Record>), AppError>): Option<Record> {
    if r.Ok? && r.value.1 != [] then Some(r.value.1[0]) else None
  }

  /** The intent proposes just this event. */
  predicate Proposes(intent: Intent, event: Event) {
    |intent.request.events| == 1 && intent.request.events[0].event == event
  }

  /** Committing a single event advances the aggregate as appending its record does. */
  lemma CommitIsAppend(state: State, intent: Intent, event: Event, receipt: Receipt)
    requires Proposes(intent, event)
    ensures var r := AfterCommit(state, intent, receipt);
            Appended(state, event, RecordOf(r)) == if r.Ok? then Some(r.value.0) else None
  {
    var records := RecordsOf(intent.request);
    assert records[0] == RecordAt(intent.request, 0) && records[1..] == [];
    assert records[0].(event := event) == records[0];
    if Apply(state, records[0]).Ok? {
      assert ReplayFrom(Apply(state, records[0]).value, records[1..]) == Apply(state, records[0]);
    }
  }

  /** One append of a bracket against any behaviour of the store: it is an append in the sense of the
      trace, and where it succeeds the commit is witnessed in the store. */
  method AppendEvent(store: EventStore, state: State, intent: Intent, event: Event, maxOperations: nat,
                     moves: nat -> Move, canceled: nat -> bool)
    returns (next: Option<State>, record: Option<Record>, receipt: Receipt)
    requires Proposes(intent, event)
    modifies store
    ensures next == Appended(state, event, record)
    ensures next.Some? ==>
              && Witnessed(store.digest, store.world, intent, receipt)
              && AfterCommit(state, intent, receipt).Ok?
    ensures next.Some? ==> next.value == AfterCommit(state, intent, receipt).value.0
  {
    var r;
    ghost var run;
    r, receipt, run := CommitThenResolve(store, state, intent, maxOperations, moves, canceled);
    CommitIsAppend(state, intent, event, receipt);
    record := RecordOf(r);
    next := if r.Ok? then Some(r.value.0) else None;
  }

  /** An aggregate that was the replay of its stream is so again after the append. */
  lemma AppendFollowsStream(w: World, state: State, intent: Intent, event: Event, receipt: Receipt)
    requires Proposes(intent, event) && StandsAt(w, intent.request, receipt) && AfterCommit(state, intent, receipt).Ok?
    requires Replay(Records(w.Stream(intent.request.sessionID))[..intent.request.expectedVersion]) == Ok(state)
    ensures var next := Appended(state, event, RecordOf(AfterCommit(state, intent, receipt)));
            next.Some? && Replay(Records(w.Stream(intent.request.sessionID))[..receipt.last]) == Ok(next.value)
  {
    CommitIsAppend(state, intent, event, receipt);
    StateFollowsStream(w, intent, receipt, state);
  }
}
