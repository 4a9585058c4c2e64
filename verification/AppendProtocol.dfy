/** Committing a batch whose outcome may be lost, and finding out what became of it. */
module AppendProtocol {
  import opened Domain
  import opened Session
  import opened AppendStore

  const DEFAULT_MAX_OPERATIONS: nat := 4

  /** A proposal and the digest that identifies it, kept unchanged for exact retry. */
  datatype Intent = Intent(request: AppendRequest, digest: string)

  datatype AppError =
    | OutcomeUnknown | ContractViolation | Conflict(code: StoreCode) | Canceled | LoadFailed | AppendFailed

  predicate ValidReceipt(intent: Intent, receipt: Receipt) {
    && receipt.appendID == intent.request.appendID && receipt.position != 0
    && receipt.first == intent.request.expectedVersion + 1 && receipt.last == intent.request.Last()
  }

  function MapStoreError(canceled: bool, code: StoreCode, appending: bool): AppError {
    if code.CommitOutcomeUnknown? then (if appending then OutcomeUnknown else ContractViolation)
    else if canceled then Canceled
    else match code
      case VersionConflict => Conflict(code)
      case AppendIdentityMismatch => Conflict(code)
      case CommandIdentityMismatch => Conflict(code)
      case CommandRequestConflict => Conflict(code)
      case DomainIdentityConflict => Conflict(code)
      case Corrupt => ContractViolation
      case _ => if appending then AppendFailed else LoadFailed
  }

  /** The store holds, under the intent's identifier and digest, the commit the receipt describes. */
  predicate Witnessed(digest: Digester, w: World, intent: Intent, receipt: Receipt) {
    var id := intent.request.appendID;
    && id in w.commits && digest(w.commits[id].request) == Some(intent.digest)
    && receipt == w.commits[id].ToReceipt() && ValidReceipt(intent, receipt)
  }

  /** The identifier belongs to a batch of another digest. */
  predicate Usurped(digest: Digester, w: World, intent: Intent) {
    var id := intent.request.appendID;
    id in w.commits && digest(w.commits[id].request) != Some(intent.digest)
  }

  /** This very request was never committed. */
  predicate Unwritten(w: World, q: AppendRequest) {
    q.appendID in w.commits ==> w.commits[q.appendID].request != q
  }

  /** What a result says about the store it leaves behind. `reached` tells that the stream had
      reached the expected version when the intent was made. */
  predicate Tells(digest: Digester, w: World, intent: Intent, r: Result<Receipt, AppError>, reached: bool) {
    match r
    case Ok(receipt) => Witnessed(digest, w, intent, receipt)
    case Err(Conflict(AppendIdentityMismatch)) => Usurped(digest, w, intent)
    case Err(Conflict(VersionConflict)) => reached ==> Unwritten(w, intent.request)
    case Err(_) => true
  }

  lemma TellsPersists(digest: Digester, w: World, requests: seq<AppendRequest>, intent: Intent, receipt: Receipt)
    ensures Witnessed(digest, w, intent, receipt) ==> Witnessed(digest, Settle(w, requests), intent, receipt)
    ensures Usurped(digest, w, intent) ==> Usurped(digest, Settle(w, requests), intent)
  {
    RunOnlyGrows(w, requests, "", intent.request.appendID);
  }

  /** An answered append call, judged in the store it leaves. */
  lemma AnswerTells(digest: Digester, w: World, intent: Intent, move: Move, reply: Result<Receipt, StoreCode>)
    requires move.Answered? && digest(intent.request) == Some(intent.digest)
    requires var seen := Settle(w, move.before + [intent.request]);
             match Lookup(digest, seen, intent.request.appendID, intent.digest)
             case Committed(receipt) => reply == Ok(receipt)
             case IdentityMismatch => reply == Err(AppendIdentityMismatch)
             case NotFound =>
               reply == Err(VersionConflict) &&
               |seen.Stream(intent.request.sessionID)| != intent.request.expectedVersion
    ensures var after := Settle(w, Transactions(intent.request, move));
            && (reply.Ok? && ValidReceipt(intent, reply.value) ==> Witnessed(digest, after, intent, reply.value))
            && (reply == Err(AppendIdentityMismatch) ==> Usurped(digest, after, intent))
            && (reply == Err(VersionConflict) && |w.Stream(intent.request.sessionID)| >= intent.request.expectedVersion
                ==> Unwritten(after, intent.request))
  {
    var q := intent.request;
    var seen := Settle(w, move.before + [q]);
    SettleSplits(w, move.before + [q], move.after);
    RunOnlyGrows(w, move.before + [q], q.sessionID, q.appendID);
    RunOnlyGrows(seen, move.after, q.sessionID, q.appendID);
    if reply == Err(VersionConflict) && |w.Stream(q.sessionID)| >= q.expectedVersion {
      ConflictIsFinal(seen, move.after, q);
    }
  }

  /** Whether one call settled the matter. */
  datatype Verdict = Done(result: Result<Receipt, AppError>) | Again | Missing

  function JudgeLookup(intent: Intent, reply: Result<Resolution, StoreCode>, canceled: bool,
                       canceledLater: bool): Verdict
  {
    match reply
    case Err(code) =>
      if Uncertain(code) then Again
      else Done(Err(if canceled then OutcomeUnknown else MapStoreError(canceledLater, code, false)))
    case Ok(Committed(receipt)) => Done(if ValidReceipt(intent, receipt) then Ok(receipt) else Err(ContractViolation))
    case Ok(IdentityMismatch) => Done(Err(Conflict(AppendIdentityMismatch)))
    case Ok(NotFound) => Missing
  }

  function JudgeAppend(intent: Intent, reply: Result<Receipt, StoreCode>, canceled: bool, canceledLater: bool): Verdict
  {
    match reply
    case Ok(receipt) => Done(if ValidReceipt(intent, receipt) then Ok(receipt) else Err(ContractViolation))
    case Err(code) =>
      if Uncertain(code) then Again
      else if code.AppendIdentityMismatch? then Done(Err(Conflict(AppendIdentityMismatch)))
      else Done(Err(if canceled then OutcomeUnknown else MapStoreError(canceledLater, code, true)))
  }

  ghost predicate Reached(w: World, q: AppendRequest) {
    |w.Stream(q.sessionID)| >= q.expectedVersion
  }

  /** Ask the store what it holds under the intent's identity. */
  method LookUp(store: EventStore, intent: Intent, move: Move, canceled: bool, canceledLater: bool) returns (v: Verdict)
    requires store.digest(intent.request) == Some(intent.digest)
    modifies store
    ensures store.calls == old(store.calls) + 1 && store.world == Settle(old(store.world), move.before + move.after)
    ensures v.Done? ==> Tells(store.digest, store.world, intent, v.result, true)
    ensures move.Answered? ==>
              v == JudgeLookup(intent, Ok(Lookup(store.digest, Settle(old(store.world), move.before),
                                                 intent.request.appendID, intent.digest)), canceled, canceledLater)
  {
    var reply := store.ResolveAppend(intent.request.appendID, intent.digest, move);
    v := JudgeLookup(intent, reply, canceled, canceledLater);
    if reply.Ok? {
      ghost var seen := Settle(old(store.world), move.before);
      SettleSplits(old(store.world), move.before, move.after);
      RunOnlyGrows(seen, move.after, "", intent.request.appendID);
    }
  }

  /** Send the same request again. */
  method Resend(store: EventStore, intent: Intent, move: Move, canceled: bool, canceledLater: bool) returns (v: Verdict)
    requires store.digest(intent.request) == Some(intent.digest)
    modifies store
    ensures store.calls == old(store.calls) + 1
            && store.world == Settle(old(store.world), Transactions(intent.request, move))
    ensures v.Done? ==> Tells(store.digest, store.world, intent, v.result, Reached(old(store.world), intent.request))
    ensures !v.Missing?
    ensures move.Answered? && !canceled ==> v.Done? && v.result != Err(OutcomeUnknown)
  {
    var reply := store.Append(intent.request, move);
    v := JudgeAppend(intent, reply, canceled, canceledLater);
    if move.Answered? {
      AnswerTells(store.digest, old(store.world), intent, move, reply);
    }
  }

  /** Retry until the store says what became of the intent, with a bounded number of calls. `moves`
      is the environment's part in each call and `canceled` the caller's context at each look;
      `run` is every transaction that took place meanwhile. */
  method ResolveAppendIntent(store: EventStore, intent: Intent, maxOperations: nat, moves: nat -> Move,
                             canceled: nat -> bool)
    returns (r: Result<Receipt, AppError>, ghost run: seq<AppendRequest>)
    modifies store
    ensures store.world == Settle(old(store.world), run)
    ensures store.calls <= old(store.calls) + (if maxOperations == 0 then DEFAULT_MAX_OPERATIONS else maxOperations)
    ensures Tells(store.digest, store.world, intent, r, Reached(old(store.world), intent.request))
    ensures r == Err(OutcomeUnknown) && maxOperations != 1 && moves(0).Answered? && moves(1).Answered? ==>
              exists n: nat :: canceled(n)
    ensures !canceled(0) && !canceled(1) && moves(0).Answered?
            && store.digest(intent.request) == Some(intent.digest) ==>
              match JudgeLookup(intent, Ok(Lookup(store.digest, Settle(old(store.world), moves(0).before),
                                                  intent.request.appendID, intent.digest)), false, false)
              { case Done(result) => r == result case _ => true }
  {
    run := [];
    if canceled(0) {
      return Err(OutcomeUnknown), run;
    }
    if store.digest(intent.request) != Some(intent.digest) {
      return Err(ContractViolation), run;
    }
    var limit := if maxOperations == 0 then DEFAULT_MAX_OPERATIONS else maxOperations;
    var operations: nat := 0;
    while operations < limit
      invariant store.calls == old(store.calls) + operations && operations <= limit
      invariant store.world == Settle(old(store.world), run)
      invariant operations > 0 && moves(0).Answered? ==>
                  Lookup(store.digest, Settle(old(store.world), moves(0).before), intent.request.appendID,
                         intent.digest) == NotFound
      invariant operations == 0 ==> run == []
      invariant maxOperations != 1 && moves(0).Answered? && moves(1).Answered? && operations > 0 ==>
                  exists n: nat :: canceled(n)
    {
      if canceled(3 * operations + 1) {
        return Err(OutcomeUnknown), run;
      }
      var v := LookUp(store, intent, moves(operations), canceled(3 * operations + 2), canceled(3 * operations + 3));
      run := Extend(old(store.world), run, moves(operations).before + moves(operations).after);
      operations := operations + 1;
      if v.Missing? {
        if operations >= limit || canceled(3 * operations + 1) {
          return Err(OutcomeUnknown), run;
        }
        RunOnlyGrows(old(store.world), run, intent.request.sessionID, "");
        v := Resend(store, intent, moves(operations), canceled(3 * operations + 2), canceled(3 * operations + 3));
        run := Extend(old(store.world), run, Transactions(intent.request, moves(operations)));
        operations := operations + 1;
      }
      if v.Done? {
        return v.result, run;
      }
    }
    r := Err(OutcomeUnknown);
  }

  /** The whole history of a run after `more` transactions. */
  ghost method Extend(w: World, run: seq<AppendRequest>, more: seq<AppendRequest>) returns (longer: seq<AppendRequest>)
    ensures longer == run + more && Settle(w, longer) == Settle(Settle(w, run), more)
  {
    SettleSplits(w, run, more);
    longer := run + more;
  }

  /** The aggregate after a committed intent: the fold over the records its batch became. */
  function AfterCommit(state: State, intent: Intent, receipt: Receipt): Result<(State, seq<Record>), AppError> {
    if !ValidReceipt(intent, receipt) then Err(ContractViolation)
    else match ReplayFrom(state, RecordsOf(intent.request))
      case Err(_) => Err(ContractViolation)
      case Ok(next) => Ok((next, RecordsOf(intent.request)))
  }

  method ApplyCommittedIntent(state: State, intent: Intent, receipt: Receipt)
    returns (r: Result<(State, seq<Record>), AppError>)
    ensures r == AfterCommit(state, intent, receipt)
  {
    if !ValidReceipt(intent, receipt) {
      return Err(ContractViolation);
    }
    var q := intent.request;
    var records: seq<Record> := [];
    var next := state;
    for i := 0 to |q.events|
      invariant records == RecordsOf(q)[..i]
      invariant ReplayFrom(state, RecordsOf(q)) == ReplayFrom(next, RecordsOf(q)[i..])
    {
      var e := q.events[i];
      var record := Record(e.id, q.commandID, q.sessionID, receipt.first + i, e.occurredAt, e.event, e.metadata,
                           e.turnParses, e.itemParses, e.payload);
      NextRecord(q, i, record, next);
      var applied := Apply(next, record);
      if applied.Err? {
        return Err(ContractViolation);
      }
      next, records := applied.value, records + [record];
    }
    assert RecordsOf(q)[..|q.events|] == RecordsOf(q);
    r := Ok((next, records));
  }

  lemma NextRecord(q: AppendRequest, i: nat, record: Record, state: State)
    requires i < |q.events| && record == RecordAt(q, i)
    ensures RecordsOf(q)[..i + 1] == RecordsOf(q)[..i] + [record]
    ensures ReplayFrom(state, RecordsOf(q)[i..]) ==
            match Apply(state, record) { case Err(code) => Err(code)
                                        case Ok(next) => ReplayFrom(next, RecordsOf(q)[i + 1..]) }
  {
    assert RecordsOf(q)[i..][1..] == RecordsOf(q)[i + 1..];
  }

  /** What a finished append says: success means the fold over a witnessed commit, and an error
      tells no more than its kind allows. */
  predicate Concludes(digest: Digester, w: World, state: State, intent: Intent, receipt: Receipt,
                      r: Result<(State, seq<Record>), AppError>, reached: bool)
  {
    match r
    case Ok(_) => r == AfterCommit(state, intent, receipt) && Witnessed(digest, w, intent, receipt)
    case Err(e) => Tells(digest, w, intent, Err(e), reached)
  }

  /** What an answered attempt comes to, by what the store then holds. */
  function AnsweredOutcome(state: State, intent: Intent, found: Resolution): Result<(State, seq<Record>), AppError> {
    match found
    case Committed(receipt) => AfterCommit(state, intent, receipt)
    case IdentityMismatch => Err(Conflict(AppendIdentityMismatch))
    case NotFound => Err(Conflict(VersionConflict))
  }

  /** One attempt to commit; `receipt` is the store's answer, if it gave one. */
  method CommitAppendIntent(store: EventStore, state: State, intent: Intent, move: Move, canceled: bool,
                            canceledLater: bool)
    returns (r: Result<(State, seq<Record>), AppError>, receipt: Receipt, ghost run: seq<AppendRequest>)
    modifies store
    ensures store.calls <= old(store.calls) + 1 && store.world == Settle(old(store.world), run)
    ensures Concludes(store.digest, store.world, state, intent, receipt, r, Reached(old(store.world), intent.request))
    ensures !canceled && !canceledLater && move.Answered? && store.digest(intent.request) == Some(intent.digest) ==>
              r == AnsweredOutcome(state, intent,
                                   Lookup(store.digest, Settle(old(store.world), move.before + [intent.request]),
                                          intent.request.appendID, intent.digest))
    ensures r == Err(OutcomeUnknown) ==> move.Lost? && !move.unavailable
  {
    receipt, run := Receipt("", 0, 0, 0), [];
    if canceled {
      return Err(Canceled), receipt, run;
    }
    if store.digest(intent.request) != Some(intent.digest) {
      return Err(ContractViolation), receipt, run;
    }
    var reply := store.Append(intent.request, move);
    run := Transactions(intent.request, move);
    if move.Answered? {
      AnswerTells(store.digest, old(store.world), intent, move, reply);
    }
    match reply
    case Err(code) => r := Err(MapStoreError(canceledLater, code, true));
    case Ok(answer) =>
      receipt := answer;
      r := ApplyCommittedIntent(state, intent, answer);
  }

  /** Commit, resolve a lost outcome, and advance the aggregate. */
  method CommitThenResolve(store: EventStore, state: State, intent: Intent, maxOperations: nat, moves: nat -> Move,
                           canceled: nat -> bool)
    returns (r: Result<(State, seq<Record>), AppError>, receipt: Receipt, ghost run: seq<AppendRequest>)
    modifies store
    ensures store.world == Settle(old(store.world), run)
    ensures store.calls <= old(store.calls) + 1 + (if maxOperations == 0 then DEFAULT_MAX_OPERATIONS else maxOperations)
    ensures Concludes(store.digest, store.world, state, intent, receipt, r, Reached(old(store.world), intent.request))
  {
    r, receipt, run := CommitAppendIntent(store, state, intent, moves(0), canceled(0), canceled(1));
    if r != Err(OutcomeUnknown) {
      return;
    }
    RunOnlyGrows(old(store.world), run, intent.request.sessionID, "");
    ghost var more;
    var outcome;
    outcome, more := ResolveAppendIntent(store, intent, maxOperations, (n: nat) => moves(n + 1),
                                         (n: nat) => canceled(n + 2));
    run := Extend(old(store.world), run, more);
    match outcome
    case Err(e) => r := Err(e);
    case Ok(answer) =>
      receipt := answer;
      r := ApplyCommittedIntent(state, intent, answer);
  }

  /** Digests that identify the content of a request; identifiers of appends are not part of it. */
  ghost predicate Identifies(digest: Digester, q: AppendRequest) {
    forall p :: digest(p).Some? && digest(p) == digest(q) ==> p.(appendID := q.appendID) == q
  }

  /** Every position of every stream that carries the append lies in the receipt's range. */
  ghost predicate OnlyAt(w: World, id: string, sessionID: string, receipt: Receipt) {
    forall s, i :: 0 <= i < |w.Stream(s)| && w.Stream(s)[i].appendID == id ==>
      s == sessionID && receipt.first <= i + 1 <= receipt.last
  }

  /** The receipt's range of the stream holds exactly the records of the request. */
  ghost predicate StandsAt(w: World, q: AppendRequest, receipt: Receipt) {
    && receipt.first == q.expectedVersion + 1 && receipt.last == q.Last() <= |w.Stream(q.sessionID)|
    && forall i :: 0 <= i < |q.events| ==>
         w.Stream(q.sessionID)[q.expectedVersion + i] == Stored(q.appendID, RecordAt(q, i))
  }

  lemma CommitStands(w: World, id: string)
    requires Valid(w) && id in w.commits
    ensures var c := w.commits[id];
            OnlyAt(w, id, c.request.sessionID, c.ToReceipt()) && StandsAt(w, c.request, c.ToReceipt())
              && c.request.appendID == id
  {
    CommittedExactlyOnce(w, id);
    assert Holds(w, id);
  }

  /** Exactly-once append. Whatever transactions ran since, once a receipt was returned the batch of
      that append stands in exactly one place of exactly one stream, at the sequences the receipt
      names; and if the digest identifies requests, it is the intent's own records that stand there. */
  lemma ReceiptMeansExactlyOnce(digest: Digester, start: World, run: seq<AppendRequest>, later: seq<AppendRequest>,
                                intent: Intent, receipt: Receipt)
    requires Valid(start) && Witnessed(digest, Settle(start, run), intent, receipt)
    requires digest(intent.request) == Some(intent.digest)
    ensures var w := Settle(start, run + later);
            var id := intent.request.appendID;
            && Witnessed(digest, w, intent, receipt)
            && OnlyAt(w, id, w.commits[id].request.sessionID, receipt) && StandsAt(w, w.commits[id].request, receipt)
            && (Identifies(digest, intent.request) ==> w.commits[id].request == intent.request)
  {
    SettleSplits(start, run, later);
    RunKeepsValid(start, run + later);
    TellsPersists(digest, Settle(start, run), later, intent, receipt);
    CommitStands(Settle(start, run + later), intent.request.appendID);
  }

  function Records(stream: seq<Stored>): (records: seq<Record>)
    ensures |records| == |stream|
    ensures forall i :: 0 <= i < |stream| ==> records[i] == stream[i].record
  {
    seq(|stream|, i requires 0 <= i < |stream| => stream[i].record)
  }

  /** Every stream of a reachable store is a whole log, numbered from 1. */
  lemma StreamIsContiguous(w: World, s: string)
    requires Valid(w)
    ensures Contiguous(Records(w.Stream(s)))
  {
    forall i | 0 <= i < |w.Stream(s)|
      ensures Records(w.Stream(s))[i].sequence == i + 1
    {
      StreamsAreNumbered(w, s, i);
    }
  }

  /** The returned state is the replay of the stream itself up to the committed batch. */
  lemma StateFollowsStream(w: World, intent: Intent, receipt: Receipt, state: State)
    requires StandsAt(w, intent.request, receipt) && AfterCommit(state, intent, receipt).Ok?
    requires Replay(Records(w.Stream(intent.request.sessionID))[..intent.request.expectedVersion]) == Ok(state)
    ensures Replay(Records(w.Stream(intent.request.sessionID))[..receipt.last]) ==
              Ok(AfterCommit(state, intent, receipt).value.0)
  {
    var q := intent.request;
    var all := Records(w.Stream(q.sessionID));
    var before, batch := all[..q.expectedVersion], RecordsOf(q);
    assert all[..receipt.last] == before + batch by {
      forall i | 0 <= i < |batch|
        ensures all[q.expectedVersion + i] == batch[i]
      {
        assert w.Stream(q.sessionID)[q.expectedVersion + i] == Stored(q.appendID, RecordAt(q, i));
      }
    }
    ReplaySplits(PRISTINE, before, batch);
  }
}
