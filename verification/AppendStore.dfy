/** The event store behind the append port, as a step system.

    A store commits a batch atomically when the expected version is the stream's head, answers
    an exact retry with the receipt of the first commit, and may lose its answer. Any number of
    other writers, and late attempts of our own, may commit before and after every call. */
module AppendStore {
  import opened Domain

  datatype ProposedEvent = ProposedEvent(
    id: string, occurredAt: int, event: Event, metadata: Check,
    turnParses: bool, itemParses: bool, payload: Check)

  datatype CommandAdmission = CommandAdmission(requestID: string, requestDigest: string, turnID: string, itemID: string)

  datatype AppendRequest = AppendRequest(
    appendID: string,
    sessionID: string,
    expectedVersion: nat,
    commandID: string,
    admission: Option<CommandAdmission>,
    events: seq<ProposedEvent>)
  {
    function Last(): nat {
      expectedVersion + |events|
    }
  }

  datatype Receipt = Receipt(appendID: string, position: nat, first: nat, last: nat)

  function RecordAt(q: AppendRequest, i: nat): Record
    requires i < |q.events|
  {
    var e := q.events[i];
    Record(e.id, q.commandID, q.sessionID, q.expectedVersion + 1 + i, e.occurredAt, e.event, e.metadata,
           e.turnParses, e.itemParses, e.payload)
  }

  /** The records a batch becomes. */
  function RecordsOf(q: AppendRequest): (records: seq<Record>)
    ensures |records| == |q.events|
    ensures forall i :: 0 <= i < |records| ==> records[i] == RecordAt(q, i)
  {
    seq(|q.events|, i requires 0 <= i < |q.events| => RecordAt(q, i))
  }

  // ------------------------------------------------------------ the store's state

  /** A stored record and the append that wrote it. */
  datatype Stored = Stored(appendID: string, record: Record)

  datatype Commit = Commit(request: AppendRequest, position: nat)
  {
    function ToReceipt(): Receipt {
      Receipt(request.appendID, position, request.expectedVersion + 1, request.Last())
    }
  }

  datatype World = World(streams: map<string, seq<Stored>>, commits: map<string, Commit>)
  {
    function Stream(sessionID: string): seq<Stored> {
      if sessionID in streams then streams[sessionID] else []
    }
  }

  const NOTHING := World(map[], map[])

  function Batch(q: AppendRequest): (batch: seq<Stored>)
    ensures |batch| == |q.events|
    ensures forall i :: 0 <= i < |batch| ==> batch[i] == Stored(q.appendID, RecordAt(q, i))
  {
    seq(|q.events|, i requires 0 <= i < |q.events| => Stored(q.appendID, RecordAt(q, i)))
  }

  predicate CanCommit(w: World, q: AppendRequest) {
    q.appendID !in w.commits && |w.Stream(q.sessionID)| == q.expectedVersion
  }

  /** One transaction: all of the batch at the head of its stream, or nothing. */
  function TryCommit(w: World, q: AppendRequest): World {
    if CanCommit(w, q) then
      World(w.streams[q.sessionID := w.Stream(q.sessionID) + Batch(q)],
            w.commits[q.appendID := Commit(q, |w.commits| + 1)])
    else w
  }

  /** Any run of transactions. */
  function Settle(w: World, requests: seq<AppendRequest>): World
    decreases |requests|
  {
    if requests == [] then w else Settle(TryCommit(w, requests[0]), requests[1..])
  }

  lemma {:induction false} SettleSplits(w: World, a: seq<AppendRequest>, b: seq<AppendRequest>)
    ensures Settle(w, a + b) == Settle(Settle(w, a), b)
    decreases |a|
  {
    if a == [] {
      assert a + b == b;
    } else {
      assert (a + b)[1..] == a[1..] + b;
      SettleSplits(TryCommit(w, a[0]), a[1..], b);
    }
  }

  // ------------------------------------------------------------ what every run keeps

  /** A commit stands in its stream, whole and at its own range. */
  predicate Holds(w: World, id: string)
    requires id in w.commits
  {
    var q := w.commits[id].request;
    && q.appendID == id && w.commits[id].position > 0
    && q.Last() <= |w.Stream(q.sessionID)|
    && w.Stream(q.sessionID)[q.expectedVersion..q.Last()] == Batch(q)
  }

  /** A stored record belongs to a commit whose range contains it. */
  predicate Traced(w: World, sessionID: string, stored: Stored, i: nat) {
    && stored.appendID in w.commits
    && var q := w.commits[stored.appendID].request;
       q.sessionID == sessionID && q.expectedVersion <= i < q.Last()
  }

  ghost predicate AllTraced(w: World, sessionID: string) {
    var stream := w.Stream(sessionID);
    forall i :: 0 <= i < |stream| ==> Traced(w, sessionID, stream[i], i)
  }

  ghost predicate Valid(w: World) {
    && (forall id :: id in w.commits ==> Holds(w, id))
    && (forall s :: s in w.streams ==> AllTraced(w, s))
  }

  lemma CommitKeepsHeld(w: World, q: AppendRequest, id: string)
    requires CanCommit(w, q) && id in w.commits && Holds(w, id)
    ensures Holds(TryCommit(w, q), id)
  {
    var p := w.commits[id].request;
    var old', new' := w.Stream(p.sessionID), TryCommit(w, q).Stream(p.sessionID);
    assert old' <= new';
    assert new'[p.expectedVersion..p.Last()] == old'[p.expectedVersion..p.Last()];
  }

  lemma CommitHolds(w: World, q: AppendRequest)
    requires CanCommit(w, q)
    ensures Holds(TryCommit(w, q), q.appendID)
  {
    var stream := TryCommit(w, q).Stream(q.sessionID);
    assert stream == w.Stream(q.sessionID) + Batch(q);
    assert stream[q.expectedVersion..q.Last()] == Batch(q);
  }

  lemma CommitKeepsTraced(w: World, q: AppendRequest, s: string)
    requires CanCommit(w, q) && AllTraced(w, s)
    ensures AllTraced(TryCommit(w, q), s)
  {
    var next := TryCommit(w, q);
    var old', new' := w.Stream(s), next.Stream(s);
    forall i | 0 <= i < |new'|
      ensures Traced(next, s, new'[i], i)
    {
      if i < |old'| {
        assert new'[i] == old'[i] && Traced(w, s, old'[i], i);
      } else {
        assert s == q.sessionID && new'[i] == Batch(q)[i - |old'|];
      }
    }
  }

  lemma CommitKeepsValid(w: World, q: AppendRequest)
    requires Valid(w)
    ensures Valid(TryCommit(w, q))
  {
    if CanCommit(w, q) {
      var next := TryCommit(w, q);
      CommitHolds(w, q);
      forall id | id in next.commits
        ensures Holds(next, id)
      {
        if id != q.appendID {
          CommitKeepsHeld(w, q, id);
        }
      }
      forall s | s in next.streams
        ensures AllTraced(next, s)
      {
        CommitKeepsTraced(w, q, s);
      }
    }
  }

  lemma {:induction false} RunKeepsValid(w: World, requests: seq<AppendRequest>)
    requires Valid(w)
    ensures Valid(Settle(w, requests))
    decreases |requests|
  {
    if requests != [] {
      CommitKeepsValid(w, requests[0]);
      RunKeepsValid(TryCommit(w, requests[0]), requests[1..]);
    }
  }

  /** Streams only grow at their end and a commit is never undone or replaced. */
  lemma {:induction false} RunOnlyGrows(w: World, requests: seq<AppendRequest>, sessionID: string, id: string)
    ensures w.Stream(sessionID) <= Settle(w, requests).Stream(sessionID)
    ensures id in w.commits ==> id in Settle(w, requests).commits && Settle(w, requests).commits[id] == w.commits[id]
    decreases |requests|
  {
    if requests != [] {
      RunOnlyGrows(TryCommit(w, requests[0]), requests[1..], sessionID, id);
    }
  }

  /** In every reachable store a committed batch occurs exactly once: the stream holds its records,
      in order, at the range its receipt names, and no other position of any stream is its. */
  lemma CommittedExactlyOnce(w: World, id: string)
    requires Valid(w) && id in w.commits
    ensures var q := w.commits[id].request;
            && q.Last() <= |w.Stream(q.sessionID)|
            && (forall i :: 0 <= i < |q.events| ==>
                w.Stream(q.sessionID)[q.expectedVersion + i] == Stored(id, RecordAt(q, i)))
            && (forall s, i :: 0 <= i < |w.Stream(s)| && w.Stream(s)[i].appendID == id ==>
                s == q.sessionID && q.expectedVersion <= i < q.Last())
  {
    var q := w.commits[id].request;
    var stream := w.Stream(q.sessionID);
    assert Holds(w, id);
    forall i | 0 <= i < |q.events|
      ensures stream[q.expectedVersion + i] == Stored(id, RecordAt(q, i))
    {
      assert stream[q.expectedVersion..q.Last()][i] == Batch(q)[i];
    }
    forall s, i | 0 <= i < |w.Stream(s)| && w.Stream(s)[i].appendID == id
      ensures s == q.sessionID && q.expectedVersion <= i < q.Last()
    {
      assert AllTraced(w, s) && Traced(w, s, w.Stream(s)[i], i);
    }
  }

  /** Every stream of a reachable store is numbered 1, 2, ... */
  lemma StreamsAreNumbered(w: World, s: string, i: nat)
    requires Valid(w) && i < |w.Stream(s)|
    ensures w.Stream(s)[i].record.sequence == i + 1
  {
    assert AllTraced(w, s) && Traced(w, s, w.Stream(s)[i], i);
    HeldAreNumbered(w, w.Stream(s)[i].appendID, i);
  }

  lemma HeldAreNumbered(w: World, id: string, i: nat)
    requires id in w.commits && Holds(w, id)
    requires w.commits[id].request.expectedVersion <= i < w.commits[id].request.Last()
    ensures w.Stream(w.commits[id].request.sessionID)[i].record.sequence == i + 1
  {
    var q := w.commits[id].request;
    assert w.Stream(q.sessionID)[q.expectedVersion..q.Last()][i - q.expectedVersion] == Batch(q)[i - q.expectedVersion];
  }

  /** A batch that was refused because its stream had moved on is never committed afterwards,
      whatever anyone does. */
  lemma {:induction false} ConflictIsFinal(w: World, requests: seq<AppendRequest>, q: AppendRequest)
    requires |w.Stream(q.sessionID)| > q.expectedVersion
    requires q.appendID in w.commits ==> w.commits[q.appendID].request != q
    ensures q.appendID in Settle(w, requests).commits ==> Settle(w, requests).commits[q.appendID].request != q
    decreases |requests|
  {
    if requests != [] {
      ConflictIsFinal(TryCommit(w, requests[0]), requests[1..], q);
    }
  }

  // ------------------------------------------------------------ calls

  datatype StoreCode =
    | Unavailable | CommitOutcomeUnknown | VersionConflict | AppendIdentityMismatch
    | CommandIdentityMismatch | CommandRequestConflict | DomainIdentityConflict | Corrupt | OtherCode

  predicate Uncertain(code: StoreCode) {
    code.Unavailable? || code.CommitOutcomeUnknown?
  }

  /** Definite refusals on grounds outside this model; nothing of the batch was written. */
  datatype Refusal = OnCommandIdentity | OnCommandRequest | OnDomainIdentity | OnCorruption | OnOtherGrounds
  {
    function Code(): StoreCode {
      match this
      case OnCommandIdentity => CommandIdentityMismatch
      case OnCommandRequest => CommandRequestConflict
      case OnDomainIdentity => DomainIdentityConflict
      case OnCorruption => Corrupt
      case OnOtherGrounds => OtherCode
    }
  }

  /** How the environment treats one call: whose transactions run around it, and whether its own
      transaction runs and its answer arrives. */
  datatype Move =
    | Answered(before: seq<AppendRequest>, after: seq<AppendRequest>)
    | Lost(before: seq<AppendRequest>, ran: bool, unavailable: bool, after: seq<AppendRequest>)
    | Refused(before: seq<AppendRequest>, refusal: Refusal, after: seq<AppendRequest>)
  {
    function LossCode(): StoreCode
      requires Lost?
    {
      if unavailable then Unavailable else CommitOutcomeUnknown
    }
  }

  /** The transactions one append call lets happen, in order. */
  function Transactions(q: AppendRequest, move: Move): seq<AppendRequest> {
    match move
    case Answered(before, after) => before + [q] + after
    case Lost(before, ran, _, after) => before + (if ran then [q] else []) + after
    case Refused(before, _, after) => before + after
  }

  datatype Resolution = Committed(receipt: Receipt) | NotFound | IdentityMismatch

  type Digester = AppendRequest -> Option<string>

  /** What the store knows under an append identifier and a request digest. */
  function Lookup(digest: Digester, w: World, id: string, requestDigest: string): Resolution {
    if id !in w.commits then NotFound
    else if digest(w.commits[id].request) == Some(requestDigest) then Committed(w.commits[id].ToReceipt())
    else IdentityMismatch
  }

  /** The store as an object; `digest` is its own computation of a request's identity. */
  class EventStore {
    const digest: Digester
    var world: World
    var calls: nat

    constructor (digest: Digester)
      ensures world == NOTHING && calls == 0 && this.digest == digest
    {
      this.digest := digest;
      world, calls := NOTHING, 0;
    }

    method Run(requests: seq<AppendRequest>)
      modifies this`world
      ensures world == Settle(old(world), requests)
    {
      for i := 0 to |requests|
        invariant Settle(world, requests[i..]) == Settle(old(world), requests)
      {
        assert requests[i..][1..] == requests[i + 1..];
        world := TryCommit(world, requests[i]);
      }
    }

    /** Commit a batch, or return the receipt of the commit it repeats. A receipt or an identity
        mismatch reports what the store holds; a version conflict that the stream has moved on. */
    method Append(q: AppendRequest, move: Move) returns (reply: Result<Receipt, StoreCode>)
      modifies this`world, this`calls
      ensures calls == old(calls) + 1
      ensures world == Settle(old(world), Transactions(q, move))
      ensures move.Lost? ==> reply == Err(move.LossCode())
      ensures move.Refused? ==> reply == Err(move.refusal.Code())
      ensures move.Answered? ==>
                var seen := Settle(old(world), move.before + [q]);
                match Lookup(digest, seen, q.appendID, if digest(q).Some? then digest(q).value else "") {
                  case Committed(receipt) => reply == Ok(receipt)
                  case IdentityMismatch => reply == Err(AppendIdentityMismatch)
                  case NotFound => reply == Err(VersionConflict) && |seen.Stream(q.sessionID)| != q.expectedVersion
                }
    {
      calls := calls + 1;
      Run(move.before);
      match move
      case Lost(before, ran, unavailable, after) =>
        reply := Err(move.LossCode());
        SettleSplits(old(world), before, if ran then [q] else []);
        SettleSplits(old(world), before + (if ran then [q] else []), after);
        if ran {
          assert Settle(world, [q]) == TryCommit(world, q);
          world := TryCommit(world, q);
        }
        Run(after);
      case Refused(before, refusal, after) =>
        reply := Err(refusal.Code());
        SettleSplits(old(world), before, after);
        Run(after);
      case Answered(before, after) =>
        SettleSplits(old(world), before, [q]);
        SettleSplits(old(world), before + [q], after);
        assert Settle(world, [q]) == TryCommit(world, q);
        world := TryCommit(world, q);
        match Lookup(digest, world, q.appendID, if digest(q).Some? then digest(q).value else "") {
          case Committed(receipt) => reply := Ok(receipt);
          case IdentityMismatch => reply := Err(AppendIdentityMismatch);
          case NotFound => reply := Err(VersionConflict);
        }
        Run(after);
    }

    /** Look an append up by identifier and digest. */
    method ResolveAppend(id: string, requestDigest: string, move: Move) returns (reply: Result<Resolution, StoreCode>)
      modifies this`world, this`calls
      ensures calls == old(calls) + 1
      ensures world == Settle(old(world), move.before + move.after)
      ensures move.Lost? ==> reply == Err(move.LossCode())
      ensures move.Refused? ==> reply == Err(move.refusal.Code())
      ensures move.Answered? ==> reply == Ok(Lookup(digest, Settle(old(world), move.before), id, requestDigest))
    {
      calls := calls + 1;
      Run(move.before);
      SettleSplits(old(world), move.before, move.after);
      match move {
        case Lost(_, _, _, _) => reply := Err(move.LossCode());
        case Refused(_, refusal, _) => reply := Err(refusal.Code());
        case Answered(_, _) => reply := Ok(Lookup(digest, world, id, requestDigest));
      }
      Run(move.after);
    }
  }
}
