/** Loading the latest checkpoint of a session from its stream, with its digest checked anew. */
module CheckpointStore {
  import opened Domain
  import opened Projector
  import opened SourceDigest
  import opened Materialize
  import Durable = CheckpointRecord

  /** What the checkpoint store answers for a session. */
  datatype Lookup = NoCheckpoint | LookupFailed | Stored(record: CheckpointRecord)

  /** The checkpoint of the latest completed compaction. */
  function LatestCompleted(log: seq<Record>): Option<CheckpointRecord> {
    if log == [] then None
    else
      var event := log[|log| - 1].event;
      if event.ContextCompactionCompleted? then Some(event.checkpoint) else LatestCompleted(log[..|log| - 1])
  }

  /** The leading records up to a sequence. */
  function Leading(log: seq<Record>, through: nat): seq<Record> {
    if log == [] || log[0].sequence > through then [] else [log[0]] + Leading(log[1..], through)
  }

  /** A record's digest is that of the source events it claims to cover. */
  predicate Verified(hash: HashStep, seed: Digest, log: seq<Record>, r: CheckpointRecord) {
    var chain := ChainOver(hash, Chain(seed, 0), Leading(log, r.throughSequence));
    chain.Some? && Durable.HexEncode(chain.value.digest) == r.sourceDigestHex
  }

  function LookupIn(hash: HashStep, seed: Digest, log: seq<Record>): Lookup {
    match LatestCompleted(log)
    case None => NoCheckpoint
    case Some(r) => if Verified(hash, seed, log, r) then Stored(r) else LookupFailed
  }

  /** Scan the stream for the latest completion, then digest what its checkpoint covers. */
  method LoadLatest(hash: HashStep, seed: Digest, log: seq<Record>) returns (r: Lookup)
    ensures r == LookupIn(hash, seed, log)
  {
    var latest: Option<CheckpointRecord> := None;
    for i := 0 to |log|
      invariant latest == LatestCompleted(log[..i])
    {
      assert log[..i + 1][..i] == log[..i];
      if log[i].event.ContextCompactionCompleted? {
        latest := Some(log[i].event.checkpoint);
      }
    }
    assert log[..|log|] == log;
    if latest.None? {
      return NoCheckpoint;
    }
    var covered, whole := TakeThrough(log, latest.value.throughSequence);
    TakenIsLeading(log, |covered|, latest.value.throughSequence);
    assert covered == log[..|covered|];
    var chain := ExtendSourceDigestOverRecords(hash, seed, covered);
    if chain.None? || Durable.HexEncode(chain.value.digest) != latest.value.sourceDigestHex {
      return LookupFailed;
    }
    r := Stored(latest.value);
  }

  lemma {:induction false} TakenIsLeading(log: seq<Record>, n: nat, through: nat)
    requires n <= |log| && forall i :: 0 <= i < n ==> log[i].sequence <= through
    requires n < |log| ==> log[n].sequence > through
    ensures log[..n] == Leading(log, through)
  {
    if n > 0 {
      TakenIsLeading(log[1..], n - 1, through);
      assert log[..n] == [log[0]] + log[1..][..n - 1];
    }
  }

  /** A later completion is the latest; other records change nothing. */
  lemma {:induction false} LatestAfter(log: seq<Record>, more: seq<Record>)
    ensures LatestCompleted(log + more) ==
            if LatestCompleted(more).Some? then LatestCompleted(more) else LatestCompleted(log)
    decreases |more|
  {
    if more == [] {
      assert log + more == log;
    } else {
      LatestAfter(log, more[..|more| - 1]);
      assert (log + more)[..|log + more| - 1] == log + more[..|more| - 1];
    }
  }

  // ------------------------------------------------------------ digests that match stay matching

  /** The digest of a coverage is that of the source events up to its boundary. */
  predicate Matches(hash: HashStep, seed: Digest, log: seq<Record>, c: Coverage) {
    && c.through <= |log|
    && var chain := ChainOver(hash, Chain(seed, 0), log[..c.through]); chain.Some? && chain.value.digest == c.digest
  }

  /** Of a whole log the leading records up to a sequence within it are its beginning. */
  lemma LeadingOfWhole(log: seq<Record>, through: nat)
    requires Contiguous(log) && through <= |log|
    ensures Leading(log, through) == log[..through]
  {
    TakenIsLeading(log, through, through);
  }

  /** What the store verifies of a record within the log is that its digest matches, no more and no less. */
  lemma VerifiedIffMatches(hash: HashStep, seed: Digest, log: seq<Record>, c: Checkpoint)
    requires Contiguous(log) && c.coverage.through <= |log|
    ensures Verified(hash, seed, log, Durable.RecordFromCheckpoint(c)) <==> Matches(hash, seed, log, c.coverage)
  {
    var chain := ChainOver(hash, Chain(seed, 0), log[..c.coverage.through]);
    LeadingOfWhole(log, c.coverage.through);
    if chain.Some? {
      Durable.HexRoundTrip(chain.value.digest);
      Durable.HexRoundTrip(c.coverage.digest);
    }
  }

  /** A checkpoint built on one whose digest matches has a digest that matches, whatever the counts. */
  lemma BuiltMatches(hash: HashStep, seed: Digest, previous: Option<Coverage>, log: seq<Record>, k: nat, c: Coverage)
    requires BuiltOver(hash, seed, previous, log, k, c)
    requires previous.Some? ==> Matches(hash, seed, log, previous.value)
    ensures Matches(hash, seed, log, c)
  {
    var p, t := ResumeSequence(previous), c.through;
    var before := ChainOver(hash, Chain(seed, 0), log[..p]);
    assert p == 0 ==> log[..p] == [];
    assert log[..t] == log[..p] + log[p..t];
    ChainSplits(hash, Chain(seed, 0), log[..p], log[p..t]);
    CountShifts(hash, before.value, log[p..t]);
  }

  lemma GrownStillMatches(hash: HashStep, seed: Digest, log: seq<Record>, grown: seq<Record>, c: Coverage)
    requires log <= grown && Matches(hash, seed, log, c)
    ensures Matches(hash, seed, grown, c)
  {
    assert grown[..c.through] == log[..c.through];
  }

  /** Once completed, a checkpoint built on one whose digest matches is what the store returns, however the
      stream grows, until the next completion. */
  lemma CompletedIsLatest(hash: HashStep, seed: Digest, previous: Option<Coverage>, log: seq<Record>, k: nat,
                          c: Checkpoint, before: seq<Record>, completion: Record, after: seq<Record>)
    requires BuiltOver(hash, seed, previous, log, k, c.coverage) && log <= before
    requires previous.Some? ==> Matches(hash, seed, log, previous.value)
    requires Contiguous(before + [completion] + after) && LatestCompleted(after).None?
    requires completion.event.ContextCompactionCompleted?
    requires completion.event.checkpoint == Durable.RecordFromCheckpoint(c)
    ensures LookupIn(hash, seed, before + [completion] + after) == Stored(Durable.RecordFromCheckpoint(c))
  {
    var grown := before + [completion] + after;
    LatestAfter(before + [completion], after);
    assert LatestCompleted(before + [completion]) == Some(completion.event.checkpoint);
    BuiltMatches(hash, seed, previous, log, k, c.coverage);
    assert log <= grown;
    GrownStillMatches(hash, seed, log, grown, c.coverage);
    VerifiedIffMatches(hash, seed, grown, c);
  }
}
