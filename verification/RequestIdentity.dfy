/** What makes a digest identify an append request: the canonical framing is injective, so a hash that
    tells canonical bytes apart tells requests apart. */
module RequestIdentity {
  import opened Domain
  import opened AppendStore
  import opened AppendProtocol
  import opened Framing

  /** How texts and proposed events become bytes. */
  datatype Codec = Codec(text: string -> Bytes, event: ProposedEvent -> CanonicalEvent)

  /** Different texts and different events have different encodings. */
  ghost predicate Lossless(codec: Codec) {
    && (forall a, b :: codec.text(a) == codec.text(b) ==> a == b)
    && (forall a, b :: codec.event(a) == codec.event(b) ==> a == b)
    && (forall a :: codec.event(a).schemaVersion <= MAX_UINT64)
  }

  function CanonAdmission(codec: Codec, admission: Option<CommandAdmission>): Option<CanonicalAdmission> {
    match admission
    case None => None
    case Some(a) =>
      Some(CanonicalAdmission(codec.text(a.requestID), codec.text(a.requestDigest), codec.text(a.turnID),
                              codec.text(a.itemID)))
  }

  function CanonEvents(codec: Codec, events: seq<ProposedEvent>): (canon: seq<CanonicalEvent>)
    ensures |canon| == |events|
    ensures forall i :: 0 <= i < |events| ==> canon[i] == codec.event(events[i])
  {
    seq(|events|, i requires 0 <= i < |events| => codec.event(events[i]))
  }

  /** The encoded facts of a request. */
  function Canon(codec: Codec, q: AppendRequest): Canonical {
    Canonical(codec.text(q.sessionID), q.expectedVersion, codec.text(q.commandID), CanonAdmission(codec, q.admission),
              CanonEvents(codec, q.events))
  }

  /** The digest of a request: the hash of its canonical bytes, where there are any. */
  function DigestOf(codec: Codec, hash: Bytes -> string): Digester {
    (q: AppendRequest) =>
      if q.expectedVersion <= MAX_UINT64 && |Encode(Canon(codec, q))| <= MAX_APPEND_DIGEST_SIZE
      then Some(hash(Encode(Canon(codec, q)))) else None
  }

  lemma CanonIsLossless(codec: Codec, p: AppendRequest, q: AppendRequest)
    requires Lossless(codec) && Canon(codec, p) == Canon(codec, q)
    ensures p.(appendID := q.appendID) == q
  {
    assert p.admission == q.admission;
    assert |p.events| == |q.events|;
    forall i | 0 <= i < |p.events|
      ensures p.events[i] == q.events[i]
    {
      assert CanonEvents(codec, p.events)[i] == CanonEvents(codec, q.events)[i];
    }
    assert p.events == q.events;
  }

  /** A hash without collisions on canonical bytes makes digests identify requests, which is what
      exactly-once needs to say whose records stand in the stream. */
  lemma HashIdentifies(codec: Codec, hash: Bytes -> string, q: AppendRequest)
    requires Lossless(codec)
    requires forall p: AppendRequest :: hash(Encode(Canon(codec, p))) == hash(Encode(Canon(codec, q))) ==>
               Encode(Canon(codec, p)) == Encode(Canon(codec, q))
    ensures Identifies(DigestOf(codec, hash), q)
  {
    var digest := DigestOf(codec, hash);
    forall p | digest(p).Some? && digest(p) == digest(q)
      ensures p.(appendID := q.appendID) == q
    {
      EqualBytesEqualRequests(Canon(codec, p), Canon(codec, q));
      CanonIsLossless(codec, p, q);
    }
  }
}
