/** The canonical framing of an append request, whose hash is the request's identity.

    Numbers are big-endian and fixed-width, byte strings carry their length in front. What the
    encoder writes decodes back to the request it came from, so the framing is injective. */
module Framing {
  import opened Domain

  type Byte = x: int | 0 <= x < 256

  type Bytes = seq<Byte>

  const MAX_UINT32: nat := 0xFFFF_FFFF
  const MAX_APPEND_DIGEST_SIZE: nat := 16 * 1024 * 1024
  const FORMAT_VERSION: nat := 1

  // ------------------------------------------------------------ numbers

  function Power(k: nat): nat {
    if k == 0 then 1 else 256 * Power(k - 1)
  }

  function BigEndian(n: nat, k: nat): (bytes: Bytes)
    ensures |bytes| == k
  {
    if k == 0 then [] else BigEndian(n / 256, k - 1) + [n % 256]
  }

  function Number(bytes: Bytes): nat {
    if bytes == [] then 0 else Number(bytes[..|bytes| - 1]) * 256 + bytes[|bytes| - 1]
  }

  lemma {:induction false} NumberRoundTrip(n: nat, k: nat)
    requires n < Power(k)
    ensures Number(BigEndian(n, k)) == n
  {
    if k > 0 {
      NumberRoundTrip(n / 256, k - 1);
      assert BigEndian(n, k)[..k - 1] == BigEndian(n / 256, k - 1);
    }
  }

  lemma Widths()
    ensures Power(4) == MAX_UINT32 + 1 && Power(8) == MAX_UINT64 + 1
  {
    assert Power(2) == 0x1_0000;
    assert Power(4) == 0x1_0000_0000;
    assert Power(6) == 0x1_0000_0000_0000;
  }

  function U64(n: nat): Bytes {
    BigEndian(n, 8)
  }

  /** A byte string behind its length. */
  function Framed(value: Bytes): Bytes {
    BigEndian(|value|, 4) + value
  }

  // ------------------------------------------------------------ requests

  datatype CanonicalAdmission = CanonicalAdmission(requestID: Bytes, requestDigest: Bytes, turnID: Bytes, itemID: Bytes)

  datatype CanonicalEvent = CanonicalEvent(id: Bytes, eventType: Bytes, schemaVersion: nat, occurredAt: Bytes,
                                           payload: Bytes)

  /** The encoded facts of an append request; its append id and authority are not among them. */
  datatype Canonical = Canonical(
    sessionID: Bytes, expectedVersion: nat, commandID: Bytes, admission: Option<CanonicalAdmission>,
    events: seq<CanonicalEvent>)

  function EncodeAdmission(admission: Option<CanonicalAdmission>): Bytes {
    match admission
    case None => [0]
    case Some(a) => [1] + EncodeAdmissionFields(a)
  }

  function EncodeAdmissionFields(a: CanonicalAdmission): Bytes {
    Framed(a.requestID) + (Framed(a.requestDigest) + (Framed(a.turnID) + Framed(a.itemID)))
  }

  function EncodeEvent(e: CanonicalEvent): Bytes {
    Framed(e.id) + (Framed(e.eventType) + (U64(e.schemaVersion) + (Framed(e.occurredAt) + Framed(e.payload))))
  }

  function EncodeEvents(events: seq<CanonicalEvent>): Bytes {
    if events == [] then [] else EncodeEvent(events[0]) + EncodeEvents(events[1..])
  }

  function Encode(c: Canonical): Bytes {
    U64(FORMAT_VERSION) + (Framed(c.sessionID) + (U64(c.expectedVersion) + (Framed(c.commandID)
    + (EncodeAdmission(c.admission) + (U64(|c.events|) + EncodeEvents(c.events))))))
  }

  // ------------------------------------------------------------ decoding

  /** A decoded value and the bytes after it. */
  datatype Parsed<T> = Parsed(value: T, rest: Bytes) | Malformed

  function TakeNumber(bytes: Bytes, k: nat): Parsed<nat> {
    if |bytes| < k then Malformed else Parsed(Number(bytes[..k]), bytes[k..])
  }

  function TakeFramed(bytes: Bytes): Parsed<Bytes> {
    match TakeNumber(bytes, 4)
    case Malformed => Malformed
    case Parsed(n, rest) => if |rest| < n then Malformed else Parsed(rest[..n], rest[n..])
  }

  function TakeAdmissionFields(bytes: Bytes): Parsed<CanonicalAdmission> {
    match TakeFramed(bytes)
    case Malformed => Malformed
    case Parsed(requestID, a) =>
      match TakeFramed(a)
      case Malformed => Malformed
      case Parsed(digest, b) =>
        match TakeFramed(b)
        case Malformed => Malformed
        case Parsed(turnID, c) =>
          match TakeFramed(c)
          case Malformed => Malformed
          case Parsed(itemID, rest) => Parsed(CanonicalAdmission(requestID, digest, turnID, itemID), rest)
  }

  function TakeAdmission(bytes: Bytes): Parsed<Option<CanonicalAdmission>> {
    if bytes == [] then Malformed
    else if bytes[0] == 0 then Parsed(None, bytes[1..])
    else if bytes[0] != 1 then Malformed
    else match TakeAdmissionFields(bytes[1..])
      case Malformed => Malformed
      case Parsed(admission, rest) => Parsed(Some(admission), rest)
  }

  function TakeEvent(bytes: Bytes): Parsed<CanonicalEvent> {
    match TakeFramed(bytes)
    case Malformed => Malformed
    case Parsed(id, a) =>
      match TakeFramed(a)
      case Malformed => Malformed
      case Parsed(eventType, b) =>
        match TakeNumber(b, 8)
        case Malformed => Malformed
        case Parsed(schemaVersion, c) =>
          match TakeFramed(c)
          case Malformed => Malformed
          case Parsed(occurredAt, d) =>
            match TakeFramed(d)
            case Malformed => Malformed
            case Parsed(payload, rest) => Parsed(CanonicalEvent(id, eventType, schemaVersion, occurredAt, payload),
                                                 rest)
  }

  function TakeEvents(bytes: Bytes, count: nat): Parsed<seq<CanonicalEvent>> {
    if count == 0 then Parsed([], bytes)
    else match TakeEvent(bytes)
      case Malformed => Malformed
      case Parsed(first, rest) =>
        match TakeEvents(rest, count - 1)
        case Malformed => Malformed
        case Parsed(others, end) => Parsed([first] + others, end)
  }

  /** The head of a request: format, session and expected version. */
  function TakeHead(bytes: Bytes): Parsed<(Bytes, nat)> {
    match TakeNumber(bytes, 8)
    case Malformed => Malformed
    case Parsed(version, a) =>
      if version != FORMAT_VERSION then Malformed
      else match TakeFramed(a)
        case Malformed => Malformed
        case Parsed(sessionID, b) =>
          match TakeNumber(b, 8)
          case Malformed => Malformed
          case Parsed(expected, rest) => Parsed((sessionID, expected), rest)
  }

  function Decode(bytes: Bytes): Option<Canonical> {
    match TakeHead(bytes)
    case Malformed => None
    case Parsed((sessionID, expected), a) =>
      match TakeFramed(a)
      case Malformed => None
      case Parsed(commandID, b) =>
        match TakeAdmission(b)
        case Malformed => None
        case Parsed(admission, c) =>
          match TakeNumber(c, 8)
          case Malformed => None
          case Parsed(count, d) =>
            match TakeEvents(d, count)
            case Malformed => None
            case Parsed(events, rest) => if rest != [] then None
              else Some(Canonical(sessionID, expected, commandID, admission, events))
  }

  // ------------------------------------------------------------ round trips

  lemma NumberTaken(n: nat, k: nat, rest: Bytes)
    requires n < Power(k)
    ensures TakeNumber(BigEndian(n, k) + rest, k) == Parsed(n, rest)
  {
    NumberRoundTrip(n, k);
    assert (BigEndian(n, k) + rest)[..k] == BigEndian(n, k);
    assert (BigEndian(n, k) + rest)[k..] == rest;
  }

  lemma U64Taken(n: nat, rest: Bytes)
    requires n <= MAX_UINT64
    ensures TakeNumber(U64(n) + rest, 8) == Parsed(n, rest)
  {
    Widths();
    NumberTaken(n, 8, rest);
  }

  lemma FramedTaken(value: Bytes, rest: Bytes)
    requires |value| <= MAX_UINT32
    ensures TakeFramed(Framed(value) + rest) == Parsed(value, rest)
  {
    Widths();
    NumberTaken(|value|, 4, value + rest);
    assert Framed(value) + rest == BigEndian(|value|, 4) + (value + rest);
    assert (value + rest)[..|value|] == value && (value + rest)[|value|..] == rest;
  }

  predicate SizedAdmission(a: CanonicalAdmission) {
    |a.requestID| <= MAX_UINT32 && |a.requestDigest| <= MAX_UINT32 && |a.turnID| <= MAX_UINT32
      && |a.itemID| <= MAX_UINT32
  }

  predicate SizedEvent(e: CanonicalEvent) {
    && |e.id| <= MAX_UINT32 && |e.eventType| <= MAX_UINT32 && e.schemaVersion <= MAX_UINT64
    && |e.occurredAt| <= MAX_UINT32 && |e.payload| <= MAX_UINT32
  }

  predicate SizedEvents(events: seq<CanonicalEvent>) {
    forall i :: 0 <= i < |events| ==> SizedEvent(events[i])
  }

  lemma Regroup(a: Bytes, b: Bytes, c: Bytes)
    ensures (a + b) + c == a + (b + c)
  {
  }

  lemma AdmissionTaken(admission: Option<CanonicalAdmission>, rest: Bytes)
    requires admission.Some? ==> SizedAdmission(admission.value)
    ensures TakeAdmission(EncodeAdmission(admission) + rest) == Parsed(admission, rest)
  {
    if admission.Some? {
      AdmissionFieldsTaken(admission.value, rest);
      Regroup([1], EncodeAdmissionFields(admission.value), rest);
    }
  }

  lemma AdmissionFieldsTaken(a: CanonicalAdmission, rest: Bytes)
    requires SizedAdmission(a)
    ensures TakeAdmissionFields(EncodeAdmissionFields(a) + rest) == Parsed(a, rest)
  {
    var i := Framed(a.itemID);
    var t, d, r := Framed(a.turnID), Framed(a.requestDigest), Framed(a.requestID);
    Regroup(t, i, rest);
    Regroup(d, t + i, rest);
    Regroup(r, d + (t + i), rest);
    FramedTaken(a.itemID, rest);
    FramedTaken(a.turnID, i + rest);
    FramedTaken(a.requestDigest, t + (i + rest));
    FramedTaken(a.requestID, d + (t + (i + rest)));
  }

  lemma EventTaken(e: CanonicalEvent, rest: Bytes)
    requires SizedEvent(e)
    ensures TakeEvent(EncodeEvent(e) + rest) == Parsed(e, rest)
  {
    var p, o := Framed(e.payload), Framed(e.occurredAt);
    var s, t, i := U64(e.schemaVersion), Framed(e.eventType), Framed(e.id);
    Regroup(o, p, rest);
    Regroup(s, o + p, rest);
    Regroup(t, s + (o + p), rest);
    Regroup(i, t + (s + (o + p)), rest);
    FramedTaken(e.payload, rest);
    FramedTaken(e.occurredAt, p + rest);
    U64Taken(e.schemaVersion, o + (p + rest));
    FramedTaken(e.eventType, s + (o + (p + rest)));
    FramedTaken(e.id, t + (s + (o + (p + rest))));
  }

  lemma {:induction false} EventsTaken(events: seq<CanonicalEvent>, rest: Bytes)
    requires SizedEvents(events)
    ensures TakeEvents(EncodeEvents(events) + rest, |events|) == Parsed(events, rest)
  {
    if events != [] {
      Regroup(EncodeEvent(events[0]), EncodeEvents(events[1..]), rest);
      EventTaken(events[0], EncodeEvents(events[1..]) + rest);
      EventsTaken(events[1..], rest);
      TakeOneMore(EncodeEvents(events) + rest, EncodeEvents(events[1..]) + rest, events[0], events[1..], rest);
      assert [events[0]] + events[1..] == events;
    }
  }

  lemma TakeOneMore(bytes: Bytes, after: Bytes, first: CanonicalEvent, others: seq<CanonicalEvent>, rest: Bytes)
    requires TakeEvent(bytes) == Parsed(first, after) && TakeEvents(after, |others|) == Parsed(others, rest)
    ensures TakeEvents(bytes, |others| + 1) == Parsed([first] + others, rest)
  {
  }

  ghost predicate Sized(c: Canonical) {
    && |c.sessionID| <= MAX_UINT32 && c.expectedVersion <= MAX_UINT64 && |c.commandID| <= MAX_UINT32
    && (c.admission.Some? ==> SizedAdmission(c.admission.value))
    && |c.events| <= MAX_UINT64 && SizedEvents(c.events)
  }

  /** What is encoded decodes back to the same request, and nothing is left over. */
  lemma EncodeRoundTrip(c: Canonical)
    requires Sized(c)
    ensures Decode(Encode(c)) == Some(c)
  {
    var events, admission := EncodeEvents(c.events), EncodeAdmission(c.admission);
    var tail := U64(|c.events|) + events;
    HeadTaken(c.sessionID, c.expectedVersion, Framed(c.commandID) + (admission + tail));
    FramedTaken(c.commandID, admission + tail);
    AdmissionTaken(c.admission, tail);
    U64Taken(|c.events|, events);
    EventsTaken(c.events, []);
    assert events + [] == events;
  }

  lemma HeadTaken(sessionID: Bytes, expected: nat, rest: Bytes)
    requires |sessionID| <= MAX_UINT32 && expected <= MAX_UINT64
    ensures TakeHead(U64(FORMAT_VERSION) + (Framed(sessionID) + (U64(expected) + rest))) ==
              Parsed((sessionID, expected), rest)
  {
    U64Taken(FORMAT_VERSION, Framed(sessionID) + (U64(expected) + rest));
    FramedTaken(sessionID, U64(expected) + rest);
    U64Taken(expected, rest);
  }

  /** Canonical framing is injective: requests with equal encodings agree on every encoded field. */
  lemma FramingIsInjective(a: Canonical, b: Canonical)
    requires Sized(a) && Sized(b) && Encode(a) == Encode(b)
    ensures a == b
  {
    EncodeRoundTrip(a);
    EncodeRoundTrip(b);
  }

  // ------------------------------------------------------------ the encoder

  predicate Exceeds(size: nat, limit: nat) {
    limit > 0 && size > limit
  }

  /** The byte sink: a buffer with a size limit, zero meaning none, and a sticky error. `wanted` is
      everything that was handed to it, whether or not there was room, and `oversized` whether a value was
      too long for its length prefix. */
  class FramedDigestEncoder {
    var data: Bytes
    var failed: bool
    const limit: nat
    ghost var wanted: Bytes
    ghost var oversized: bool

    ghost predicate Valid()
      reads this
    {
      && (!failed ==> data == wanted && !Exceeds(|data|, limit))
      && (failed ==> Exceeds(|wanted|, limit) || oversized)
      && (oversized ==> failed && |wanted| > MAX_UINT32)
    }

    constructor (limit: nat)
      ensures Valid() && wanted == [] && !oversized && this.limit == limit
    {
      this.limit := limit;
      data, failed, wanted, oversized := [], false, [], false;
    }

    method WriteRaw(value: Bytes)
      requires Valid()
      modifies this
      ensures Valid() && wanted == old(wanted) + value && oversized == old(oversized)
    {
      wanted := wanted + value;
      if failed {
        return;
      }
      if limit > 0 && |value| > limit - |data| {
        failed := true;
        return;
      }
      data := data + value;
    }

    method WriteUint64(n: nat)
      requires Valid()
      modifies this
      ensures Valid() && wanted == old(wanted) + U64(n) && oversized == old(oversized)
    {
      WriteRaw(U64(n));
    }

    method WriteBytes(value: Bytes)
      requires Valid()
      modifies this
      ensures Valid() && wanted == old(wanted) + Framed(value)
      ensures oversized == (old(oversized) || |value| > MAX_UINT32)
    {
      if |value| > MAX_UINT32 {
        failed, oversized := true, true;
        wanted := wanted + Framed(value);
        return;
      }
      WriteRaw(BigEndian(|value|, 4));
      WriteRaw(value);
    }

    method WriteAdmission(admission: Option<CanonicalAdmission>)
      requires Valid()
      modifies this
      ensures Valid() && wanted == old(wanted) + EncodeAdmission(admission)
    {
      if admission.None? {
        WriteRaw([0]);
        return;
      }
      WriteRaw([1]);
      WriteBytes(admission.value.requestID);
      WriteBytes(admission.value.requestDigest);
      WriteBytes(admission.value.turnID);
      WriteBytes(admission.value.itemID);
    }

    method WriteEvent(e: CanonicalEvent)
      requires Valid()
      modifies this
      ensures Valid() && wanted == old(wanted) + EncodeEvent(e)
    {
      WriteBytes(e.id);
      WriteBytes(e.eventType);
      WriteUint64(e.schemaVersion);
      WriteBytes(e.occurredAt);
      WriteBytes(e.payload);
    }

    method WriteEvents(events: seq<CanonicalEvent>)
      requires Valid()
      modifies this
      ensures Valid() && wanted == old(wanted) + EncodeEvents(events)
    {
      for i := 0 to |events|
        invariant Valid() && wanted + EncodeEvents(events[i..]) == old(wanted) + EncodeEvents(events)
      {
        NextEvent(events, i, wanted);
        WriteEvent(events[i]);
      }
    }
  }

  lemma NextEvent(events: seq<CanonicalEvent>, i: nat, written: Bytes)
    requires i < |events|
    ensures written + EncodeEvents(events[i..]) == (written + EncodeEvent(events[i])) + EncodeEvents(events[i + 1..])
  {
    assert events[i..][1..] == events[i + 1..];
    Regroup(written, EncodeEvent(events[i]), EncodeEvents(events[i + 1..]));
  }

  /** The canonical bytes of a request, or nothing when they would exceed the limit. */
  method CanonicalBytes(c: Canonical) returns (r: Option<Bytes>)
    ensures r == if |Encode(c)| <= MAX_APPEND_DIGEST_SIZE then Some(Encode(c)) else None
  {
    var encoder := new FramedDigestEncoder(MAX_APPEND_DIGEST_SIZE);
    encoder.WriteUint64(FORMAT_VERSION);
    encoder.WriteBytes(c.sessionID);
    encoder.WriteUint64(c.expectedVersion);
    encoder.WriteBytes(c.commandID);
    encoder.WriteAdmission(c.admission);
    encoder.WriteUint64(|c.events|);
    encoder.WriteEvents(c.events);
    Assemble(U64(FORMAT_VERSION), Framed(c.sessionID), U64(c.expectedVersion), Framed(c.commandID),
             EncodeAdmission(c.admission), U64(|c.events|), EncodeEvents(c.events));
    r := if encoder.failed then None else Some(encoder.data);
  }

  /** Writing the parts one after the other is writing the whole. */
  lemma Assemble(a: Bytes, b: Bytes, c: Bytes, d: Bytes, e: Bytes, f: Bytes, g: Bytes)
    ensures [] + a + b + c + d + e + f + g == a + (b + (c + (d + (e + (f + g)))))
  {
    assert [] + a == a;
    Regroup(a + b + c + d + e, f, g);
    Regroup(a + b + c + d, e, f + g);
    Regroup(a + b + c, d, e + (f + g));
    Regroup(a + b, c, d + (e + (f + g)));
    Regroup(a, b, c + (d + (e + (f + g))));
  }

  /** The numeric fields are 64-bit. */
  ghost predicate Numeric(c: Canonical) {
    c.expectedVersion <= MAX_UINT64 && forall i :: 0 <= i < |c.events| ==> c.events[i].schemaVersion <= MAX_UINT64
  }

  lemma {:induction false} ShortEventsAreSized(events: seq<CanonicalEvent>)
    requires |EncodeEvents(events)| <= MAX_UINT32
    requires forall i :: 0 <= i < |events| ==> events[i].schemaVersion <= MAX_UINT64
    ensures SizedEvents(events) && |events| <= |EncodeEvents(events)|
  {
    if events != [] {
      ShortEventsAreSized(events[1..]);
      assert SizedEvent(events[0]);
      assert forall i :: 0 < i < |events| ==> events[i] == events[1..][i - 1];
    }
  }

  /** Whatever fits the limit is small enough to decode. */
  lemma WithinLimitIsSized(c: Canonical)
    requires Numeric(c) && |Encode(c)| <= MAX_APPEND_DIGEST_SIZE
    ensures Sized(c)
  {
    ShortEventsAreSized(c.events);
  }

  /** Two requests whose canonical bytes were produced and are equal agree on session, expected
      version, command, admission and the full event list. */
  lemma EqualBytesEqualRequests(a: Canonical, b: Canonical)
    requires Numeric(a) && Numeric(b)
    requires |Encode(a)| <= MAX_APPEND_DIGEST_SIZE && Encode(a) == Encode(b)
    ensures a == b
  {
    WithinLimitIsSized(a);
    WithinLimitIsSized(b);
    FramingIsInjective(a, b);
  }

  // ------------------------------------------------------------ requests to run a turn

  /** The canonical bytes of a request to run a turn. */
  function EncodeRunTurn(sessionID: Bytes, input: Bytes): Bytes {
    U64(FORMAT_VERSION) + (Framed(sessionID) + Framed(input))
  }

  lemma AssembleThree(a: Bytes, b: Bytes, c: Bytes)
    ensures [] + a + b + c == a + (b + c)
  {
    assert [] + a == a;
    Regroup(a, b, c);
  }

  /** The same encoder without a limit; only a value too long for its length prefix fails. */
  method RunTurnBytes(sessionID: Bytes, input: Bytes) returns (r: Option<Bytes>)
    ensures r.Some? ==> r.value == EncodeRunTurn(sessionID, input)
    ensures r.Some? <==> |sessionID| <= MAX_UINT32 && |input| <= MAX_UINT32
  {
    var encoder := new FramedDigestEncoder(0);
    encoder.WriteUint64(FORMAT_VERSION);
    encoder.WriteBytes(sessionID);
    encoder.WriteBytes(input);
    AssembleThree(U64(FORMAT_VERSION), Framed(sessionID), Framed(input));
    r := if encoder.failed then None else Some(encoder.data);
  }

  lemma RunTurnBytesAreInjective(s: Bytes, i: Bytes, t: Bytes, j: Bytes)
    requires |s| <= MAX_UINT32 && |i| <= MAX_UINT32 && |t| <= MAX_UINT32 && |j| <= MAX_UINT32
    requires EncodeRunTurn(s, i) == EncodeRunTurn(t, j)
    ensures s == t && i == j
  {
    U64Taken(FORMAT_VERSION, Framed(s) + Framed(i));
    U64Taken(FORMAT_VERSION, Framed(t) + Framed(j));
    FramedTaken(s, Framed(i));
    FramedTaken(t, Framed(j));
    assert Framed(i) + [] == Framed(i) && Framed(j) + [] == Framed(j);
    FramedTaken(i, []);
    FramedTaken(j, []);
  }
}
