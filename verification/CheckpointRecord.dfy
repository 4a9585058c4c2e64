/** Turning a checkpoint into its durable record and back. */
module CheckpointRecord {
  import opened Domain
  import opened Meter
  import opened SourceDigest
  import opened SourceList
  import opened Materialize
  import opened SnapshotRender
  import opened InstructionText

  // ------------------------------------------------------------ hexadecimal digests

  function HexDigit(n: nat): char
    requires n < 16
  {
    if n < 10 then (48 + n) as char else (97 + n - 10) as char
  }

  function HexValue(c: char): Option<nat> {
    if 48 <= c as int < 58 then Some(c as int - 48)
    else if 97 <= c as int < 103 then Some(c as int - 87)
    else if 65 <= c as int < 71 then Some(c as int - 55)
    else None
  }

  function HexEncode(d: string): string
    requires forall i :: 0 <= i < |d| ==> d[i] as int < 256
  {
    if d == "" then "" else [HexDigit(d[0] as int / 16), HexDigit(d[0] as int % 16)] + HexEncode(d[1..])
  }

  function HexDecode(text: string): Option<string> {
    if text == "" then Some("")
    else if |text| == 1 then None
    else match (HexValue(text[0]), HexValue(text[1]), HexDecode(text[2..]))
      case (Some(high), Some(low), Some(rest)) =>
        if high < 16 && low < 16 then Some([(high * 16 + low) as char] + rest) else None
      case _ => None
  }

  lemma HexDigitValue(n: nat)
    requires n < 16
    ensures HexValue(HexDigit(n)) == Some(n)
  {
  }

  lemma {:induction false} HexRoundTrip(d: string)
    requires forall i :: 0 <= i < |d| ==> d[i] as int < 256
    ensures HexDecode(HexEncode(d)) == Some(d)
  {
    if d != "" {
      var high, low := d[0] as int / 16, d[0] as int % 16;
      HexDigitValue(high);
      HexDigitValue(low);
      HexRoundTrip(d[1..]);
      assert HexEncode(d)[2..] == HexEncode(d[1..]);
      assert (high * 16 + low) as char == d[0];
      assert [d[0]] + d[1..] == d;
    }
  }

  // ------------------------------------------------------------ records

  function RecordFromCheckpoint(c: Checkpoint): CheckpointRecord {
    CheckpointRecord(
      c.id, c.kind, c.sourceSchema, c.summaryFormat, c.promptVersion,
      c.coverage.events, c.coverage.turns, c.coverage.through, HexEncode(c.coverage.digest),
      c.previousID, c.summary, c.limitations,
      c.tokensBefore, c.checkpointTokens, c.retainedTailTokens, c.estimatedRequestTokens,
      c.summarizerRoute, c.summarizerUsage, c.summaryChunks, c.prunedToolResults, c.snapshot)
  }

  /** The prompt's identity, the digest of a set of sources and the encoding of the message. */
  datatype SnapshotRules = SnapshotRules(
    promptID: string,
    promptDigest: string,
    setDigest: map<string, InstructionSource> -> string,
    json: Json)

  function Renderer(rules: SnapshotRules): SnapshotRender.Renderer {
    RendererOf(rules.json, [], [])
  }

  /** The snapshot of a set of sources. Its source list is what rendering left of the ordered list,
      its digest is taken from the set itself. */
  ghost function SnapshotOf(rules: SnapshotRules, epoch: nat, sources: map<string, InstructionSource>,
                            through: nat): InstructionSnapshot
  {
    var listed := OrderedSources(sources);
    var message := BoundedMessage(Renderer(rules), epoch, listed);
    InstructionSnapshot(rules.promptID, rules.promptDigest, epoch, through, Left(Renderer(rules), epoch, listed),
                        if message.Some? then message.value else "", rules.setDigest(sources))
  }

  /** The snapshot as it is taken: the ordered list is rendered, and copied afterwards. */
  method RenderSnapshot(rules: SnapshotRules, epoch: nat, sources: map<string, InstructionSource>, through: nat)
    returns (r: InstructionSnapshot)
    requires Keyed(sources)
    ensures r == SnapshotOf(rules, epoch, sources, through)
  {
    var ordered := ListSources(sources);
    var listed := new InstructionSource[|ordered|](i requires 0 <= i < |ordered| => ordered[i]);
    assert listed[..] == ordered;
    var none := new InstructionChange[0];
    assert none[..] == [];
    SnapshotText(rules.json, epoch, ordered);
    var message := RenderBounded(rules.json, epoch, none, listed, []);
    r := InstructionSnapshot(rules.promptID, rules.promptDigest, epoch, through, listed[..],
                             if message.Some? then message.value else "", rules.setDigest(sources));
  }

  ghost predicate SnapshotAccepted(rules: SnapshotRules, snapshot: InstructionSnapshot, through: nat) {
    var expected := SnapshotOf(rules, snapshot.epoch, ByPath(snapshot.sources), through);
    && snapshot.promptID == rules.promptID && snapshot.promptDigest == rules.promptDigest
    && snapshot.throughSequence == through && snapshot.epoch != 0
    && snapshot.digest == expected.digest && snapshot.renderedMessage == expected.renderedMessage
  }

  datatype RecordFault = BadDigest | BadSnapshot

  /** The checkpoint a record describes, before its snapshot is checked. */
  function Decoded(sessionID: string, r: CheckpointRecord, digest: Digest): Checkpoint {
    Checkpoint(
      r.id, sessionID, r.kind, r.sourceSchema, r.summaryFormat, r.promptVersion,
      Coverage(r.coveredEvents, r.coveredTurns, r.throughSequence, digest),
      r.previousID, r.summary, r.limitations,
      r.tokensBefore, r.checkpointTokens, r.retainedTailTokens, r.estimatedRequestTokens,
      r.summarizerRoute, r.summarizerUsage, r.summaryChunks, r.prunedToolResults, r.snapshot)
  }

  ghost function CheckpointFromRecord(rules: SnapshotRules, sessionID: string,
                                      r: CheckpointRecord): Result<Checkpoint, RecordFault>
  {
    match HexDecode(r.sourceDigestHex)
    case None => Err(BadDigest)
    case Some(digest) =>
      if !IsDigest(digest) then Err(BadDigest)
      else if r.snapshot.Some? && !SnapshotAccepted(rules, r.snapshot.value, r.throughSequence) then Err(BadSnapshot)
      else Ok(Decoded(sessionID, r, digest))
  }

  /** Reading a record: decode the digest, render the recorded sources again and compare. */
  method ReadRecord(rules: SnapshotRules, sessionID: string, r: CheckpointRecord)
    returns (c: Result<Checkpoint, RecordFault>)
    ensures c == CheckpointFromRecord(rules, sessionID, r)
  {
    var digest := HexDecode(r.sourceDigestHex);
    if digest.None? || !IsDigest(digest.value) {
      return Err(BadDigest);
    }
    if r.snapshot.Some? {
      var snapshot := r.snapshot.value;
      ByPathIsKeyed(snapshot.sources);
      var expected := RenderSnapshot(rules, snapshot.epoch, ByPath(snapshot.sources), r.throughSequence);
      if snapshot.promptID != rules.promptID || snapshot.promptDigest != rules.promptDigest
         || snapshot.throughSequence != r.throughSequence || snapshot.epoch == 0
         || snapshot.digest != expected.digest || snapshot.renderedMessage != expected.renderedMessage {
        return Err(BadSnapshot);
      }
    }
    c := Ok(Decoded(sessionID, r, digest.value));
  }

  /** Decoding undoes encoding exactly when the snapshot, if there is one, passes its own check. */
  lemma RoundTripIffAccepted(rules: SnapshotRules, c: Checkpoint)
    ensures CheckpointFromRecord(rules, c.sessionID, RecordFromCheckpoint(c)) ==
            if c.snapshot.Some? && !SnapshotAccepted(rules, c.snapshot.value, c.coverage.through) then Err(BadSnapshot)
               else Ok(c)
  {
    HexRoundTrip(c.coverage.digest);
  }

  // ------------------------------------------------------------ checkpoints with a rendered snapshot

  /** What rendering leaves of the ordered sources. */
  ghost function LeftOf(rules: SnapshotRules, epoch: nat,
                        sources: map<string, InstructionSource>): seq<InstructionSource>
  {
    Left(Renderer(rules), epoch, OrderedSources(sources))
  }

  /** The set digest tells what rendering left from what was there, if that is not the same. */
  ghost predicate DigestTells(rules: SnapshotRules, epoch: nat, sources: map<string, InstructionSource>) {
    var left := ByPath(LeftOf(rules, epoch, sources));
    left != sources ==> rules.setDigest(left) != rules.setDigest(sources)
  }

  /** Round trip of a checkpoint whose snapshot was rendered from live sources: it succeeds whenever
      rendering left the sources as they were, and is rejected when the digest of what was left is
      not that of the sources. */
  lemma SnapshotRoundTrip(rules: SnapshotRules, c: Checkpoint, epoch: nat, sources: map<string, InstructionSource>)
    requires Keyed(sources) && epoch != 0
    requires c.snapshot == Some(SnapshotOf(rules, epoch, sources, c.coverage.through))
    ensures LeftOf(rules, epoch, sources) == OrderedSources(sources) ==>
              CheckpointFromRecord(rules, c.sessionID, RecordFromCheckpoint(c)) == Ok(c)
    ensures rules.setDigest(ByPath(LeftOf(rules, epoch, sources))) != rules.setDigest(sources) ==>
              CheckpointFromRecord(rules, c.sessionID, RecordFromCheckpoint(c)) == Err(BadSnapshot)
  {
    RoundTripIffAccepted(rules, c);
    OrderedSourcesReadBack(sources);
  }

  /** A cut source does change the set: what is left no longer lists the same sources, so only equal
      digests of different sets could let it pass. */
  lemma CutChangesTheSet(rules: SnapshotRules, epoch: nat, sources: map<string, InstructionSource>)
    requires Keyed(sources) && LeftOf(rules, epoch, sources) != OrderedSources(sources)
    ensures ByPath(LeftOf(rules, epoch, sources)) != sources
  {
    var listed, left := OrderedSources(sources), LeftOf(rules, epoch, sources);
    OrderedSourcesReadBack(sources);
    LeftDiffersAtEnd(Renderer(rules), epoch, listed);
    LastByPath(listed);
    LastByPath(left);
  }

  lemma LeftDiffersAtEnd(render: SnapshotRender.Renderer, epoch: nat, listed: seq<InstructionSource>)
    requires Left(render, epoch, listed) != listed
    ensures var left := Left(render, epoch, listed);
            && listed != [] && left != []
            && left[|left| - 1].path == listed[|listed| - 1].path && left[|left| - 1] != listed[|listed| - 1]
  {
    var left, n := Left(render, epoch, listed), |listed| - 1;
    assert left == listed[n := left[n]];
  }

  lemma LastByPath(list: seq<InstructionSource>)
    requires list != []
    ensures list[|list| - 1].path in ByPath(list) && ByPath(list)[list[|list| - 1].path] == list[|list| - 1]
  {
  }

  /** The last of the ordered sources may keep its content. */
  ghost predicate KeepsContent(rules: SnapshotRules, epoch: nat, sources: map<string, InstructionSource>) {
    KeepsLast(Renderer(rules), epoch, OrderedSources(sources))
  }

  /** Exactly when a checkpoint with a rendered snapshot survives its record, given a set digest that
      tells what was left from what was there. */
  lemma CheckpointRoundTrip(rules: SnapshotRules, c: Checkpoint, epoch: nat, sources: map<string, InstructionSource>)
    requires Keyed(sources) && epoch != 0 && DigestTells(rules, epoch, sources)
    requires c.snapshot == Some(SnapshotOf(rules, epoch, sources, c.coverage.through))
    ensures CheckpointFromRecord(rules, c.sessionID, RecordFromCheckpoint(c)) ==
            if KeepsContent(rules, epoch, sources) then Ok(c) else Err(BadSnapshot)
  {
    JsonGrows(rules.json, [], [], epoch, OrderedSources(sources));
    LeftUntouched(Renderer(rules), epoch, OrderedSources(sources));
    SnapshotRoundTrip(rules, c, epoch, sources);
    if LeftOf(rules, epoch, sources) != OrderedSources(sources) {
      CutChangesTheSet(rules, epoch, sources);
    }
  }

  lemma LongIsNotKept(rules: SnapshotRules, epoch: nat, sources: map<string, InstructionSource>)
    requires Wide(rules.json) && OrderedSources(sources) != []
    requires var listed := OrderedSources(sources); |listed[|listed| - 1].content| > MAX_CONTEXT_BYTES + 1
    ensures !KeepsContent(rules, epoch, sources)
  {
    JsonShows(rules.json, [], []);
    LongLastIsCut(Renderer(rules), epoch, OrderedSources(sources));
  }

  /** An encoding that spends a byte on every character cannot show a last source two characters over
      the limit, nor one character less of it: a checkpoint over it is rejected when read back. */
  lemma TruncatedSnapshotIsRejected(rules: SnapshotRules, c: Checkpoint, epoch: nat,
                                    sources: map<string, InstructionSource>)
    requires Keyed(sources) && epoch != 0 && DigestTells(rules, epoch, sources) && Wide(rules.json)
    requires OrderedSources(sources) != []
    requires var listed := OrderedSources(sources); |listed[|listed| - 1].content| > MAX_CONTEXT_BYTES + 1
    requires c.snapshot == Some(SnapshotOf(rules, epoch, sources, c.coverage.through))
    ensures CheckpointFromRecord(rules, c.sessionID, RecordFromCheckpoint(c)) == Err(BadSnapshot)
  {
    LongIsNotKept(rules, epoch, sources);
    CheckpointRoundTrip(rules, c, epoch, sources);
  }

  // ------------------------------------------------------------ an input for it

  function As(n: nat): (text: string)
    ensures |text| == n
  {
    if n == 0 then "" else "a" + As(n - 1)
  }

  /** One source two characters over the limit. */
  function LongSources(path: string): map<string, InstructionSource> {
    map[path := InstructionSource(path, path, path, As(MAX_CONTEXT_BYTES + 2))]
  }

  /** With a single source that long, every such encoding and set digest loses the checkpoint. */
  lemma LongSourceIsRejected(rules: SnapshotRules, c: Checkpoint, path: string)
    requires Wide(rules.json) && DigestTells(rules, 1, LongSources(path))
    ensures var cut := c.(snapshot := Some(SnapshotOf(rules, 1, LongSources(path), c.coverage.through)));
            CheckpointFromRecord(rules, c.sessionID, RecordFromCheckpoint(cut)) == Err(BadSnapshot)
  {
    var sources := LongSources(path);
    OrderedSourcesShow(sources);
    assert sources[path] in OrderedSources(sources);
    var listed := OrderedSources(sources);
    assert listed[|listed| - 1] in listed;
    TruncatedSnapshotIsRejected(rules, c.(snapshot := Some(SnapshotOf(rules, 1, sources, c.coverage.through))), 1,
                                sources);
  }
}
