/** The digest chain over source events, and the coverage a lineage of checkpoints accumulates.

    The hash step is any partial function of the previous digest and a record (it fails when the
    record cannot be encoded); nothing is assumed of it. */
module SourceDigest {
  import opened Domain
  import opened Projector
  import opened UnitOrder
  import opened Planner
  import opened ReadStream

  predicate IsDigest(d: string) {
    |d| == 32 && forall i :: 0 <= i < |d| ==> d[i] as int < 256
  }

  /** A 32-byte digest, one character per byte. */
  type Digest = d: string | IsDigest(d) witness seq(32, _ => 'a')

  type HashStep = (Digest, Record) -> Option<Digest>

  /** The six event types that count toward coverage. */
  predicate IsSourceEvent(event: Event) {
    || event.TurnStarted? || event.AssistantMessageCompleted? || event.ToolCallStarted?
    || event.ToolCallCompleted? || event.ToolCallFailed? || event.ToolCallInterrupted?
  }

  datatype Chain = Chain(digest: Digest, count: nat)

  /** One record: source events extend the chain, others leave it. */
  function Link(hash: HashStep, chain: Chain, record: Record): Option<Chain> {
    if !IsSourceEvent(record.event) then Some(chain)
    else match hash(chain.digest, record)
      case None => None
      case Some(next) => Some(Chain(next, chain.count + 1))
  }

  function ChainOver(hash: HashStep, chain: Chain, records: seq<Record>): Option<Chain>
    decreases |records|
  {
    if records == [] then Some(chain)
    else match Link(hash, chain, records[0])
      case None => None
      case Some(next) => ChainOver(hash, next, records[1..])
  }

  lemma {:induction false} ChainSplits(hash: HashStep, chain: Chain, a: seq<Record>, b: seq<Record>)
    ensures ChainOver(hash, chain, a + b) ==
            match ChainOver(hash, chain, a) { case None => None case Some(mid) => ChainOver(hash, mid, b) }
    decreases |a|
  {
    if a == [] {
      assert a + b == b;
    } else {
      assert (a + b)[1..] == a[1..] + b;
      match Link(hash, chain, a[0])
      case None =>
      case Some(next) => ChainSplits(hash, next, a[1..], b);
    }
  }

  /** Where the count starts does not matter to the digest, and only shifts the count. */
  lemma {:induction false} CountShifts(hash: HashStep, chain: Chain, records: seq<Record>)
    ensures var zero := ChainOver(hash, chain.(count := 0), records);
            ChainOver(hash, chain, records) ==
            match zero { case None => None case Some(end) => Some(Chain(end.digest, chain.count + end.count)) }
    decreases |records|
  {
    if records != [] {
      var rest := records[1..];
      match Link(hash, chain, records[0])
      case None =>
      case Some(next) =>
        CountShifts(hash, next, rest);
        CountShifts(hash, Link(hash, chain.(count := 0), records[0]).value, rest);
    }
  }

  /** The accumulating loop; the count it returns starts at zero. */
  method ExtendSourceDigestOverRecords(hash: HashStep, seed: Digest, records: seq<Record>) returns (r: Option<Chain>)
    ensures r == ChainOver(hash, Chain(seed, 0), records)
  {
    var chain := Chain(seed, 0);
    for i := 0 to |records|
      invariant ChainOver(hash, chain, records[i..]) == ChainOver(hash, Chain(seed, 0), records)
    {
      assert records[i..][1..] == records[i + 1..];
      if IsSourceEvent(records[i].event) {
        var next := hash(chain.digest, records[i]);
        if next.None? {
          return None;
        }
        chain := Chain(next.value, chain.count + 1);
      }
    }
    r := Some(chain);
  }

  /** The records of a log after a sequence, up to another. */
  function Range(log: seq<Record>, after: nat, through: nat): seq<Record> {
    var end := if through <= |log| then through else |log|;
    if end <= after then [] else log[after..end]
  }

  /** Take the leading records of a page up to `through`; tell whether that was all of it. */
  method TakeThrough(records: seq<Record>, through: nat) returns (taken: seq<Record>, whole: bool)
    ensures taken <= records && (whole <==> taken == records)
    ensures forall i :: 0 <= i < |taken| ==> taken[i].sequence <= through
    ensures !whole ==> records[|taken|].sequence > through
  {
    var i := 0;
    while i < |records| && records[i].sequence <= through
      invariant 0 <= i <= |records|
      invariant forall j :: 0 <= j < i ==> records[j].sequence <= through
    {
      i := i + 1;
    }
    taken, whole := records[..i], i == |records|;
    assert whole ==> records[..i] == records;
  }

  /** Where the read of a range stands against a served log. */
  ghost predicate RangeAt(log: seq<Record>, after: nat, through: nat, cursor: nat, all: seq<Record>) {
    && (after <= |log| ==> after <= cursor <= |log| && cursor <= through && all == log[after..cursor])
    && (after > |log| ==> cursor == after && all == [])
  }

  /** A page of a served log brings the range forward, and finishes it when it ends or overshoots. */
  lemma RangeContinues(log: seq<Record>, after: nat, through: nat, cursor: nat, all: seq<Record>,
                       reply: Result<Page, ReadError>, limit: nat, taken: seq<Record>)
    requires Contiguous(log) && after < through && RangeAt(log, after, through, cursor, all)
    requires Replies(reply, log, cursor, limit) && reply.Ok? && taken <= reply.value.records
    requires forall i :: 0 <= i < |taken| ==> taken[i].sequence <= through
    requires taken != reply.value.records ==> reply.value.records[|taken|].sequence > through
    ensures taken != reply.value.records || reply.value.end ==> all + taken == Range(log, after, through)
    ensures taken == reply.value.records && !reply.value.end ==>
              RangeAt(log, after, through, reply.value.nextAfter, all + taken)
  {
    var records := reply.value.records;
    if after <= |log| {
      assert records == log[cursor..reply.value.nextAfter];
      assert taken == log[cursor..cursor + |taken|];
      assert all + taken == log[after..cursor + |taken|];
      if taken != [] {
        assert taken[|taken| - 1] == log[cursor + |taken| - 1];
      }
      if taken != records {
        assert records[|taken|] == log[cursor + |taken|];
      }
    }
  }

  /** Read the records with `after < sequence <= through`. Whatever the store, none beyond `through` is
      returned; a store that slices one log returns exactly that range of it. */
  method ReadRange(read: Reader, limit: nat, head: nat, after: nat, through: nat, canceled: nat -> bool,
                   ghost bound: nat, ghost log: seq<Record>)
    returns (r: Result<seq<Record>, ReadError>)
    requires Advancing(read, limit, bound)
    ensures r.Ok? ==> forall i :: 0 <= i < |r.value| ==> r.value[i].sequence <= through
    ensures ServesPinned(read, log, limit) && Contiguous(log) && head == |log| && r.Ok? ==>
              r.value == Range(log, after, through)
    ensures ServesPinned(read, log, limit) && Contiguous(log) && head == |log| && r.Err? && after <= |log| ==>
              r.error == ReadError.Canceled && exists n: nat :: n <= |log| && canceled(n)
  {
    if through <= after {
      return Ok([]);
    }
    var all: seq<Record>, cursor: nat, n: nat := [], after, 0;
    ghost var served := ServesPinned(read, log, limit) && Contiguous(log) && head == |log|;
    while true
      invariant forall i :: 0 <= i < |all| ==> all[i].sequence <= through
      invariant served ==> RangeAt(log, after, through, cursor, all)
      invariant served && after <= |log| ==> n <= cursor - after
      decreases bound - cursor
    {
      if canceled(n) {
        return Err(ReadError.Canceled);
      }
      var page := read(n, ReadRequest(cursor, limit, Some(head)));
      assert MovesOn(page, cursor, bound);
      assert served ==> Replies(page, log, cursor, limit);
      if page.Err? {
        return Err(page.error);
      }
      var taken, whole := TakeThrough(page.value.records, through);
      if served {
        RangeContinues(log, after, through, cursor, all, page, limit, taken);
      }
      all := all + taken;
      if !whole || page.value.end {
        return Ok(all);
      }
      cursor, n := page.value.nextAfter, n + 1;
    }
  }

  // ------------------------------------------------------------ coverage

  datatype Coverage = Coverage(events: nat, turns: nat, through: nat, digest: Digest)

  function ResumeSequence(previous: Option<Coverage>): nat {
    if previous.Some? then previous.value.through else 0
  }

  /** The coverage of a checkpoint built on `previous` over the covered units of a plan. */
  function Covering(hash: HashStep, seed: Digest, previous: Option<Coverage>, records: seq<Record>, covered: seq<Unit>,
                    through: nat): Option<Coverage>
  {
    var prior := if previous.Some? then previous.value else Coverage(0, 0, 0, seed);
    match ChainOver(hash, Chain(prior.digest, 0), records)
    case None => None
    case Some(chain) => Some(Coverage(prior.events + chain.count, prior.turns + TurnCount(covered), through,
                                      chain.digest))
  }

  /** What a cold rebuild over the log up to the coverage's own boundary finds. */
  ghost predicate ColdRebuild(hash: HashStep, seed: Digest, log: seq<Record>, c: Coverage) {
    && c.through <= |log|
    && ChainOver(hash, Chain(seed, 0), log[..c.through]) == Some(Chain(c.digest, c.events))
    && Project(log[..c.through]).Ok? && c.turns == TurnCount(Project(log[..c.through]).value.units)
  }

  // ------------------------------------------------------------ turns are counted by their records

  /** The turn units the records emit. */
  function TurnsIn(records: seq<Record>): nat
    decreases |records|
  {
    if records == [] then 0 else (if EmitsTurn(records[0]) then 1 else 0) + TurnsIn(records[1..])
  }

  predicate EmitsTurn(r: Record) {
    ActionOf(r).Emit? && ActionOf(r).unit.kind == TurnUnit
  }

  lemma {:induction false} TurnsInSplits(a: seq<Record>, b: seq<Record>)
    ensures TurnsIn(a + b) == TurnsIn(a) + TurnsIn(b)
    decreases |a|
  {
    if a == [] {
      assert a + b == b;
    } else {
      assert (a + b)[1..] == a[1..] + b;
      TurnsInSplits(a[1..], b);
    }
  }

  lemma {:induction false} TurnCountAppend(units: seq<Unit>, unit: Unit)
    ensures TurnCount(units + [unit]) == TurnCount(units) + if unit.kind == TurnUnit then 1 else 0
  {
    if units != [] {
      assert (units + [unit])[1..] == units[1..] + [unit];
      TurnCountAppend(units[1..], unit);
    }
  }

  lemma AdvanceCountsTurns(p: Projection, r: Record)
    requires Advance(p, r).Ok?
    ensures TurnCount(Advance(p, r).value.units) == TurnCount(p.units) + if EmitsTurn(r) then 1 else 0
  {
    match ActionOf(r)
    case Emit(unit) => TurnCountAppend(p.units, unit);
    case CloseCall(callID, text) =>
      TurnCountAppend(p.units, p.open[callID].Answered(callID, r.sequence, text).ToUnit());
    case _ =>
  }

  lemma {:induction false} ProjectCountsTurns(p: Projection, records: seq<Record>)
    requires ProjectFrom(p, records).Ok?
    ensures TurnCount(ProjectFrom(p, records).value.units) == TurnCount(p.units) + TurnsIn(records)
    decreases |records|
  {
    if records != [] {
      AdvanceCountsTurns(p, records[0]);
      ProjectCountsTurns(Advance(p, records[0]).value, records[1..]);
    }
  }

  // ------------------------------------------------------------ one step of a lineage

  /** The numbered stretch `after < sequence <= after + |records|` of a stream. */
  ghost predicate Stretch(records: seq<Record>, after: nat) {
    forall i :: 0 <= i < |records| ==> records[i].sequence == after + i + 1
  }

  /** Cutting a stretch at `t`, the units that end by `t` are those of the first part. */
  lemma PrefixUnits(records: seq<Record>, after: nat, t: nat, covered: seq<Unit>, retained: seq<Unit>)
    requires Stretch(records, after) && Project(records).Ok? && after <= t <= after + |records|
    requires Project(records).value.units == covered + retained
    requires covered != [] && covered[|covered| - 1].last == t
    ensures Project(records[..t - after]).Ok? && Project(records[..t - after]).value.units == covered
    ensures DropCovered(covered + retained, t) == retained && after < t
  {
    PartsOfStretch(records, after, t - after);
    var all := covered + retained;
    SplitAtBoundary(Project(records[..t - after]).value.units, covered, retained, t);
    assert all[|covered| - 1] == covered[|covered| - 1];
  }

  /** The first part of a stretch settles the units that end in it; later ones end later. */
  lemma PartsOfStretch(records: seq<Record>, after: nat, k: nat)
    requires Stretch(records, after) && Project(records).Ok? && k <= |records|
    ensures Project(records[..k]).Ok?
    ensures Grown([], Project(records[..k]).value.units, after, after + k)
    ensures Grown(Project(records[..k]).value.units, Project(records).value.units, after + k, after + |records|)
    ensures Grown([], Project(records).value.units, after, after + |records|)
  {
    var a, b := records[..k], records[k..];
    assert records == a + b;
    ProjectSplits(EMPTY, a, b);
    ProjectKeepsSettled(EMPTY, a, after, after + k);
    StretchGrows(EMPTY, a, after);
    StretchGrows(Project(a).value, b, after + k);
    GrownTwice([], Project(a).value.units, Project(records).value.units, after, after + k, after + |records|);
  }

  lemma StretchGrows(p: Projection, records: seq<Record>, after: nat)
    requires Settled(p, after) && Stretch(records, after) && ProjectFrom(p, records).Ok?
    ensures Grown(p.units, ProjectFrom(p, records).value.units, after, after + |records|)
  {
    ProjectKeepsOrder(p, records, after);
  }

  /** Everything a projection holds after a stretch was last touched within it. */
  lemma {:induction false} ProjectKeepsSettled(p: Projection, records: seq<Record>, bound: nat, end: nat)
    requires Settled(p, bound) && Stretch(records, bound) && end == bound + |records| && ProjectFrom(p, records).Ok?
    ensures Settled(ProjectFrom(p, records).value, end)
    decreases |records|
  {
    if records != [] {
      ActionsAreDated(records[0]);
      PerformGrows(p, ActionOf(records[0]), records[0].sequence, bound);
      ProjectKeepsSettled(Advance(p, records[0]).value, records[1..], bound + 1, end);
    }
  }

  /** Of ascending units, those up to the one that ends at `t` are the ones that end by `t`. */
  lemma SplitAtBoundary(early: seq<Unit>, covered: seq<Unit>, retained: seq<Unit>, t: nat)
    requires early <= covered + retained && Ascending(covered + retained) && EndBy(early, t)
    requires forall i :: |early| <= i < |covered + retained| ==> t < (covered + retained)[i].last
    requires covered != [] && covered[|covered| - 1].last == t
    ensures early == covered && DropCovered(covered + retained, t) == retained
  {
    var all, k := covered + retained, |covered|;
    assert all[k - 1].last == t;
    assert |early| >= k;
    assert all[..k] == covered && all[k..] == retained;
    DropCoveredSplits(all, k, t);
  }

  /** The units a resumed scan returns end after the boundary it resumed at, within the log. */
  lemma UnitsWithin(log: seq<Record>, p: nat, i: nat)
    requires Contiguous(log) && p <= |log| && Project(log[p..]).Ok? && i < |Project(log[p..]).value.units|
    ensures p < Project(log[p..]).value.units[i].last <= |log|
  {
    PartsOfStretch(log[p..], p, |log| - p);
  }

  /** The coverage `c` is built on `previous`, over the first `k` units of the scan resumed there. */
  ghost predicate BuiltOver(hash: HashStep, seed: Digest, previous: Option<Coverage>, log: seq<Record>, k: nat,
                            c: Coverage)
  {
    var p := ResumeSequence(previous);
    && p <= c.through <= |log| && Project(log[p..]).Ok?
    && var units := Project(log[p..]).value.units;
       && 0 < k <= |units| && c.through == units[k - 1].last
       && Covering(hash, seed, previous, log[p..c.through], units[..k], c.through) == Some(c)
  }

  /** A checkpoint built on a sound predecessor is what a cold rebuild would find, and covers
      strictly more. */
  lemma SuccessorIsColdRebuild(hash: HashStep, seed: Digest, previous: Option<Coverage>, log: seq<Record>, k: nat,
                               c: Coverage)
    requires Contiguous(log) && Project(log).Ok? && BuiltOver(hash, seed, previous, log, k, c)
    requires previous.Some? ==> ColdRebuild(hash, seed, log, previous.value)
    ensures ColdRebuild(hash, seed, log, c) && ResumeSequence(previous) < c.through
  {
    var p, t := ResumeSequence(previous), c.through;
    NewlyCovered(log, p, t, k);
    SameChain(hash, seed, previous, log[..p], log[p..t], Project(log[p..]).value.units[..k], t);
    SameTurns(log[..p], log[p..t]);
  }

  /** The records between two boundaries project to the units between them. */
  lemma NewlyCovered(log: seq<Record>, p: nat, t: nat, k: nat)
    requires Contiguous(log) && Project(log).Ok? && p <= t <= |log| && Project(log[p..]).Ok?
    requires 0 < k <= |Project(log[p..]).value.units| && t == Project(log[p..]).value.units[k - 1].last
    ensures Project(log[p..t]).Ok? && Project(log[p..t]).value.units == Project(log[p..]).value.units[..k]
    ensures Project(log[..t]).Ok? && p < t && log[..t] == log[..p] + log[p..t]
  {
    var units := Project(log[p..]).value.units;
    assert units == units[..k] + units[k..];
    PrefixUnits(log[p..], p, t, units[..k], units[k..]);
    assert log[p..][..t - p] == log[p..t];
    assert log == log[..t] + log[t..];
    ProjectSplits(EMPTY, log[..t], log[t..]);
  }

  /** The turns of two stretches are those of both together. */
  lemma SameTurns(old': seq<Record>, new': seq<Record>)
    requires Project(old' + new').Ok? && Project(new').Ok?
    ensures Project(old').Ok?
    ensures TurnCount(Project(old' + new').value.units) ==
            TurnCount(Project(old').value.units) + TurnCount(Project(new').value.units)
  {
    ProjectSplits(EMPTY, old', new');
    ProjectCountsTurns(EMPTY, old' + new');
    ProjectCountsTurns(EMPTY, old');
    ProjectCountsTurns(EMPTY, new');
    TurnsInSplits(old', new');
  }

  /** Extending the predecessor's digest over the new records is digesting all records anew. */
  lemma SameChain(hash: HashStep, seed: Digest, previous: Option<Coverage>, old': seq<Record>, new': seq<Record>,
                  covered: seq<Unit>, t: nat)
    requires if previous.Some? then
             ChainOver(hash, Chain(seed, 0), old') == Some(Chain(previous.value.digest, previous.value.events))
               else old' == []
    requires Covering(hash, seed, previous, new', covered, t).Some?
    ensures var c := Covering(hash, seed, previous, new', covered, t).value;
            ChainOver(hash, Chain(seed, 0), old' + new') == Some(Chain(c.digest, c.events))
  {
    var prior := if previous.Some? then previous.value else Coverage(0, 0, 0, seed);
    ChainSplits(hash, Chain(seed, 0), old', new');
    CountShifts(hash, Chain(prior.digest, prior.events), new');
  }

  /** A checkpoint, the log it was built against and the number of units it newly covered. */
  datatype Stage = Stage(log: seq<Record>, cut: nat, coverage: Coverage)

  function Latest(stages: seq<Stage>): Option<Coverage> {
    if stages == [] then None else Some(stages[|stages| - 1].coverage)
  }

  /** Checkpoints each built on the one before, starting from none, over a log that only grows. */
  ghost predicate Lineage(hash: HashStep, seed: Digest, stages: seq<Stage>) {
    stages == [] ||
    (var earlier, stage := stages[..|stages| - 1], stages[|stages| - 1];
     && Lineage(hash, seed, earlier)
     && Contiguous(stage.log) && Project(stage.log).Ok?
     && BuiltOver(hash, seed, Latest(earlier), stage.log, stage.cut, stage.coverage)
     && (earlier != [] ==> earlier[|earlier| - 1].log <= stage.log))
  }

  /** Rolling digest equals cold rebuild: along any lineage the digest, the event count and the turn
      count are those computed from scratch over the log up to the boundary, which moves strictly
      forward. */
  lemma {:induction false} LineageIsColdRebuild(hash: HashStep, seed: Digest, stages: seq<Stage>)
    requires Lineage(hash, seed, stages) && stages != []
    ensures ColdRebuild(hash, seed, stages[|stages| - 1].log, stages[|stages| - 1].coverage)
    ensures ResumeSequence(Latest(stages[..|stages| - 1])) < stages[|stages| - 1].coverage.through
    decreases |stages|
  {
    var earlier, stage := stages[..|stages| - 1], stages[|stages| - 1];
    if earlier != [] {
      LineageIsColdRebuild(hash, seed, earlier);
      GrownLogKeeps(hash, seed, earlier[|earlier| - 1].log, stage.log, earlier[|earlier| - 1].coverage);
    }
    SuccessorIsColdRebuild(hash, seed, Latest(earlier), stage.log, stage.cut, stage.coverage);
  }

  lemma GrownLogKeeps(hash: HashStep, seed: Digest, log: seq<Record>, grown: seq<Record>, c: Coverage)
    requires log <= grown && ColdRebuild(hash, seed, log, c)
    ensures ColdRebuild(hash, seed, grown, c)
  {
    assert grown[..c.through] == log[..c.through];
  }
}
