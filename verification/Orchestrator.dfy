/** Preparing the next request: resume the scan at the latest checkpoint, plan, compact if the plan
    asks for it, and send what the checkpoint then in force does not cover. */
module Orchestrator {
  import opened Domain
  import opened Session
  import opened Meter
  import opened Projector
  import opened UnitOrder
  import opened ToolPairs
  import opened Planner
  import opened ReadStream
  import opened SourceDigest
  import opened Materialize
  import opened CheckpointStore
  import opened CompactionTrace
  import opened Bracket
  import Durable = CheckpointRecord
  import Instructions
  import Scanning = Scan

  datatype PrepareFault =
    | GaveUp | LoadFailed | CheckpointUnusable(record: Durable.RecordFault)
    | ScanFailed(scan: Scanning.ScanFault) | PlanFailed(policy: PolicyFault) | BracketFailed(bracket: BracketFault)

  datatype PreparedContext = PreparedContext(state: State, compactionRan: bool, head: nat, anchored: bool,
                                             request: Prepared)

  /** What a scan found after a checkpoint, and the plan over it. */
  datatype Found = Found(
    previous: Option<Checkpoint>, units: seq<Unit>, head: nat, plan: PlanResult, anchored: bool, rescanned: bool)

  /** The event store as it answers the first scan, a second one and the pinned reads of a bracket. */
  datatype Views = Views(first: Reader, second: Reader, pinned: Reader)

  /** The log the first scan sees, and the one a second scan would; both stay readable at their heads. */
  ghost predicate ViewsServe(views: Views, limit: nat, log: seq<Record>, later: seq<Record>) {
    && Serves(views.first, log, limit) && Serves(views.second, later, limit)
    && ServesPinned(views.pinned, log, limit) && ServesPinned(views.pinned, later, limit)
    && Contiguous(log) && Contiguous(later)
  }

  /** The log behind what was found. */
  function SeenLog(found: Found, log: seq<Record>, later: seq<Record>): seq<Record> {
    if found.rescanned then later else log
  }

  ghost predicate FoundIn(found: Found, log: seq<Record>) {
    var p := ResumeSequence(CoverageOf(found.previous));
    && p <= |log| && found.head == |log| && Project(log[p..]).Ok? && found.units == Project(log[p..]).value.units
    && PlanOver(found.plan, found.previous, log)
  }

  function PlanInputOf(deps: Deps, ask: Ask, units: seq<Unit>, force: bool): PlanInput {
    PlanInput(deps.price, ask.prefix, units, deps.budget, deps.toolTokens, ask.current, force)
  }

  /** The plan over the units after a checkpoint, when nobody cancels. */
  function PlanFor(deps: Deps, policy: Option<Policy>, ask: Ask, previous: Option<Checkpoint>, units: seq<Unit>,
                   force: bool): Result<PlanResult, PolicyFault>
  {
    Plan(policy, PlanInputOf(deps, ask, units, force), ask.trigger, ResumeSequence(CoverageOf(previous)),
         if previous.Some? then previous.value.checkpointTokens else 0, false, false)
  }

  /** The records of a log after a checkpoint; none when it claims more than there is. */
  function RecordsAfter(previous: Option<Checkpoint>, log: seq<Record>): seq<Record> {
    Scanning.Rest(log, ResumeSequence(CoverageOf(previous)))
  }

  predicate Scannable(previous: Option<Checkpoint>, log: seq<Record>) {
    Project(RecordsAfter(previous, log)).Ok?
  }

  /** The units a scan finds after a checkpoint. */
  function UnitsAfter(previous: Option<Checkpoint>, log: seq<Record>): seq<Unit>
    requires Scannable(previous, log)
  {
    Project(RecordsAfter(previous, log)).value.units
  }

  /** A scan after the checkpoint fails: its records cannot be projected or digested, or the store
      refuses to read beyond its end. */
  predicate Unscannable(deps: Deps, previous: Option<Checkpoint>, log: seq<Record>, fault: Scanning.ScanFault) {
    || ResumeSequence(CoverageOf(previous)) > |log|
    || Scanning.Scanned(deps.hash, deps.seed, RecordsAfter(previous, log), |log|) == Err(fault)
  }

  // ------------------------------------------------------------ loading the checkpoint

  /** The latest checkpoint, if there is one; a record that does not read back stops everything. */
  ghost function Usable(deps: Deps, sessionID: string, lookup: Lookup): Result<Option<Checkpoint>, PrepareFault> {
    match lookup
    case NoCheckpoint => Ok(None)
    case LookupFailed => Err(LoadFailed)
    case Stored(record) =>
      Loaded(Durable.CheckpointFromRecord(deps.snapshots, sessionID, record))
  }

  function Loaded(read: Result<Checkpoint, Durable.RecordFault>): Result<Option<Checkpoint>, PrepareFault> {
    if read.Err? then Err(CheckpointUnusable(read.error)) else Ok(Some(read.value))
  }

  method LoadUsableCheckpoint(deps: Deps, sessionID: string, lookup: Lookup)
    returns (r: Result<Option<Checkpoint>, PrepareFault>)
    ensures r == Usable(deps, sessionID, lookup)
  {
    match lookup
    case NoCheckpoint => r := Ok(None);
    case LookupFailed => r := Err(LoadFailed);
    case Stored(record) =>
      var read := Durable.ReadRecord(deps.snapshots, sessionID, record);
      r := Loaded(read);
  }

  /** Whether a checkpoint may still be used for this request. */
  predicate ReplayValid(deps: Deps, ask: Ask, c: Checkpoint, head: nat, retained: seq<Unit>) {
    && c.sessionID == ask.sessionID && c.sourceSchema == SOURCE_SCHEMA
    && (match c.kind
        case RollingSummary => c.summaryFormat == SUMMARY_FORMAT && !deps.blank(c.summary)
        case SourceTailReset => true
        case OtherKind(_) => false)
    && c.coverage.through <= head
    && c.checkpointTokens + Total(deps.price, Flatten(retained)) <= deps.budget.hardInput
  }

  // ------------------------------------------------------------ scanning and planning

  /** Why there is no plan after a checkpoint. */
  predicate Unplanned(deps: Deps, policy: Option<Policy>, ask: Ask, force: bool, previous: Option<Checkpoint>,
                      log: seq<Record>, canceled: bool, fault: PrepareFault)
  {
    match fault
    case ScanFailed(scan) => Unscannable(deps, previous, log, scan)
    case PlanFailed(refusal) =>
      Scannable(previous, log) && (canceled
                                   || PlanFor(deps, policy, ask, previous, UnitsAfter(previous, log), force) ==
                                        Err(refusal))
    case _ => false
  }

  /** Plan over units a scan found. */
  method PlanOnce(deps: Deps, policy: Option<Policy>, ask: Ask, force: bool, previous: Option<Checkpoint>,
                  units: seq<Unit>, canceled: nat -> bool)
    returns (r: Result<PlanResult, PolicyFault>)
    ensures r.Ok? ==> PlanFor(deps, policy, ask, previous, units, force) == r
    ensures r.Err? ==> canceled(0) || canceled(1) || PlanFor(deps, policy, ask, previous, units, force) == r
  {
    var tokens := if previous.Some? then previous.value.checkpointTokens else 0;
    var through := ResumeSequence(CoverageOf(previous));
    r := PlanUnderPolicy(policy, PlanInputOf(deps, ask, units, force), ask.trigger, through, tokens, canceled(0),
                         canceled(1));
  }

  /** Scan after `previous` and plan over what was found. */
  method ScanAndPlan(deps: Deps, read: Reader, policy: Option<Policy>, ask: Ask, force: bool,
                     previous: Option<Checkpoint>, canceled: nat -> bool, ghost log: seq<Record>)
    returns (r: Result<Found, PrepareFault>)
    requires Serves(read, log, deps.pageLimit)
    ensures r.Ok? ==>
              && Scannable(previous, log)
              && PlanFor(deps, policy, ask, previous, UnitsAfter(previous, log), force).Ok?
    ensures r.Ok? ==> r.value == Found(previous, UnitsAfter(previous, log), |log|,
                                       PlanFor(deps, policy, ask, previous, UnitsAfter(previous, log), force).value,
                                       false, false)
    ensures r.Err? ==> Unplanned(deps, policy, ask, force, previous, log, canceled(0) || canceled(1), r.error)
  {
    ghost var pages;
    var scan;
    scan, pages := Scanning.Scan(read, deps.pageLimit, deps.hash, deps.seed, ResumeSequence(CoverageOf(previous)),
                                 |log|, log);
    if scan.Err? {
      return Err(ScanFailed(scan.error));
    }
    var plan := PlanOnce(deps, policy, ask, force, previous, scan.value.units, canceled);
    if plan.Err? {
      return Err(PlanFailed(plan.error));
    }
    r := Ok(Found(previous, scan.value.units, scan.value.head, plan.value, false, false));
  }

  /** A plan over what a scan found covers a part of it. */
  lemma PlanIsOver(deps: Deps, policy: Option<Policy>, ask: Ask, previous: Option<Checkpoint>, units: seq<Unit>,
                   force: bool, log: seq<Record>)
    requires PlanFor(deps, policy, ask, previous, units, force).Ok?
    requires var p := ResumeSequence(CoverageOf(previous));
             p <= |log| && Project(log[p..]).Ok? && units == Project(log[p..]).value.units
    ensures PlanOver(PlanFor(deps, policy, ask, previous, units, force).value, previous, log)
  {
    SafeUnderAnyPolicy(policy, PlanInputOf(deps, ask, units, force), ask.trigger, ResumeSequence(CoverageOf(previous)),
                       if previous.Some? then previous.value.checkpointTokens else 0, false, false);
  }

  /** Drop the leading units a checkpoint covers. */
  method DropLoop(units: seq<Unit>, through: nat) returns (r: seq<Unit>)
    ensures r == DropCovered(units, through)
  {
    r := units;
    while |r| > 0 && r[0].last <= through
      invariant DropCovered(r, through) == DropCovered(units, through)
      decreases |r|
    {
      r := r[1..];
    }
  }

  lemma {:induction false} DropTwice(units: seq<Unit>, p: nat, t: nat)
    requires p <= t
    ensures DropCovered(DropCovered(units, p), t) == DropCovered(units, t)
  {
    if units != [] && units[0].last <= p {
      DropTwice(units[1..], p, t);
    }
  }

  /** From a scan resumed at `p`, what a boundary `t` at or after it leaves is what it leaves of the
      full scan. */
  lemma RestOfResumedScan(log: seq<Record>, p: nat, t: nat)
    requires Contiguous(log) && p <= |log| && p <= t && Project(log).Ok? && Project(log[p..]).Ok?
    ensures DropCovered(Project(log[p..]).value.units, t) == DropCovered(Project(log).value.units, t)
  {
    ResumeAfter(log, p);
    DropTwice(Project(log).value.units, p, t);
  }

  /** Of the units of a scan resumed at `p`, none is dropped at `p` itself. */
  lemma NothingToDrop(log: seq<Record>, p: nat)
    requires Contiguous(log) && p <= |log| && Project(log[p..]).Ok?
    ensures DropCovered(Project(log[p..]).value.units, p) == Project(log[p..]).value.units
  {
    if Project(log[p..]).value.units != [] {
      UnitsWithin(log, p, 0);
    }
  }

  /** After a successful bracket the kept units are exactly the plan's. */
  lemma BracketKeepsRetained(plan: PlanResult, previous: Option<Checkpoint>, log: seq<Record>)
    requires Contiguous(log) && PlanOver(plan, previous, log) && plan.covered != []
    ensures DropCovered(plan.covered + plan.retained, plan.coveredThrough) == plan.retained
  {
    var p := ResumeSequence(CoverageOf(previous));
    PlanBoundary(plan, previous, log);
    PrefixUnits(log[p..], p, plan.coveredThrough, plan.covered, plan.retained);
  }

  /** The first `k` units end at or before `through` and all others after it. */
  ghost predicate PartedAt(units: seq<Unit>, k: nat, through: nat) {
    && k <= |units|
    && (forall i :: 0 <= i < k ==> units[i].last <= through)
    && (forall i :: k <= i < |units| ==> through < units[i].last)
  }

  /** How many leading units a boundary covers. */
  function CoveredCount(units: seq<Unit>, through: nat): (k: nat)
    ensures k <= |units|
  {
    if units != [] && units[0].last <= through then 1 + CoveredCount(units[1..], through) else 0
  }

  /** Dropping leaves a tail of the units. */
  lemma {:induction false} DropIsTail(units: seq<Unit>, through: nat)
    ensures DropCovered(units, through) == units[CoveredCount(units, through)..]
  {
    if units != [] && units[0].last <= through {
      var rest := units[1..];
      DropIsTail(rest, through);
      assert rest[CoveredCount(rest, through)..] == units[CoveredCount(units, through)..];
    }
  }

  lemma {:induction false} AscendingParts(units: seq<Unit>, through: nat)
    requires Ascending(units)
    ensures PartedAt(units, CoveredCount(units, through), through)
  {
    if units != [] && units[0].last <= through {
      var rest := units[1..];
      AscendingParts(rest, through);
      assert forall i :: 0 < i < |units| ==> units[i] == rest[i - 1];
    }
  }

  /** Nothing is lost and nothing is sent twice: each projected unit ends at or before the boundary
      and is covered, or ends after it and is kept, in order. */
  lemma NothingLostNorTwice(log: seq<Record>, through: nat)
    requires Contiguous(log) && Project(log).Ok?
    ensures var full := Project(log).value.units;
            && PartedAt(full, CoveredCount(full, through), through)
            && DropCovered(full, through) == full[CoveredCount(full, through)..]
  {
    UnitsAscend(log);
    AscendingParts(Project(log).value.units, through);
    DropIsTail(Project(log).value.units, through);
  }

  // ------------------------------------------------------------ preparing a request

  /** How the request of a finished preparation relates to the whole log. `active` is the checkpoint in
      force and `kept` the units sent behind it. */
  ghost predicate Faithful(log: seq<Record>, active: Option<Checkpoint>, kept: seq<Unit>) {
    Project(log).Ok? ==> kept == DropCovered(Project(log).value.units, ResumeSequence(CoverageOf(active)))
  }

  /** The checkpoint that was loaded stays in force exactly when it passes replay validation against
      the first plan's tail. */
  ghost predicate Settled(deps: Deps, policy: Option<Policy>, ask: Ask, force: bool, loaded: Option<Checkpoint>,
                          log: seq<Record>, found: Found)
  {
    && found.previous == (if found.rescanned then None else loaded)
    && Scannable(loaded, log) && PlanFor(deps, policy, ask, loaded, UnitsAfter(loaded, log), force).Ok?
    && var first := PlanFor(deps, policy, ask, loaded, UnitsAfter(loaded, log), force).value;
       found.rescanned <==> loaded.Some? && !ReplayValid(deps, ask, loaded.value, |log|, first.retained)
  }

  /** The plan is the planner's over exactly what was found; a usage anchor over the trigger forces one
      where none was due. */
  ghost predicate Planned(deps: Deps, policy: Option<Policy>, ask: Ask, force: bool, anchor: Option<nat>, found: Found)
  {
    && PlanFor(deps, policy, ask, found.previous, found.units, force || found.anchored) == Ok(found.plan)
    && PlanFor(deps, policy, ask, found.previous, found.units, force).Ok?
    && var plain := PlanFor(deps, policy, ask, found.previous, found.units, force).value;
       found.anchored <==> !plain.needsCompaction && !force && anchor.Some? && anchor.value > deps.budget.trigger
  }

  /** Scan and plan, once more from the start if the checkpoint no longer holds. */
  method ScanUsable(deps: Deps, views: Views, policy: Option<Policy>, ask: Ask, force: bool, loaded: Option<Checkpoint>,
                    canceled: (nat, nat) -> bool, ghost log: seq<Record>, ghost later: seq<Record>)
    returns (r: Result<Found, PrepareFault>)
    requires ViewsServe(views, deps.pageLimit, log, later)
    ensures r.Ok? ==>
              && Settled(deps, policy, ask, force, loaded, log, r.value)
              && FoundIn(r.value, SeenLog(r.value, log, later))
    ensures r.Ok? ==>
              && PlanFor(deps, policy, ask, r.value.previous, r.value.units, force) == Ok(r.value.plan)
              && !r.value.anchored
    ensures r.Err? ==>
              || Unplanned(deps, policy, ask, force, loaded, log, canceled(0, 0) || canceled(0, 1), r.error)
              || (loaded.Some? && Unplanned(deps, policy, ask, force, None, later, canceled(1, 0)
                                            || canceled(1, 1), r.error))
  {
    r := ScanAndPlan(deps, views.first, policy, ask, force, loaded, (n: nat) => canceled(0, n), log);
    if r.Err? {
      return;
    }
    if loaded.Some? && !ReplayValid(deps, ask, loaded.value, r.value.head, r.value.plan.retained) {
      r := ScanAndPlan(deps, views.second, policy, ask, force, None, (n: nat) => canceled(1, n), later);
      if r.Err? {
        return;
      }
      assert later[0..] == later;
      PlanIsOver(deps, policy, ask, None, r.value.units, force, later);
      r := Ok(r.value.(rescanned := true));
    } else {
      PlanIsOver(deps, policy, ask, loaded, r.value.units, force, log);
    }
  }

  /** Why there is no plan in the end: not after the loaded checkpoint, nor from the start after it was
      rejected, nor when a usage anchor over the trigger forced one. */
  predicate NoPlan(deps: Deps, policy: Option<Policy>, ask: Ask, force: bool, loaded: Option<Checkpoint>,
                   anchor: Option<nat>, canceled: (nat, nat) -> bool, log: seq<Record>, later: seq<Record>,
                   fault: PrepareFault)
  {
    || Unplanned(deps, policy, ask, force, loaded, log, canceled(0, 0) || canceled(0, 1), fault)
    || (loaded.Some? && Unplanned(deps, policy, ask, force, None, later, canceled(1, 0) || canceled(1, 1), fault))
    || (&& !force && anchor.Some? && anchor.value > deps.budget.trigger
        && (|| Unplanned(deps, policy, ask, true, loaded, log, canceled(2, 0) || canceled(2, 1), fault)
            || (loaded.Some? &&
                Unplanned(deps, policy, ask, true, None, later, canceled(2, 0) || canceled(2, 1), fault))))
  }

  lemma AnchoredPlanFails(deps: Deps, policy: Option<Policy>, ask: Ask, force: bool, loaded: Option<Checkpoint>,
                          anchor: Option<nat>, canceled: (nat, nat) -> bool, log: seq<Record>, later: seq<Record>,
                          found: Found, fault: PolicyFault)
    requires !force && anchor.Some? && anchor.value > deps.budget.trigger
    requires FoundIn(found, SeenLog(found, log, later)) && (found.rescanned ==> loaded.Some?)
    requires found.previous == if found.rescanned then None else loaded
    requires canceled(2, 0) || canceled(2, 1) ||
             PlanFor(deps, policy, ask, found.previous, found.units, true) == Err(fault)
    ensures NoPlan(deps, policy, ask, force, loaded, anchor, canceled, log, later, PlanFailed(fault))
  {
    assert Unplanned(deps, policy, ask, true, found.previous, SeenLog(found, log, later),
                     canceled(2, 0) || canceled(2, 1), PlanFailed(fault));
  }

  /** Settle on a usable checkpoint, the units after it and a plan over them. */
  method ChoosePlan(deps: Deps, views: Views, policy: Option<Policy>, ask: Ask, force: bool, loaded: Option<Checkpoint>,
                    anchor: Option<nat>, canceled: (nat, nat) -> bool, ghost log: seq<Record>, ghost later: seq<Record>)
    returns (r: Result<Found, PrepareFault>)
    requires ViewsServe(views, deps.pageLimit, log, later)
    ensures r.Ok? ==>
              && Settled(deps, policy, ask, force, loaded, log, r.value)
              && FoundIn(r.value, SeenLog(r.value, log, later))
    ensures r.Ok? ==> Planned(deps, policy, ask, force, anchor, r.value)
    ensures r.Err? ==> NoPlan(deps, policy, ask, force, loaded, anchor, canceled, log, later, r.error)
  {
    r := ScanUsable(deps, views, policy, ask, force, loaded, canceled, log, later);
    if r.Err? {
      return;
    }
    var found := r.value;
    if !found.plan.needsCompaction && !force && anchor.Some? && anchor.value > deps.budget.trigger {
      var again := PlanOnce(deps, policy, ask, true, found.previous, found.units, (n: nat) => canceled(2, n));
      if again.Err? {
        AnchoredPlanFails(deps, policy, ask, force, loaded, anchor, canceled, log, later, found, again.error);
        return Err(PlanFailed(again.error));
      }
      PlanIsOver(deps, policy, ask, found.previous, found.units, true, SeenLog(found, log, later));
      r := Ok(found.(plan := again.value, anchored := true));
    }
  }

  function PruningOf(deps: Deps): Pruning {
    PruningInForce(deps.resultHeader, deps.budget.protectedTail, deps.maxPruned, deps.budget.hardInput)
  }

  /** Prepare the next request. Whatever happened on the way (no cut, a summary, a failed summary, a
      reset, a rejected checkpoint) it carries exactly the units the checkpoint in force does not
      cover, once each and in order, paired; after a successful bracket those are the plan's. `anchor`
      is the estimate of an eligible usage anchor. */
  method PrepareContext(deps: Deps, views: Views, policy: Option<Policy>, state: State, ask: Ask, force: bool,
                        lookup: Lookup, anchor: Option<nat>, outside: Outside, canceled: (nat, nat) -> bool,
                        ghost log: seq<Record>, ghost later: seq<Record>)
    returns (r: Result<PreparedContext, PrepareFault>, ghost found: Found, ghost active: Option<Checkpoint>,
             ghost kept: seq<Unit>)
    requires ViewsServe(views, deps.pageLimit, log, later)
    ensures r == Err(GaveUp) <==> canceled(3, 0)
    ensures !canceled(3, 0) && Usable(deps, ask.sessionID, lookup).Err? ==>
              r == Err(Usable(deps, ask.sessionID, lookup).error)
    ensures r.Ok? ==> Usable(deps, ask.sessionID, lookup).Ok?
    ensures !canceled(3, 0) && Usable(deps, ask.sessionID, lookup).Ok? ==>
              var loaded := Usable(deps, ask.sessionID, lookup).value;
              match r {
                case Ok(p) =>
                  PreparedFrom(deps, policy, state, ask, force, loaded, anchor, outside, log, later, found, active,
                               kept, p)
                case Err(fault) =>
                  Unprepared(deps, policy, state, ask, force, loaded, anchor, outside, canceled, log, later, found,
                             fault)
              }
  {
    found, active, kept := Found(None, [], 0, PlanResult(false, 0, [], [], 0), false, false), None, [];
    if canceled(3, 0) {
      return Err(GaveUp), found, active, kept;
    }
    var loaded := LoadUsableCheckpoint(deps, ask.sessionID, lookup);
    if loaded.Err? {
      return Err(loaded.error), found, active, kept;
    }
    r, found, active, kept := PrepareFrom(deps, views, policy, state, ask, force, loaded.value, anchor, outside,
                                          canceled, log, later);
  }

  /** What a finished preparation comes to: `found` is settled, planned and seen in the log, and the request
      and the aggregate are those of the bracket over it. */
  ghost predicate PreparedFrom(deps: Deps, policy: Option<Policy>, state: State, ask: Ask, force: bool,
                               loaded: Option<Checkpoint>, anchor: Option<nat>, outside: Outside, log: seq<Record>,
                               later: seq<Record>, found: Found, active: Option<Checkpoint>, kept: seq<Unit>,
                               p: PreparedContext)
  {
    var seen := SeenLog(found, log, later);
    && Settled(deps, policy, ask, force, loaded, log, found) && FoundIn(found, seen)
    && Planned(deps, policy, ask, force, anchor, found)
    && p.head == |seen| && p.anchored == found.anchored
    && Sent(deps, ask, found, active, kept, seen, p.compactionRan, p.request)
    && BracketEnded(deps, ask, found, outside, seen, state, Ok(OutcomeOf(p.state, active, p.compactionRan)))
  }

  /** Why a preparation failed after the checkpoint was loaded. */
  ghost predicate Unprepared(deps: Deps, policy: Option<Policy>, state: State, ask: Ask, force: bool,
                             loaded: Option<Checkpoint>, anchor: Option<nat>, outside: Outside,
                             canceled: (nat, nat) -> bool, log: seq<Record>, later: seq<Record>, found: Found,
                             fault: PrepareFault)
  {
    match fault
    case BracketFailed(bracket) =>
      && Settled(deps, policy, ask, force, loaded, log, found) && FoundIn(found, SeenLog(found, log, later))
      && Planned(deps, policy, ask, force, anchor, found)
      && BracketEnded(deps, ask, found, outside, SeenLog(found, log, later), state, Err(bracket))
    case _ => NoPlan(deps, policy, ask, force, loaded, anchor, canceled, log, later, fault)
  }

  /** Prepare the request once the checkpoint is loaded. */
  method PrepareFrom(deps: Deps, views: Views, policy: Option<Policy>, state: State, ask: Ask, force: bool,
                     loaded: Option<Checkpoint>, anchor: Option<nat>, outside: Outside, canceled: (nat, nat) -> bool,
                     ghost log: seq<Record>, ghost later: seq<Record>)
    returns (r: Result<PreparedContext, PrepareFault>, ghost found: Found, ghost active: Option<Checkpoint>,
             ghost kept: seq<Unit>)
    requires ViewsServe(views, deps.pageLimit, log, later)
    ensures r != Err(GaveUp)
    ensures r.Ok? ==> PreparedFrom(deps, policy, state, ask, force, loaded, anchor, outside, log, later, found, active,
                                   kept, r.value)
    ensures r.Err? ==> Unprepared(deps, policy, state, ask, force, loaded, anchor, outside, canceled, log, later, found,
                                  r.error)
  {
    found, active, kept := Found(None, [], 0, PlanResult(false, 0, [], [], 0), false, false), None, [];
    var chosen := ChoosePlan(deps, views, policy, ask, force, loaded, anchor, canceled, log, later);
    if chosen.Err? {
      return Err(chosen.error), found, active, kept;
    }
    found := chosen.value;
    var sent;
    sent, active, kept := CompactAndSend(deps, views.pinned, state, ask, chosen.value, outside,
                                         SeenLog(found, log, later));
    if sent.Err? {
      return Err(BracketFailed(sent.error)), found, active, kept;
    }
    var (compacted, request) := sent.value;
    r := Ok(PreparedContext(compacted.state, compacted.ran, chosen.value.head, chosen.value.anchored, request));
  }

  function RoundOf(ask: Ask, found: Found): Round {
    Round(ask, found.head, found.previous, found.plan)
  }

  function OutcomeOf(state: State, active: Option<Checkpoint>, ran: bool): Outcome {
    Outcome(state, if ran then active else None, ran)
  }

  /** How the bracket ended if the plan asked for one: the aggregate is that over what was written, and a
      fault has its cause. */
  ghost predicate BracketEnded(deps: Deps, ask: Ask, found: Found, outside: Outside, log: seq<Record>, state: State,
                               r: Result<Outcome, BracketFault>)
  {
    if found.plan.needsCompaction then exists trace, durable, tried ::
       Ended(deps, ask, found, outside, log, state, r, trace, durable, tried)
    else r == Ok(Outcome(state, None, false))
  }

  ghost predicate Ended(deps: Deps, ask: Ask, found: Found, outside: Outside, log: seq<Record>, state: State,
                        r: Result<Outcome, BracketFault>, trace: seq<Event>, durable: State, tried: Event)
  {
    var round := RoundOf(ask, found);
    && AppendAll(ByRecords(outside.appends), state, trace) == Some(durable)
    && Bracketed(Judging(deps, round, outside, log), SettingOf(round, outside), ResetDue(deps, round, outside), r,
                 trace, durable, tried)
  }

  /** What a successful bracket promises of the checkpoint in force and the units kept. */
  ghost predicate Compacted(deps: Deps, ask: Ask, found: Found, active: Option<Checkpoint>, kept: seq<Unit>,
                            log: seq<Record>)
  {
    && active.Some? && found.plan.covered != [] && kept == found.plan.retained
    && Sound(deps, RoundOf(ask, found), log, active.value)
  }

  /** Run the bracket if the plan asks for one, then drop what the checkpoint in force covers. A plan
      is no evidence of coverage: after a failed bracket the old checkpoint stays in force. */
  method CompactAndKeep(deps: Deps, read: Reader, state: State, ask: Ask, found: Found, outside: Outside,
                        ghost log: seq<Record>)
    returns (r: Result<Outcome, BracketFault>, active: Option<Checkpoint>, kept: seq<Unit>)
    requires ServesPinned(read, log, deps.pageLimit) && Contiguous(log) && FoundIn(found, log)
    ensures r.Ok? ==>
              && Faithful(log, active, kept)
              && kept == DropCovered(found.units, ResumeSequence(CoverageOf(active)))
    ensures r.Ok? ==> if r.value.ran then Compacted(deps, ask, found, active, kept, log) else active == found.previous
    ensures BracketEnded(deps, ask, found, outside, log, state, r)
    ensures r.Ok? ==> r.value == OutcomeOf(r.value.state, active, r.value.ran)
  {
    active, kept := found.previous, found.units;
    r := Ok(Outcome(state, None, false));
    if found.plan.needsCompaction {
      ghost var trace, durable, tried;
      r, trace, durable, tried := RunCompactionBracket(deps, read, state, RoundOf(ask, found), outside, log);
      assert Ended(deps, ask, found, outside, log, state, r, trace, durable, tried);
      if r.Err? {
        return;
      }
      if r.value.checkpoint.Some? {
        active := r.value.checkpoint;
      }
    }
    if active.Some? {
      kept := DropLoop(found.units, active.value.coverage.through);
    }
    KeptIsRest(log, found.previous, active, found.plan, found.units, kept, r.value.ran);
  }

  /** The request carries the units the checkpoint in force does not cover, pruned and paired; after a
      reset without pruning it costs what the checkpoint recorded. */
  ghost predicate Sent(deps: Deps, ask: Ask, found: Found, active: Option<Checkpoint>, kept: seq<Unit>,
                       log: seq<Record>, ran: bool, request: Prepared)
  {
    var tail := Prune(PruningOf(deps).shrink, Flatten(kept), PruningOf(deps).most).messages;
    && Faithful(log, active, kept) && kept == DropCovered(found.units, ResumeSequence(CoverageOf(active)))
    && (if ran then Compacted(deps, ask, found, active, kept, log) else active == found.previous)
    && request.messages == RequestWith(deps.marker, ask.prefix, active, tail, ask.current)
    && request.totalTokens == Total(deps.price, request.messages) + deps.toolTokens
    && Paired(tail) && NoDup(Offers(kept))
    && (ran && active.value.kind == SourceTailReset && request.prunedToolResults == 0 ==>
          request.totalTokens == active.value.estimatedRequestTokens <= deps.budget.hardInput)
  }

  lemma ResetCostsItsEstimate(deps: Deps, ask: Ask, found: Found, c: Checkpoint, kept: seq<Unit>, log: seq<Record>,
                              request: Prepared)
    requires Compacted(deps, ask, found, Some(c), kept, log) && c.kind == SourceTailReset
    requires Prune(PruningOf(deps).shrink, Flatten(kept), PruningOf(deps).most).left == PruningOf(deps).most
    requires request.totalTokens == Total(deps.price, request.messages) + deps.toolTokens
    requires request.messages ==
             RequestWith(deps.marker, ask.prefix, Some(c),
                         Prune(PruningOf(deps).shrink, Flatten(kept), PruningOf(deps).most).messages, ask.current)
    ensures request.totalTokens == c.estimatedRequestTokens <= deps.budget.hardInput
  {
    PrunedNone(PruningOf(deps).shrink, Flatten(kept), PruningOf(deps).most);
  }

  method CompactAndSend(deps: Deps, read: Reader, state: State, ask: Ask, found: Found, outside: Outside,
                        ghost log: seq<Record>)
    returns (r: Result<(Outcome, Prepared), BracketFault>, ghost active: Option<Checkpoint>, ghost kept: seq<Unit>)
    requires ServesPinned(read, log, deps.pageLimit) && Contiguous(log) && FoundIn(found, log)
    ensures r.Ok? ==> Sent(deps, ask, found, active, kept, log, r.value.0.ran, r.value.1)
    ensures r.Ok? ==> BracketEnded(deps, ask, found, outside, log, state, Ok(r.value.0))
    ensures r.Ok? ==> r.value.0 == OutcomeOf(r.value.0.state, active, r.value.0.ran)
    ensures r.Err? ==> BracketEnded(deps, ask, found, outside, log, state, Err(r.error))
  {
    var compacted, inForce, tail := CompactAndKeep(deps, read, state, ask, found, outside, log);
    active, kept := inForce, tail;
    if compacted.Err? {
      return Err(compacted.error), active, kept;
    }
    var request := Assemble(deps, ask, found, inForce, tail, compacted.value.ran, log);
    r := Ok((compacted.value, request));
  }

  /** Put the request together from what is in force and kept. */
  method Assemble(deps: Deps, ask: Ask, found: Found, active: Option<Checkpoint>, kept: seq<Unit>, ran: bool,
                  ghost log: seq<Record>)
    returns (request: Prepared)
    requires FoundIn(found, log) && Faithful(log, active, kept)
    requires kept == DropCovered(found.units, ResumeSequence(CoverageOf(active)))
    requires if ran then Compacted(deps, ask, found, active, kept, log) else active == found.previous
    ensures Sent(deps, ask, found, active, kept, log, ran, request)
  {
    request := Materialize.Materialize(deps.price, deps.toolTokens, deps.marker, ask.prefix, active, kept, ask.current,
                                       PruningOf(deps));
    PreparedTailIsPaired(log, found.previous, active, kept, PruningOf(deps));
    if ran && active.value.kind == SourceTailReset && request.prunedToolResults == 0 {
      ResetCostsItsEstimate(deps, ask, found, active.value, kept, log, request);
    }
  }

  lemma KeptIsRest(log: seq<Record>, previous: Option<Checkpoint>, active: Option<Checkpoint>, plan: PlanResult,
                   units: seq<Unit>, kept: seq<Unit>, ran: bool)
    requires Contiguous(log) && PlanOver(plan, previous, log) && units == plan.covered + plan.retained
    requires if ran then active.Some? && plan.covered != [] && active.value.coverage.through == plan.coveredThrough
             else active == previous
    requires kept == if active.Some? then DropCovered(units, active.value.coverage.through) else units
    ensures Faithful(log, active, kept) && (ran ==> kept == plan.retained)
    ensures kept == DropCovered(units, ResumeSequence(CoverageOf(active)))
  {
    var p := ResumeSequence(CoverageOf(previous));
    var t := ResumeSequence(CoverageOf(active));
    if ran {
      PlanBoundary(plan, previous, log);
      BracketKeepsRetained(plan, previous, log);
    } else {
      NothingToDrop(log, p);
    }
    if Project(log).Ok? {
      RestOfResumedScan(log, p, t);
    }
  }

  /** Tool-pair safety of every prepared request: what is sent behind the checkpoint, pruned or not,
      offers each call right before its one result, and no call twice. */
  lemma PreparedTailIsPaired(log: seq<Record>, previous: Option<Checkpoint>, active: Option<Checkpoint>,
                             kept: seq<Unit>, pruning: Pruning)
    requires Scannable(previous, log)
             && kept == DropCovered(UnitsAfter(previous, log), ResumeSequence(CoverageOf(active)))
    ensures Paired(Prune(pruning.shrink, Flatten(kept), pruning.most).messages) && NoDup(Offers(kept))
  {
    var k := CoveredCount(UnitsAfter(previous, log), ResumeSequence(CoverageOf(active)));
    DropIsTail(UnitsAfter(previous, log), ResumeSequence(CoverageOf(active)));
    AnyTailIsPaired(RecordsAfter(previous, log), k);
    RequestTailIsPaired(RecordsAfter(previous, log), k, pruning.shrink, pruning.most);
  }

  // ------------------------------------------------------------ from one request to the next

  /** A checkpoint loaded from the store has the digest of what it covers. */
  lemma LoadedMatches(deps: Deps, sessionID: string, log: seq<Record>, c: Checkpoint)
    requires Contiguous(log) && c.coverage.through <= |log|
    requires Usable(deps, sessionID, LookupIn(deps.hash, deps.seed, log)) == Ok(Some(c))
    ensures Matches(deps.hash, deps.seed, log, c.coverage)
  {
    LeadingOfWhole(log, c.coverage.through);
    var chain := ChainOver(deps.hash, Chain(deps.seed, 0), log[..c.coverage.through]);
    Durable.HexRoundTrip(chain.value.digest);
  }

  /** The checkpoint a completed bracket leaves is the one every later request loads, until the next
      completion, exactly when it has no instructions to show or rendering could leave their last source
      whole. Otherwise every such request fails on it. `found` is the stream from which the checkpoint
      before was loaded, if it was; `completion` is the record the bracket's last event became. */
  lemma NextRequestLoads(deps: Deps, round: Round, log: seq<Record>, c: Checkpoint, now: Instructions.State,
                         found: seq<Record>, before: seq<Record>, completion: Record, id: string, after: seq<Record>)
    requires Sound(deps, round, log, c) && InstructionsAt(deps, log, c.coverage.through) == Ok(now)
    requires Durable.DigestTells(deps.snapshots, now.epoch, now.sources)
    requires round.previous.Some? ==> LoadedFrom(deps, round.ask.sessionID, found, round.previous.value)
    requires found <= log <= before && Contiguous(before + [completion] + after)
    requires completion.event == EndEvent(id, Ok(c)) && LatestCompleted(after).None?
    ensures Usable(deps, round.ask.sessionID, LookupIn(deps.hash, deps.seed, before + [completion] + after)) ==
            Loaded(if now.epoch == 0 || Durable.KeepsContent(deps.snapshots, now.epoch, now.sources) then Ok(c)
                   else Err(Durable.BadSnapshot))
  {
    if round.previous.Some? {
      LoadedMatches(deps, round.ask.sessionID, found, round.previous.value);
      GrownStillMatches(deps.hash, deps.seed, found, log, round.previous.value.coverage);
    }
    SoundIsLatest(deps, round, log, c, before, completion, after);
    CompletedIsReadBack(deps, round, log, c, now);
  }

  /** The checkpoint came from the store's answer over a whole stream, and claims no more than it. */
  ghost predicate LoadedFrom(deps: Deps, sessionID: string, stream: seq<Record>, c: Checkpoint) {
    && Contiguous(stream) && c.coverage.through <= |stream|
    && Usable(deps, sessionID, LookupIn(deps.hash, deps.seed, stream)) == Ok(Some(c))
  }

  lemma SoundIsLatest(deps: Deps, round: Round, log: seq<Record>, c: Checkpoint, before: seq<Record>,
                      completion: Record, after: seq<Record>)
    requires Sound(deps, round, log, c) && log <= before && Contiguous(before + [completion] + after)
    requires round.previous.Some? ==> Matches(deps.hash, deps.seed, log, round.previous.value.coverage)
    requires completion.event.ContextCompactionCompleted? && LatestCompleted(after).None?
    requires completion.event.checkpoint == Durable.RecordFromCheckpoint(c)
    ensures LookupIn(deps.hash, deps.seed, before + [completion] + after) == Stored(Durable.RecordFromCheckpoint(c))
  {
    CompletedIsLatest(deps.hash, deps.seed, CoverageOf(round.previous), log, |round.plan.covered|, c, before,
                      completion, after);
  }
}
