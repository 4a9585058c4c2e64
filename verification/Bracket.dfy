/** The compaction bracket: one start and one end for each strategy tried, a rolling summary first
    and, where it fails on a request over the hard limit, a deterministic reset. */
module Bracket {
  import opened Domain
  import opened Session
  import opened Meter
  import opened Projector
  import opened ToolPairs
  import opened Planner
  import opened ReadStream
  import opened SourceDigest
  import opened Materialize
  import opened SummaryValidation
  import opened CompactionTrace
  import Instructions
  import Summarizer
  import Durable = CheckpointRecord

  const SOURCE_SCHEMA := "och_context_source_v1"
  const SUMMARY_FORMAT := "och_context_summary_v1"
  const RESET_LIMITATIONS := "deterministic reset: no summary of the omitted history was produced"
  const SUMMARY_PROMPT := "och_context_summary_prompt_v1"

  const SUMMARY_FAILED := "context_summary_failed"
  const SUMMARY_INVALID := "context_summary_invalid"
  const CHECKPOINT_INVALID := "context_checkpoint_invalid"
  const COMPACTION_LIMIT := "context_compaction_limit"

  /** What the orchestrator works with: the meter and its budget, the digest step, the rules for
      summaries, instructions and their snapshots, and the limits. */
  datatype Deps = Deps(
    price: Message -> nat,
    toolTokens: nat,
    marker: ResetMarker,
    budget: Budget,
    hash: HashStep,
    seed: Digest,
    blank: string -> bool,
    pageLimit: nat,
    summaries: SummaryRules,
    asset: Summarizer.Asset,
    maxChunks: nat,
    instructions: Instructions.Rules,
    snapshots: Durable.SnapshotRules,
    resultHeader: (string, string) -> string,
    maxPruned: nat)

  datatype Ask = Ask(sessionID: string, prefix: seq<Message>, current: Message, trigger: Trigger)

  /** What a bracket is run for: the request, the pinned head, the checkpoint in force and the plan. */
  datatype Round = Round(ask: Ask, head: nat, previous: Option<Checkpoint>, plan: PlanResult)

  /** Everything the outside decides during one bracket: identifiers, the records appends become
      (none when an append fails), the provider's answers and the caller's context at each stage and
      look. */
  datatype Outside = Outside(
    ids: nat -> Option<string>,
    appends: nat -> Option<Record>,
    summarize: (nat, string) -> Option<Summarizer.SummaryReply>,
    canceled: (nat, nat) -> bool)

  function CoverageOf(checkpoint: Option<Checkpoint>): Option<Coverage> {
    if checkpoint.Some? then Some(checkpoint.value.coverage) else None
  }

  /** The tokens of a request that sends `units` behind `checkpoint`. */
  function Cost(deps: Deps, ask: Ask, checkpoint: Option<Checkpoint>, units: seq<Unit>): nat {
    Total(deps.price, RequestWith(deps.marker, ask.prefix, checkpoint, Flatten(units), ask.current)) + deps.toolTokens
  }

  /** The request as it is without the bracket. */
  function Uncompacted(deps: Deps, round: Round): nat {
    Cost(deps, round.ask, round.previous, round.plan.covered + round.plan.retained)
  }

  // ------------------------------------------------------------ what a plan covers

  /** What a plan covers of the scan it was made over. */
  ghost predicate PlanOver(plan: PlanResult, previous: Option<Checkpoint>, log: seq<Record>) {
    var p := ResumeSequence(CoverageOf(previous));
    && p <= |log| && Project(log[p..]).Ok?
    && Project(log[p..]).value.units == plan.covered + plan.retained
    && (plan.covered != [] ==> plan.coveredThrough == plan.covered[|plan.covered| - 1].last)
  }

  /** The store answers at the pinned head, and the plan covers something of the log it shows. */
  ghost predicate Ready(deps: Deps, read: Reader, round: Round, log: seq<Record>) {
    && ServesPinned(read, log, deps.pageLimit) && Contiguous(log) && round.head == |log|
    && PlanOver(round.plan, round.previous, log) && round.plan.covered != []
  }

  lemma PlanBoundary(plan: PlanResult, previous: Option<Checkpoint>, log: seq<Record>)
    requires Contiguous(log) && PlanOver(plan, previous, log) && plan.covered != []
    ensures ResumeSequence(CoverageOf(previous)) < plan.coveredThrough <= |log|
  {
    var p := ResumeSequence(CoverageOf(previous));
    UnitsWithin(log, p, |plan.covered| - 1);
    assert (plan.covered + plan.retained)[|plan.covered| - 1] == plan.covered[|plan.covered| - 1];
  }

  /** Some newly covered record cannot be digested. */
  ghost predicate Undigestable(deps: Deps, round: Round, log: seq<Record>) {
    var p, t := ResumeSequence(CoverageOf(round.previous)), round.plan.coveredThrough;
    p <= t <= |log| && Covering(deps.hash, deps.seed, CoverageOf(round.previous), log[p..t], round.plan.covered,
                                t).None?
  }

  /** The coverage of a checkpoint over the plan's covered units. */
  method BuildCoverage(deps: Deps, read: Reader, round: Round, canceled: nat -> bool, ghost log: seq<Record>)
    returns (r: Option<Coverage>)
    requires Ready(deps, read, round, log)
    ensures r.Some? ==> BuiltOver(deps.hash, deps.seed, CoverageOf(round.previous), log, |round.plan.covered|, r.value)
    ensures r.Some? ==> r.value.through == round.plan.coveredThrough
    ensures r.None? ==> (exists n: nat :: n <= |log| && canceled(n)) || Undigestable(deps, round, log)
  {
    var plan, p := round.plan, ResumeSequence(CoverageOf(round.previous));
    PlanBoundary(plan, round.previous, log);
    ghost var bound: nat :| Advancing(read, deps.pageLimit, bound);
    var records := ReadRange(read, deps.pageLimit, round.head, p, plan.coveredThrough, canceled, bound, log);
    if records.Err? {
      return None;
    }
    var prior := if round.previous.Some? then round.previous.value.coverage else Coverage(0, 0, 0, deps.seed);
    var chain := ExtendSourceDigestOverRecords(deps.hash, prior.digest, records.value);
    if chain.None? {
      return None;
    }
    var turns := CountTurns(plan.covered);
    r := Some(Coverage(prior.events + chain.value.count, prior.turns + turns, plan.coveredThrough, chain.value.digest));
    assert (plan.covered + plan.retained)[..|plan.covered|] == plan.covered;
  }

  // ------------------------------------------------------------ the instructions at the boundary

  function EventsOf(records: seq<Record>): seq<Event> {
    seq(|records|, i requires 0 <= i < |records| => records[i].event)
  }

  /** The instructions in force after the first `through` records of the log. */
  function InstructionsAt(deps: Deps, log: seq<Record>, through: nat): Result<Instructions.State, Instructions.Fault>
    requires through <= |log|
  {
    Instructions.Replay(deps.instructions, EventsOf(log[..through]))
  }

  /** Their snapshot; there is none before the first recorded batch. */
  ghost function SnapshotAt(deps: Deps, log: seq<Record>, through: nat): Option<Option<InstructionSnapshot>>
    requires through <= |log|
  {
    match InstructionsAt(deps, log, through)
    case Err(_) => None
    case Ok(state) =>
      Some(if state.epoch == 0 then None
           else Some(Durable.SnapshotOf(deps.snapshots, state.epoch, state.sources, through)))
  }

  method BuildInstructionSnapshot(deps: Deps, read: Reader, head: nat, through: nat, canceled: nat -> bool,
                                  ghost log: seq<Record>)
    returns (r: Option<Option<InstructionSnapshot>>)
    requires ServesPinned(read, log, deps.pageLimit) && Contiguous(log) && head == |log| && through <= |log|
    ensures r.Some? ==> r == SnapshotAt(deps, log, through)
    ensures r.None? ==> (exists n: nat :: n <= |log| && canceled(n)) || SnapshotAt(deps, log, through).None?
  {
    ghost var bound: nat :| Advancing(read, deps.pageLimit, bound);
    var records := ReadRange(read, deps.pageLimit, head, 0, through, canceled, bound, log);
    if records.Err? {
      return None;
    }
    assert records.value == log[..through];
    var state := Instructions.ReplayLoop(deps.instructions, EventsOf(records.value));
    if state.Err? {
      return None;
    }
    if state.value.epoch == 0 {
      return Some(None);
    }
    Instructions.ReplayIsKeyed(deps.instructions, Instructions.BLANK, EventsOf(records.value));
    var snapshot := Durable.RenderSnapshot(deps.snapshots, state.value.epoch, state.value.sources, through);
    r := Some(Some(snapshot));
  }

  // ------------------------------------------------------------ building checkpoints

  predicate ValidSuccessor(previous: Option<Checkpoint>, c: Checkpoint) {
    && c.sourceSchema == SOURCE_SCHEMA
    && (c.kind.RollingSummary? || c.kind.SourceTailReset?)
    && match previous
       case None => c.previousID == "" && c.coverage.events != 0
       case Some(p) =>
         && c.previousID == p.id && c.coverage.through >= p.coverage.through
         && (c.coverage.through == p.coverage.through ==> c.coverage.digest == p.coverage.digest)
  }

  /** What a checkpoint rests on: its coverage and the instructions at its boundary. */
  datatype Base = Base(coverage: Coverage, snapshot: Option<InstructionSnapshot>)

  ghost predicate Founded(deps: Deps, round: Round, log: seq<Record>, base: Base) {
    && BuiltOver(deps.hash, deps.seed, CoverageOf(round.previous), log, |round.plan.covered|, base.coverage)
    && base.coverage.through == round.plan.coveredThrough
    && SnapshotAt(deps, log, base.coverage.through) == Some(base.snapshot)
  }

  /** The caller was found canceled at one of the looks a read of the log takes. */
  predicate CanceledAt(canceled: (nat, nat) -> bool, stage: nat, length: nat) {
    exists n: nat :: n <= length && canceled(stage, n)
  }

  /** Why there is no base: the caller gave up, a record cannot be digested, or the recorded
      instructions do not replay. */
  ghost predicate Unfounded(deps: Deps, round: Round, log: seq<Record>, canceled: (nat, nat) -> bool, stage: nat) {
    || CanceledAt(canceled, stage, |log|) || CanceledAt(canceled, stage + 1, |log|)
    || Undigestable(deps, round, log)
    || (round.plan.coveredThrough <= |log| && SnapshotAt(deps, log, round.plan.coveredThrough).None?)
  }

  method BuildBase(deps: Deps, read: Reader, round: Round, canceled: (nat, nat) -> bool, stage: nat,
                   ghost log: seq<Record>)
    returns (r: Option<Base>)
    requires Ready(deps, read, round, log)
    ensures r.Some? ==> Founded(deps, round, log, r.value)
    ensures r.None? ==> Unfounded(deps, round, log, canceled, stage)
  {
    PlanBoundary(round.plan, round.previous, log);
    var coverage := BuildCoverage(deps, read, round, (n: nat) => canceled(stage, n), log);
    if coverage.None? {
      return None;
    }
    var snapshot := BuildInstructionSnapshot(deps, read, round.head, round.plan.coveredThrough,
                                             (n: nat) => canceled(stage + 1, n), log);
    if snapshot.None? {
      return None;
    }
    r := Some(Base(coverage.value, snapshot.value));
  }

  /** What every checkpoint a bracket returns satisfies: sound coverage, the instructions in force at
      its boundary, a valid place in the lineage and true prices. */
  ghost predicate Sound(deps: Deps, round: Round, log: seq<Record>, c: Checkpoint) {
    && Founded(deps, round, log, Base(c.coverage, c.snapshot))
    && c.sessionID == round.ask.sessionID && ValidSuccessor(round.previous, c)
    && c.tokensBefore == Uncompacted(deps, round)
    && c.checkpointTokens == Total(deps.price, CheckpointMessages(deps.marker, Some(c)))
    && c.retainedTailTokens == Total(deps.price, Flatten(round.plan.retained))
    && (c.kind.RollingSummary? ==> exists raw :: Validated(deps, round, c, raw))
    && (c.kind.SourceTailReset? ==>
        c.estimatedRequestTokens == Cost(deps, round.ask, Some(c), round.plan.retained) <= deps.budget.hardInput)
  }

  /** The fields the two kinds of checkpoint have in common. */
  function NewCheckpoint(deps: Deps, round: Round, id: string, kind: CheckpointKind, base: Base): Checkpoint {
    Checkpoint(id, round.ask.sessionID, kind, SOURCE_SCHEMA, "", "", base.coverage,
               if round.previous.Some? then round.previous.value.id else "", "", "",
               Uncompacted(deps, round), 0, Total(deps.price, Flatten(round.plan.retained)), 0, "", 0, 0, 0,
               base.snapshot)
  }

  /** A checkpoint over a sound base fails to succeed only where it would be the first and cover no
      source event. */
  lemma FoundedSucceeds(deps: Deps, round: Round, id: string, kind: CheckpointKind, base: Base, log: seq<Record>)
    requires Founded(deps, round, log, base) && (kind.RollingSummary? || kind.SourceTailReset?)
    ensures ValidSuccessor(round.previous, NewCheckpoint(deps, round, id, kind, base)) ||
            (round.previous.None? && base.coverage.events == 0)
  {
    if round.previous.Some? {
      var p, t := round.previous.value.coverage.through, base.coverage.through;
      assert p == t ==> log[p..t] == [];
    }
  }

  // ------------------------------------------------------------ a rolling summary

  /** Intermediate chunks are validated against what they cover, not against a request. */
  function ChunkValidator(deps: Deps): (Summarizer.Chunk, string) -> Option<string> {
    (c: Summarizer.Chunk, raw: string) =>
      ValidateSummary(deps.summaries, deps.price, raw,
                      Costs(1, 0, MAX_UINT64, Total(deps.price, Flatten(c.units)), deps.budget.summaryOutputCap))
  }

  /** Unless a number of chunks is set, one is allowed. */
  function ChunksAllowed(deps: Deps): nat {
    if deps.maxChunks == 0 then 1 else deps.maxChunks
  }

  function JobFor(deps: Deps, round: Round, focus: string,
                  summarize: (nat, string) -> Option<Summarizer.SummaryReply>): Summarizer.Job
  {
    Summarizer.JobOf(deps.asset, deps.budget.hardInput, ChunksAllowed(deps), round.previous, round.plan.covered, focus,
                     summarize, ChunkValidator(deps))
  }

  /** The checkpoint carries the redacted text of a well-shaped summary that is small, within its cap and
      cheaper than the conversation it replaces. With the text as it came, the request fits and is at
      least a tenth cheaper than before; that is the estimate recorded. */
  predicate Validated(deps: Deps, round: Round, c: Checkpoint, raw: string) {
    var tokens := deps.price(TextMessage(User, c.summary));
    && deps.summaries.shaped(raw) && c.summary == deps.summaries.redact(raw)
    && ByteLength(c.summary) <= MAX_SUMMARY_BYTES && tokens <= deps.budget.summaryOutputCap
    && tokens < Total(deps.price, Flatten(Summarizer.ConversationUnits(round.plan.covered)))
    && c.estimatedRequestTokens == Cost(deps, round.ask, Some(c.(summary := raw)), round.plan.retained)
    && c.estimatedRequestTokens <= deps.budget.hardInput
    && c.estimatedRequestTokens * 10 <= Uncompacted(deps, round) * 9
  }

  function FaultCode(fault: Summarizer.SummaryFault): string {
    match fault
    case LimitExceeded => COMPACTION_LIMIT
    case SummaryFailed => SUMMARY_FAILED
    case SummaryInvalid => SUMMARY_INVALID
  }

  /** The checkpoint carries the answer to a summarization of what it covers, as validated. */
  ghost predicate Summarizes(deps: Deps, round: Round, focus: string, outside: Outside, c: Checkpoint,
                             sent: seq<Summarizer.Chunk>, raw: string)
  {
    && Summarizer.Concluded(JobFor(deps, round, focus, outside.summarize),
                            Ok(Summarizer.Summary(raw, c.summaryChunks, c.summarizerUsage)), sent)
    && Validated(deps, round, c, raw)
  }

  /** Why a summary checkpoint was not built: the summarization failed, or it succeeded and what it rests
      on could not be had, its answer did not pass, or the checkpoint could not be a successor. */
  ghost predicate SummaryRefused(deps: Deps, round: Round, id: string, focus: string, outside: Outside,
                                 log: seq<Record>, sent: seq<Summarizer.Chunk>, code: string)
  {
    var job := JobFor(deps, round, focus, outside.summarize);
    || (exists fault :: code == FaultCode(fault) && Summarizer.Concluded(job, Err(fault), sent))
    || (exists summary :: Summarizer.Concluded(job, Ok(summary), sent) &&
                          SummaryWasted(deps, round, id, outside, log, summary, code))
  }

  ghost predicate SummaryWasted(deps: Deps, round: Round, id: string, outside: Outside, log: seq<Record>,
                                summary: Summarizer.Summary, code: string)
  {
    || (code == SUMMARY_FAILED && Unfounded(deps, round, log, outside.canceled, 0))
    || (exists base :: Founded(deps, round, log, base) && Declined(deps, round, id, base, summary, code))
  }

  /** Its answer does not pass; or it does, and the identifier is blank or the checkpoint would be the
      first and cover no source event. */
  predicate Declined(deps: Deps, round: Round, id: string, base: Base, summary: Summarizer.Summary, code: string) {
    if Unconvincing(deps, round, id, base, summary.text) then code == SUMMARY_INVALID
    else code == SUMMARY_FAILED && (deps.blank(id) || (round.previous.None? && base.coverage.events == 0))
  }

  /** The summary checkpoint before its text is validated. */
  function SummaryDraft(deps: Deps, round: Round, id: string, base: Base, text: string): Checkpoint {
    NewCheckpoint(deps, round, "checkpoint-" + id, RollingSummary, base)
      .(summaryFormat := SUMMARY_FORMAT, promptVersion := SUMMARY_PROMPT, summary := text)
  }

  function SummaryCosts(deps: Deps, round: Round, id: string, base: Base, raw: string): Costs {
    Costs(Uncompacted(deps, round),
          Cost(deps, round.ask, Some(SummaryDraft(deps, round, id, base, raw)), round.plan.retained),
          deps.budget.hardInput, Total(deps.price, Flatten(Summarizer.ConversationUnits(round.plan.covered))),
          deps.budget.summaryOutputCap)
  }

  /** The text does not pass its validation. */
  predicate Unconvincing(deps: Deps, round: Round, id: string, base: Base, raw: string) {
    ValidateSummary(deps.summaries, deps.price, raw, SummaryCosts(deps, round, id, base, raw)).None?
  }

  method BuildSummaryCheckpoint(deps: Deps, read: Reader, round: Round, id: string, focus: string, outside: Outside,
                                ghost log: seq<Record>)
    returns (r: Result<Checkpoint, string>, ghost sent: seq<Summarizer.Chunk>, ghost raw: string)
    requires Ready(deps, read, round, log)
    ensures r.Ok? ==> r.value.kind == RollingSummary && Sound(deps, round, log, r.value)
    ensures r.Ok? ==> Summarizes(deps, round, focus, outside, r.value, sent, raw)
    ensures r.Err? ==> SummaryRefused(deps, round, id, focus, outside, log, sent, r.error)
  {
    var summary;
    raw := "";
    summary, sent := Summarizer.SummarizeChunks(deps.asset, deps.budget.hardInput, ChunksAllowed(deps), round.previous,
                                                round.plan.covered, focus, outside.summarize, ChunkValidator(deps));
    if summary.Err? {
      return Err(FaultCode(summary.error)), sent, raw;
    }
    raw := summary.value.text;
    var base := BuildBase(deps, read, round, outside.canceled, 0, log);
    if base.None? {
      assert SummaryWasted(deps, round, id, outside, log, summary.value, SUMMARY_FAILED);
      return Err(SUMMARY_FAILED), sent, raw;
    }
    r := Finished(deps, round, id, base.value, summary.value);
    if r.Ok? {
      FinishedIsSound(deps, round, id, base.value, summary.value, log);
      FinishedCarries(deps, round, id, base.value, summary.value);
    } else {
      UnfinishedIsWasted(deps, round, id, base.value, summary.value, outside, log);
    }
  }

  /** The finished summary checkpoint. */
  function SummaryCheckpoint(deps: Deps, round: Round, id: string, base: Base, summary: Summarizer.Summary,
                             text: string): Checkpoint
  {
    SummaryDraft(deps, round, id, base, text)
      .(checkpointTokens := Total(deps.price, [TextMessage(User, text)] + SnapshotMessages(base.snapshot)),
        estimatedRequestTokens := SummaryCosts(deps, round, id, base, summary.text).after,
        summarizerUsage := summary.usage, summaryChunks := summary.chunks)
  }

  lemma SummaryIsSound(deps: Deps, round: Round, id: string, base: Base, summary: Summarizer.Summary, text: string,
                       log: seq<Record>)
    requires Founded(deps, round, log, base)
    requires ValidSuccessor(round.previous, SummaryCheckpoint(deps, round, id, base, summary, text))
    requires Validated(deps, round, SummaryCheckpoint(deps, round, id, base, summary, text), summary.text)
    ensures Sound(deps, round, log, SummaryCheckpoint(deps, round, id, base, summary, text))
  {
  }

  lemma SummaryIsValidated(deps: Deps, round: Round, id: string, base: Base, summary: Summarizer.Summary, text: string)
    requires ValidateSummary(deps.summaries, deps.price, summary.text,
                             SummaryCosts(deps, round, id, base, summary.text)) == Some(text)
    ensures Validated(deps, round, SummaryCheckpoint(deps, round, id, base, summary, text), summary.text)
  {
    var c := SummaryCheckpoint(deps, round, id, base, summary, text);
    assert CheckpointMessages(deps.marker, Some(c.(summary := summary.text))) ==
           CheckpointMessages(deps.marker, Some(SummaryDraft(deps, round, id, base, summary.text)));
  }

  /** Validate the final text and put the checkpoint together. */
  function Finished(deps: Deps, round: Round, id: string, base: Base,
                    summary: Summarizer.Summary): Result<Checkpoint, string>
  {
    match ValidateSummary(deps.summaries, deps.price, summary.text, SummaryCosts(deps, round, id, base, summary.text))
    case None => Err(SUMMARY_INVALID)
    case Some(text) =>
      var c := SummaryCheckpoint(deps, round, id, base, summary, text);
      if deps.blank(id) || !ValidSuccessor(round.previous, c) then Err(SUMMARY_FAILED) else Ok(c)
  }

  /** A finished checkpoint carries a text that passed validation. */
  lemma FinishedText(deps: Deps, round: Round, id: string, base: Base, summary: Summarizer.Summary)
    returns (text: string)
    requires Finished(deps, round, id, base, summary).Ok?
    ensures ValidateSummary(deps.summaries, deps.price, summary.text, SummaryCosts(deps, round, id, base, summary.text))
              == Some(text)
    ensures Finished(deps, round, id, base, summary).value == SummaryCheckpoint(deps, round, id, base, summary, text)
    ensures ValidSuccessor(round.previous, SummaryCheckpoint(deps, round, id, base, summary, text))
  {
    var costs := SummaryCosts(deps, round, id, base, summary.text);
    text := ValidateSummary(deps.summaries, deps.price, summary.text, costs).value;
  }

  lemma FinishedIsSound(deps: Deps, round: Round, id: string, base: Base, summary: Summarizer.Summary, log: seq<Record>)
    requires Founded(deps, round, log, base) && Finished(deps, round, id, base, summary).Ok?
    ensures Sound(deps, round, log, Finished(deps, round, id, base, summary).value)
    ensures Validated(deps, round, Finished(deps, round, id, base, summary).value, summary.text)
  {
    var text := FinishedText(deps, round, id, base, summary);
    SummaryIsValidated(deps, round, id, base, summary, text);
    SummaryIsSound(deps, round, id, base, summary, text, log);
  }

  lemma FinishedCarries(deps: Deps, round: Round, id: string, base: Base, summary: Summarizer.Summary)
    requires Finished(deps, round, id, base, summary).Ok?
    ensures var c := Finished(deps, round, id, base, summary).value;
            c.kind == RollingSummary && c.summaryChunks == summary.chunks && c.summarizerUsage == summary.usage
  {
  }

  lemma UnfinishedIsWasted(deps: Deps, round: Round, id: string, base: Base, summary: Summarizer.Summary,
                           outside: Outside, log: seq<Record>)
    requires Founded(deps, round, log, base) && Finished(deps, round, id, base, summary).Err?
    ensures SummaryWasted(deps, round, id, outside, log, summary, Finished(deps, round, id, base, summary).error)
  {
    FoundedSucceeds(deps, round, "checkpoint-" + id, RollingSummary, base, log);
    UnfinishedIsDeclined(deps, round, id, base, summary);
  }

  lemma UnfinishedIsDeclined(deps: Deps, round: Round, id: string, base: Base, summary: Summarizer.Summary)
    requires Finished(deps, round, id, base, summary).Err?
    requires ValidSuccessor(round.previous, NewCheckpoint(deps, round, "checkpoint-" + id, RollingSummary, base)) ||
             (round.previous.None? && base.coverage.events == 0)
    ensures Declined(deps, round, id, base, summary, Finished(deps, round, id, base, summary).error)
  {
  }

  /** The estimate is taken on the text as it came, the request carries it redacted: the two agree
      exactly when redaction keeps the price, and the request is over by what redaction adds. */
  lemma RedactionMovesTheCost(deps: Deps, round: Round, c: Checkpoint, raw: string)
    requires c.kind == RollingSummary && Validated(deps, round, c, raw)
    ensures Cost(deps, round.ask, Some(c), round.plan.retained) + deps.price(TextMessage(User, raw)) ==
            c.estimatedRequestTokens + deps.price(TextMessage(User, c.summary))
    ensures Cost(deps, round.ask, Some(c), round.plan.retained) == c.estimatedRequestTokens <==>
            deps.price(TextMessage(User, c.summary)) == deps.price(TextMessage(User, raw))
  {
    SummaryCost(deps, round, c);
    SummaryCost(deps, round, c.(summary := raw));
  }

  /** So a validated summary may still exceed the hard limit: for every redaction that makes some text
      dearer to the wire meter, with a limit that the text as it came just meets. */
  lemma RedactionMayOverrun(deps: Deps, c: Checkpoint, raw: string)
    requires deps.summaries.shaped(raw) && ByteLength(deps.summaries.redact(raw)) <= MAX_SUMMARY_BYTES
    requires WirePrice(raw) < WirePrice(deps.summaries.redact(raw))
    ensures var tight, round, summary := TightDeps(deps, raw), TightRound(deps, raw), TightSummary(deps, c, raw);
            && tight.price == MessageTokens && tight.summaries == deps.summaries && summary.kind == RollingSummary
            && Validated(tight, round, summary, raw)
            && Cost(tight, round.ask, Some(summary), round.plan.retained) > tight.budget.hardInput
  {
    var tight, round, summary := TightDeps(deps, raw), TightRound(deps, raw), TightSummary(deps, c, raw);
    TightCost(deps, summary, raw);
    TightCost(deps, summary.(summary := raw), raw);
    TightHistory(deps, raw);
  }

  /** What a text costs as a message of its own, by the wire meter. */
  function WirePrice(text: string): nat {
    MessageTokens(TextMessage(User, text))
  }

  function TightDeps(deps: Deps, raw: string): Deps {
    deps.(price := MessageTokens, toolTokens := 0,
          budget := Budget(WirePrice(raw), 1, 1, 1, WirePrice(deps.summaries.redact(raw))))
  }

  /** A turn dear enough to be worth replacing. */
  function LongTurn(deps: Deps, raw: string): Message {
    TextMessage(User, Durable.As(3 * (10 * WirePrice(raw) + WirePrice(deps.summaries.redact(raw)))))
  }

  function TightRound(deps: Deps, raw: string): Round {
    Round(Ask("", [], TextMessage(Unset, ""), PreTurn), 1, None,
          PlanResult(true, 1, [Unit(TurnUnit, "", 1, 1, [LongTurn(deps, raw)])], [], 0))
  }

  function TightSummary(deps: Deps, c: Checkpoint, raw: string): Checkpoint {
    c.(kind := RollingSummary, summary := deps.summaries.redact(raw), snapshot := None,
       estimatedRequestTokens := WirePrice(raw))
  }

  /** There the request is the summary alone. */
  lemma TightCost(deps: Deps, s: Checkpoint, raw: string)
    requires s.kind == RollingSummary && s.snapshot.None?
    ensures Cost(TightDeps(deps, raw), TightRound(deps, raw).ask, Some(s), []) == WirePrice(s.summary)
  {
    SummaryCost(TightDeps(deps, raw), TightRound(deps, raw), s);
    assert SnapshotMessages(None) + Flatten([]) + CurrentMessages(TextMessage(Unset, "")) == [];
  }

  lemma {:induction false} BytesOfAs(n: nat)
    ensures ByteLength(Durable.As(n)) == n
  {
    if n > 0 {
      BytesOfAs(n - 1);
      assert Durable.As(n)[1..] == Durable.As(n - 1);
    }
  }

  /** And the request it replaces is the long turn. */
  lemma TightHistory(deps: Deps, raw: string)
    ensures var dear := 10 * WirePrice(raw) + WirePrice(deps.summaries.redact(raw));
            && Uncompacted(TightDeps(deps, raw), TightRound(deps, raw)) > dear
            && Total(MessageTokens, Flatten(Summarizer.ConversationUnits(TightRound(deps, raw).plan.covered))) > dear
  {
    var turn, plan := LongTurn(deps, raw), TightRound(deps, raw).plan;
    BytesOfAs(3 * (10 * WirePrice(raw) + WirePrice(deps.summaries.redact(raw))));
    assert plan.covered[1..] == [] && Summarizer.ConversationUnits(plan.covered) == plan.covered;
    assert Flatten(plan.covered) == [turn] && plan.covered + [] == plan.covered;
    assert [turn][1..] == [] && [] + [] + [turn] + [] == [turn];
  }

  lemma SummaryCost(deps: Deps, round: Round, c: Checkpoint)
    requires c.kind == RollingSummary
    ensures Cost(deps, round.ask, Some(c), round.plan.retained) ==
            Total(deps.price, round.ask.prefix) + deps.price(TextMessage(User, c.summary))
            + Total(deps.price, SnapshotMessages(c.snapshot) + Flatten(round.plan.retained)
                    + CurrentMessages(round.ask.current))
            + deps.toolTokens
  {
    var a, m := round.ask.prefix, [TextMessage(User, c.summary)];
    var s, t, u := SnapshotMessages(c.snapshot), Flatten(round.plan.retained), CurrentMessages(round.ask.current);
    assert a + (m + s) + t + u == a + (m + (s + t + u));
    TotalAdditive(deps.price, a, m + (s + t + u));
    TotalAdditive(deps.price, m, s + t + u);
    assert m[1..] == [];
  }

  // ------------------------------------------------------------ a reset

  /** Why a reset checkpoint was not built: the identifier is blank, what it rests on could not be had, it
      would be the first and cover no source event, or its request is over the hard limit. */
  ghost predicate ResetRefused(deps: Deps, round: Round, id: string, canceled: (nat, nat) -> bool, log: seq<Record>) {
    || deps.blank(id) || Unfounded(deps, round, log, canceled, 3)
    || (exists base :: Founded(deps, round, log, base) && ResetDeclined(deps, round, id, base))
  }

  predicate ResetDeclined(deps: Deps, round: Round, id: string, base: Base) {
    || (round.previous.None? && base.coverage.events == 0)
    || Cost(deps, round.ask, Some(NewCheckpoint(deps, round, "checkpoint-" + id, SourceTailReset, base)),
            round.plan.retained) > deps.budget.hardInput
  }

  method BuildResetCheckpoint(deps: Deps, read: Reader, round: Round, id: string, outside: Outside,
                              ghost log: seq<Record>)
    returns (r: Result<Checkpoint, string>)
    requires Ready(deps, read, round, log)
    ensures r.Ok? ==> r.value.kind == SourceTailReset && Sound(deps, round, log, r.value)
    ensures r.Err? ==> r.error == CHECKPOINT_INVALID && ResetRefused(deps, round, id, outside.canceled, log)
  {
    if deps.blank(id) {
      return Err(CHECKPOINT_INVALID);
    }
    var base := BuildBase(deps, read, round, outside.canceled, 3, log);
    if base.None? {
      return Err(CHECKPOINT_INVALID);
    }
    var messages := ResetMessages(deps, round, id, base.value);
    var request := round.ask.prefix + messages + Flatten(round.plan.retained) + CurrentMessages(round.ask.current);
    var tokens := Total(deps.price, request) + deps.toolTokens;
    ResetRequest(deps, round, id, base.value, log);
    if tokens > deps.budget.hardInput {
      return Err(CHECKPOINT_INVALID);
    }
    var c := ResetCheckpoint(deps, round, id, base.value, tokens);
    FoundedSucceeds(deps, round, "checkpoint-" + id, SourceTailReset, base.value, log);
    if !ValidSuccessor(round.previous, c) {
      return Err(CHECKPOINT_INVALID);
    }
    ResetIsSound(deps, round, id, base.value, tokens, log);
    r := Ok(c);
  }

  function ResetMessages(deps: Deps, round: Round, id: string, base: Base): seq<Message> {
    [TextMessage(User, deps.marker("checkpoint-" + id, round.plan.coveredThrough))] + SnapshotMessages(base.snapshot)
  }

  function ResetCheckpoint(deps: Deps, round: Round, id: string, base: Base, tokens: nat): Checkpoint {
    NewCheckpoint(deps, round, "checkpoint-" + id, SourceTailReset, base)
      .(limitations := RESET_LIMITATIONS, checkpointTokens := Total(deps.price, ResetMessages(deps, round, id, base)),
        estimatedRequestTokens := tokens)
  }

  lemma ResetRequest(deps: Deps, round: Round, id: string, base: Base, log: seq<Record>)
    requires Founded(deps, round, log, base)
    ensures CheckpointMessages(deps.marker,
                               Some(NewCheckpoint(deps, round, "checkpoint-" + id, SourceTailReset, base))) ==
            ResetMessages(deps, round, id, base)
  {
  }

  lemma ResetIsSound(deps: Deps, round: Round, id: string, base: Base, tokens: nat, log: seq<Record>)
    requires Founded(deps, round, log, base)
    requires ValidSuccessor(round.previous, ResetCheckpoint(deps, round, id, base, tokens))
    requires tokens <= deps.budget.hardInput
    requires tokens == Total(deps.price, round.ask.prefix + ResetMessages(deps, round, id, base) +
                                         Flatten(round.plan.retained) + CurrentMessages(round.ask.current)) +
                       deps.toolTokens
    ensures Sound(deps, round, log, ResetCheckpoint(deps, round, id, base, tokens))
  {
    var c := ResetCheckpoint(deps, round, id, base, tokens);
    assert CheckpointMessages(deps.marker, Some(c)) == ResetMessages(deps, round, id, base);
  }

  // ------------------------------------------------------------ the bracket

  /** A reset is attempted only for a request over the hard limit that the reset would bring under it. */
  predicate ResetEligible(deps: Deps, round: Round, uncompacted: nat, canceled: bool) {
    var marker := TextMessage(User, deps.marker("pending", round.plan.coveredThrough));
    var request := round.ask.prefix + [marker] + Flatten(round.plan.retained) + CurrentMessages(round.ask.current);
    && !canceled && round.plan.covered != [] && uncompacted > deps.budget.hardInput
    && Total(deps.price, request) + deps.toolTokens <= deps.budget.hardInput
  }

  /** What was built is sound and of its kind, or there is a reason why not. */
  ghost predicate Justified(deps: Deps, round: Round, outside: Outside, log: seq<Record>, strategy: Strategy,
                            id: string, built: Result<Checkpoint, string>)
  {
    match built
    case Ok(c) =>
      && Sound(deps, round, log, c) && (c.kind == SourceTailReset <==> strategy == ResetStrategy)
      && (strategy == SummaryStrategy ==> exists sent, raw :: Summarizes(deps, round, "", outside, c, sent, raw))
    case Err(code) =>
      if strategy == ResetStrategy
      then code == CHECKPOINT_INVALID && ResetRefused(deps, round, id, outside.canceled, log)
      else exists sent :: SummaryRefused(deps, round, id, "", outside, log, sent, code)
  }

  method Build(deps: Deps, read: Reader, round: Round, strategy: Strategy, id: string, outside: Outside,
               ghost log: seq<Record>)
    returns (r: Result<Checkpoint, string>)
    requires Ready(deps, read, round, log)
    ensures Justified(deps, round, outside, log, strategy, id, r)
  {
    if strategy == ResetStrategy {
      r := BuildResetCheckpoint(deps, read, round, id, outside, log);
    } else {
      ghost var sent, raw;
      r, sent, raw := BuildSummaryCheckpoint(deps, read, round, id, "", outside, log);
    }
  }

  ghost function Judging(deps: Deps, round: Round, outside: Outside, log: seq<Record>): Judge {
    (strategy: Strategy, id: string, built: Result<Checkpoint, string>) =>
      Justified(deps, round, outside, log, strategy, id, built)
  }

  function SettingOf(round: Round, outside: Outside): Setting {
    Setting(round.ask.trigger, outside.ids, ByRecords(outside.appends))
  }

  /** Whether a reset may follow a failed summary. */
  predicate ResetDue(deps: Deps, round: Round, outside: Outside) {
    !outside.canceled(2, 0) && Uncompacted(deps, round) > deps.budget.hardInput
  }

  /** The judge follows what can be justified. */
  ghost predicate Follows(judge: Judge, deps: Deps, round: Round, outside: Outside, log: seq<Record>) {
    forall strategy, id, built :: Justified(deps, round, outside, log, strategy, id, built) ==>
      judge(strategy, id, built)
  }

  /** One strategy: its start, its checkpoint and its end. `before` is what was written before, on `start`. */
  method RunStrategy(deps: Deps, read: Reader, state: State, round: Round, strategy: Strategy, written: nat,
                     outside: Outside, setting: Setting, ghost judge: Judge, ghost log: seq<Record>, ghost start: State,
                     ghost before: seq<Event>)
    returns (r: Result<Outcome, BracketFault>, ghost trace: seq<Event>, ghost durable: State, ghost tried: Event)
    requires Ready(deps, read, round, log) && Closing(setting.append) && Follows(judge, deps, round, outside, log)
    requires written == |before| && AppendAll(setting.append, start, before) == Some(state)
    ensures AppendAll(setting.append, start, trace) == Some(durable)
    ensures Strategized(judge, setting, strategy, state, before, r, trace, durable, tried)
  {
    var begun;
    begun, tried := OpenBracket(setting, strategy, state, written, judge, start, before);
    if begun.Err? {
      return Err(begun.error), before, state, tried;
    }
    var id := begun.value.0;
    var built := Build(deps, read, round, strategy, id, outside, log);
    r, trace, durable, tried := CloseBracket(setting, strategy, id, begun.value.1, written, built, judge, state, start,
                                             before);
  }

  /** The two strategies in turn. */
  method RunStrategies(deps: Deps, read: Reader, state: State, round: Round, outside: Outside, setting: Setting,
                       ghost judge: Judge, ghost log: seq<Record>)
    returns (r: Result<Outcome, BracketFault>, ghost trace: seq<Event>, ghost durable: State, ghost tried: Event)
    requires Ready(deps, read, round, log) && Closing(setting.append) && Follows(judge, deps, round, outside, log)
    ensures AppendAll(setting.append, state, trace) == Some(durable)
    ensures Bracketed(judge, setting, ResetDue(deps, round, outside), r, trace, durable, tried)
  {
    r, trace, durable, tried := RunStrategy(deps, read, state, round, SummaryStrategy, 0, outside, setting, judge, log,
                                            state, []);
    SummaryAlone(judge, setting, ResetDue(deps, round, outside), state, r, trace, durable, tried);
    if r.Err? || r.value.ran {
      return;
    }
    var uncompacted := Uncompacted(deps, round);
    var callerCanceled := outside.canceled(2, 0);
    if callerCanceled || uncompacted <= deps.budget.hardInput
       || !ResetEligible(deps, round, uncompacted, callerCanceled) {
      return;
    }
    ghost var summary, failed := trace, durable;
    r, trace, durable, tried :=
      RunStrategy(deps, read, r.value.state, round, ResetStrategy, 2, outside, setting, judge, log, state, summary);
    ResetAfterSummary(judge, setting, failed, summary, r, trace, durable, tried);
  }

  /** Compaction brackets always close: unless an append failed none is left open, at most two were
      written, each ended as its checkpoint justly turned out, and a checkpoint returned is that of the
      last one. `durable` is the aggregate over what was written. */
  method RunCompactionBracket(deps: Deps, read: Reader, state: State, round: Round, outside: Outside,
                              ghost log: seq<Record>)
    returns (r: Result<Outcome, BracketFault>, ghost trace: seq<Event>, ghost durable: State, ghost tried: Event)
    requires ServesPinned(read, log, deps.pageLimit) && Contiguous(log) && round.head == |log|
    requires PlanOver(round.plan, round.previous, log)
    ensures AppendAll(ByRecords(outside.appends), state, trace) == Some(durable)
    ensures Bracketed(Judging(deps, round, outside, log), SettingOf(round, outside), ResetDue(deps, round, outside), r,
                      trace, durable, tried)
    ensures round.plan.covered == [] ==> r == Ok(Outcome(state, None, false))
    ensures round.plan.covered == [] ==> trace == []
    ensures r.Ok? ==> (r.value.ran <==> r.value.checkpoint.Some?)
    ensures r.Ok? && r.value.ran ==> round.plan.covered != [] && Sound(deps, round, log, r.value.checkpoint.value)
    ensures r.Ok? && r.value.ran ==> (r.value.checkpoint.value.kind == SourceTailReset <==> |trace| == 4)
  {
    trace, durable, tried := [], state, UnknownEvent;
    if round.plan.covered == [] {
      return Ok(Outcome(state, None, false)), trace, durable, tried;
    }
    RecordsClose(outside.appends);
    JudgingFollows(deps, round, outside, log);
    r, trace, durable, tried := RunStrategies(deps, read, state, round, outside, SettingOf(round, outside),
                                              Judging(deps, round, outside, log), log);
    if r.Ok? {
      OutcomeIsSound(deps, round, outside, log, r.value, trace, durable, tried);
    }
  }

  lemma JudgingFollows(deps: Deps, round: Round, outside: Outside, log: seq<Record>)
    ensures Follows(Judging(deps, round, outside, log), deps, round, outside, log)
  {
  }

  lemma OutcomeIsSound(deps: Deps, round: Round, outside: Outside, log: seq<Record>, o: Outcome, trace: seq<Event>,
                       durable: State, tried: Event)
    requires Bracketed(Judging(deps, round, outside, log), SettingOf(round, outside), ResetDue(deps, round, outside),
                       Ok(o), trace, durable, tried)
    ensures o.ran <==> o.checkpoint.Some?
    ensures o.ran ==> Sound(deps, round, log, o.checkpoint.value)
    ensures o.ran ==> (o.checkpoint.value.kind == SourceTailReset <==> |trace| == 4)
  {
    OutcomeIsSealed(Judging(deps, round, outside, log), SettingOf(round, outside), ResetDue(deps, round, outside), o,
                    trace, durable, tried);
    if o.ran {
      JudgedIsSound(deps, round, outside, log, LastStrategy(trace),
                    IdFor(SettingOf(round, outside), LastStrategy(trace)).value, o.checkpoint.value);
    }
  }

  lemma JudgedIsSound(deps: Deps, round: Round, outside: Outside, log: seq<Record>, strategy: Strategy, id: string,
                      c: Checkpoint)
    requires Judging(deps, round, outside, log)(strategy, id, Ok(c))
    ensures Sound(deps, round, log, c) && (c.kind == SourceTailReset <==> strategy == ResetStrategy)
  {
  }

  // ------------------------------------------------------------ what a completed bracket leaves

  /** The record of a completed bracket is read back as the checkpoint exactly when it has no
      instructions to show or rendering could leave their last source whole; otherwise every later
      request of the session finds it unusable. */
  lemma CompletedIsReadBack(deps: Deps, round: Round, log: seq<Record>, c: Checkpoint, now: Instructions.State)
    requires Sound(deps, round, log, c) && InstructionsAt(deps, log, c.coverage.through) == Ok(now)
    requires Durable.DigestTells(deps.snapshots, now.epoch, now.sources)
    ensures Durable.CheckpointFromRecord(deps.snapshots, round.ask.sessionID, Durable.RecordFromCheckpoint(c)) ==
            if now.epoch == 0 || Durable.KeepsContent(deps.snapshots, now.epoch, now.sources) then Ok(c)
               else Err(Durable.BadSnapshot)
  {
    if now.epoch == 0 {
      Durable.RoundTripIffAccepted(deps.snapshots, c);
    } else {
      Instructions.ReplayIsKeyed(deps.instructions, Instructions.BLANK, EventsOf(log[..c.coverage.through]));
      Durable.CheckpointRoundTrip(deps.snapshots, c, now.epoch, now.sources);
    }
  }
}
