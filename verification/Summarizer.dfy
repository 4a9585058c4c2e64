/** Rolling, chunked summarization: as many whole units as fit one prompt at a time, each chunk fed
    the summary of the ones before it. */
module Summarizer {
  import opened Domain
  import opened Meter
  import opened Projector
  import opened ToolPairs
  import opened Materialize

  /** The fixed parts of a prompt and the rendering of one source message. */
  datatype Asset = Asset(instructions: string, previousHeading: string, focusHeading: string, sourceHeading: string,
                         line: Message -> string)

  function Lines(line: Message -> string, messages: seq<Message>): string {
    if messages == [] then "" else line(messages[0]) + Lines(line, messages[1..])
  }

  function Opening(asset: Asset, previous: string): string {
    asset.instructions + if previous == "" then "" else asset.previousHeading + previous
  }

  function FocusSection(asset: Asset, focus: string): string {
    if focus == "" then "" else asset.focusHeading + focus
  }

  function SourceSection(asset: Asset, units: seq<Unit>): string {
    asset.sourceHeading + Lines(asset.line, Flatten(units))
  }

  function RenderPrompt(asset: Asset, previous: string, units: seq<Unit>, focus: string): string {
    Opening(asset, previous) + FocusSection(asset, focus) + SourceSection(asset, units)
  }

  /** What a prompt costs as the one user message of a request. */
  function PromptTokens(prompt: string): nat {
    PER_MESSAGE_FRAMING + TextTokens(prompt)
  }

  /** Adding the focus costs at most what the focus section costs alone. */
  lemma FocusFits(asset: Asset, previous: string, units: seq<Unit>, focus: string)
    ensures PromptTokens(RenderPrompt(asset, previous, units, focus)) <=
            PromptTokens(RenderPrompt(asset, previous, units, "")) + TextTokens(FocusSection(asset, focus))
  {
    var a, f, b := Opening(asset, previous), FocusSection(asset, focus), SourceSection(asset, units);
    ByteLengthAdditive(a + f, b);
    ByteLengthAdditive(a, f);
    ByteLengthAdditive(a, b);
    assert a + "" + b == a + b;
  }

  function RollingText(previous: Option<Checkpoint>): string {
    if previous.Some? && previous.value.kind == RollingSummary then previous.value.summary else ""
  }

  function ConversationUnits(units: seq<Unit>): seq<Unit> {
    if units == [] then []
    else if units[0].kind == InstructionUnit then ConversationUnits(units[1..])
    else [units[0]] + ConversationUnits(units[1..])
  }

  method FilterConversation(units: seq<Unit>) returns (filtered: seq<Unit>)
    ensures filtered == ConversationUnits(units)
  {
    filtered := [];
    for i := 0 to |units|
      invariant filtered + ConversationUnits(units[i..]) == ConversationUnits(units)
    {
      assert units[i..][1..] == units[i + 1..];
      if units[i].kind != InstructionUnit {
        filtered := filtered + [units[i]];
      }
    }
  }

  predicate Fits(asset: Asset, previous: string, units: seq<Unit>, budget: nat) {
    PromptTokens(RenderPrompt(asset, previous, units, "")) <= budget
  }

  /** The longest run of leading units that fits, grown one unit at a time. */
  method FitUnitsUnderBudget(asset: Asset, previous: string, candidates: seq<Unit>, budget: nat) returns (count: nat)
    ensures count <= |candidates|
    ensures count > 0 ==> Fits(asset, previous, candidates[..count], budget)
    ensures count < |candidates| ==> !Fits(asset, previous, candidates[..count + 1], budget)
  {
    count := 0;
    while count < |candidates|
      invariant count <= |candidates|
      invariant count > 0 ==> Fits(asset, previous, candidates[..count], budget)
    {
      var probe := RenderPrompt(asset, previous, candidates[..count + 1], "");
      if PromptTokens(probe) > budget {
        break;
      }
      count := count + 1;
    }
  }

  /** One call of the summarizer: the summary so far, the chunk of units and the focus, if any. */
  datatype Chunk = Chunk(previous: string, units: seq<Unit>, focus: string)

  /** A chunk is not empty and its prompt is within the budget. */
  function WithinBudget(asset: Asset, budget: nat): Chunk -> bool {
    (c: Chunk) => c.units != [] && PromptTokens(RenderPrompt(asset, c.previous, c.units, c.focus)) <= budget
  }

  ghost predicate AllSatisfy(p: Chunk -> bool, chunks: seq<Chunk>) {
    forall i :: 0 <= i < |chunks| ==> p(chunks[i])
  }

  /** The units of all chunks, in order. */
  function Concat(chunks: seq<Chunk>): seq<Unit> {
    if chunks == [] then [] else Concat(chunks[..|chunks| - 1]) + chunks[|chunks| - 1].units
  }

  lemma ConcatOneMore(chunks: seq<Chunk>, c: Chunk)
    ensures Concat(chunks + [c]) == Concat(chunks) + c.units
  {
    assert (chunks + [c])[..|chunks|] == chunks;
  }

  /** The budget left for a prompt once room for the focus is set aside. */
  function FitBudget(asset: Asset, hardInput: nat, focus: string): nat {
    var focusTokens := if focus == "" then 0 else PromptTokens(FocusSection(asset, focus));
    if hardInput > focusTokens then hardInput - focusTokens else 0
  }

  /** What fits beside the reserve fits with the focus too. */
  lemma ReserveSuffices(asset: Asset, hardInput: nat, previous: string, units: seq<Unit>, focus: string)
    requires Fits(asset, previous, units, FitBudget(asset, hardInput, focus))
    ensures PromptTokens(RenderPrompt(asset, previous, units, focus)) <= hardInput
    ensures PromptTokens(RenderPrompt(asset, previous, units, "")) <= hardInput
  {
    FocusFits(asset, previous, units, focus);
  }

  datatype SummaryReply = SummaryReply(text: string, usage: nat)

  datatype SummaryFault = LimitExceeded | SummaryFailed | SummaryInvalid

  datatype Summary = Summary(text: string, chunks: nat, usage: nat)

  /** A summarization: its budget, the focus, the text it starts from, the units to cover, and the
      answers of the provider and of the validator to each chunk. */
  datatype Job = Job(
    asset: Asset,
    hardInput: nat,
    maxChunks: nat,
    focus: string,
    start: string,
    all: seq<Unit>,
    summarize: (nat, string) -> Option<SummaryReply>,
    validate: (Chunk, string) -> Option<string>)

  /** The provider's answer to the `n`-th chunk. */
  function Asking(job: Job): (nat, Chunk) -> Option<SummaryReply> {
    (n: nat, c: Chunk) => job.summarize(n, RenderPrompt(job.asset, c.previous, c.units, c.focus))
  }

  // ------------------------------------------------------------ what the chunks sent so far satisfy

  /** The focus is in the last chunk and no other. */
  ghost predicate FocusLast(sent: seq<Chunk>, focus: string) {
    forall i :: 0 <= i < |sent| ==> sent[i].focus == if i == |sent| - 1 then focus else ""
  }

  /** What the chunk after `sent` has to roll forward: the validated answer to the last one, or `start`. */
  predicate RollsInto(job: Job, sent: seq<Chunk>, text: string) {
    if sent == [] then text == job.start
    else
      var reply := Asking(job)(|sent|, sent[|sent| - 1]);
      reply.Some? && job.validate(sent[|sent| - 1], reply.value.text) == Some(text)
  }

  /** What chunks are cut by: the units and the focus, what fits behind a text, and what is rolled
      forward. */
  datatype Course = Course(
    all: seq<Unit>,
    focus: string,
    fits: (string, seq<Unit>) -> bool,
    rolls: (seq<Chunk>, string) -> bool)

  /** Room for the focus is kept beside every chunk. */
  function CourseOf(job: Job): Course {
    var room := FitBudget(job.asset, job.hardInput, job.focus);
    Course(job.all, job.focus, (previous: string, units: seq<Unit>) => Fits(job.asset, previous, units, room),
           (sent: seq<Chunk>, text: string) => RollsInto(job, sent, text))
  }

  /** As many units as fit: one more of those still to come would be too much. */
  predicate Filled(k: Course, done: nat, c: Chunk) {
    k.fits(c.previous, c.units) && (done < |k.all| ==> !k.fits(c.previous, c.units + [k.all[done]]))
  }

  /** A chunk that may follow those sent: it goes on where they end, rolls their text forward, is filled
      and not empty, and carries the focus exactly if it is the last. */
  predicate FollowsOn(k: Course, earlier: seq<Chunk>, c: Chunk) {
    var done := Concat(earlier) + c.units;
    && c.units != [] && done <= k.all && k.rolls(earlier, c.previous) && Filled(k, |done|, c)
    && c.focus == if done == k.all then k.focus else ""
  }

  /** Chunks each of which follows on from those before it. */
  predicate Chunked(k: Course, sent: seq<Chunk>) {
    sent == [] || (Chunked(k, sent[..|sent| - 1]) && FollowsOn(k, sent[..|sent| - 1], sent[|sent| - 1]))
  }

  /** The summed usage of the answers. */
  ghost function UsageOf(ask: (nat, Chunk) -> Option<SummaryReply>, sent: seq<Chunk>): nat {
    if sent == [] then 0
    else
      var reply := ask(|sent|, sent[|sent| - 1]);
      UsageOf(ask, sent[..|sent| - 1]) + if reply.Some? then reply.value.usage else 0
  }

  lemma ChunkMore(k: Course, sent: seq<Chunk>, c: Chunk)
    requires Chunked(k, sent) && FollowsOn(k, sent, c)
    ensures Chunked(k, sent + [c])
  {
    assert (sent + [c])[..|sent|] == sent;
  }

  lemma UsageMore(ask: (nat, Chunk) -> Option<SummaryReply>, sent: seq<Chunk>, c: Chunk)
    ensures UsageOf(ask, sent + [c]) == UsageOf(ask, sent) +
            var reply := ask(|sent| + 1, c); if reply.Some? then reply.value.usage else 0
  {
    assert (sent + [c])[..|sent|] == sent;
  }

  /** Chunks cover a leading part of the units, with the focus once all are covered and only in the last. */
  lemma {:induction false} ChunksCover(k: Course, sent: seq<Chunk>)
    requires Chunked(k, sent)
    ensures Concat(sent) <= k.all && (sent != [] ==> Concat(sent) != [])
    ensures FocusLast(sent, if sent != [] && Concat(sent) == k.all then k.focus else "")
    ensures forall i :: 0 <= i < |sent| ==> sent[i].units != [] && k.fits(sent[i].previous, sent[i].units)
    decreases |sent|
  {
    if sent != [] {
      var earlier, c := sent[..|sent| - 1], sent[|sent| - 1];
      ChunksCover(k, earlier);
      assert Concat(earlier) < Concat(sent);
      assert forall i :: 0 <= i < |earlier| ==> sent[i] == earlier[i];
    }
  }

  lemma ChunksWithinBudget(job: Job, sent: seq<Chunk>)
    requires Chunked(CourseOf(job), sent)
    ensures AllSatisfy(WithinBudget(job.asset, job.hardInput), sent)
  {
    ChunksCover(CourseOf(job), sent);
    forall i | 0 <= i < |sent|
      ensures WithinBudget(job.asset, job.hardInput)(sent[i])
    {
      ReserveSuffices(job.asset, job.hardInput, sent[i].previous, sent[i].units, job.focus);
    }
  }

  // ------------------------------------------------------------ outcomes

  /** The next unit does not fit a prompt of its own behind the text to roll forward. */
  ghost predicate NextTooLarge(job: Job, sent: seq<Chunk>, text: string) {
    && |sent| < job.maxChunks && Concat(sent) <= job.all && |Concat(sent)| < |job.all| && RollsInto(job, sent, text)
    && !CourseOf(job).fits(text, [job.all[|Concat(sent)|]])
  }

  /** Why a summarization failed: nothing to summarize, or units left when all chunks allowed were used
      and answered; a silent provider, or a unit too large for its prompt; an answer that does not
      validate, with units left. */
  ghost predicate Explains(job: Job, sent: seq<Chunk>, fault: SummaryFault) {
    match fault
    case LimitExceeded =>
      || job.all == []
      || (|sent| == job.maxChunks && Concat(sent) < job.all && exists text :: RollsInto(job, sent, text))
    case SummaryFailed =>
      || (sent != [] && Asking(job)(|sent|, sent[|sent| - 1]).None?)
      || (exists text :: NextTooLarge(job, sent, text))
    case SummaryInvalid =>
      && sent != [] && Concat(sent) < job.all && Asking(job)(|sent|, sent[|sent| - 1]).Some?
      && job.validate(sent[|sent| - 1], Asking(job)(|sent|, sent[|sent| - 1]).value.text).None?
  }

  /** What a success says: the chunks are exactly the units, and the text answers the last of them. */
  ghost predicate Completes(job: Job, sent: seq<Chunk>, summary: Summary) {
    && sent != [] && Concat(sent) == job.all && summary.chunks == |sent|
    && summary.usage == UsageOf(Asking(job), sent)
    && var reply := Asking(job)(|sent|, sent[|sent| - 1]); reply.Some? && summary.text == reply.value.text
  }

  ghost predicate Concluded(job: Job, r: Result<Summary, SummaryFault>, sent: seq<Chunk>) {
    && Chunked(CourseOf(job), sent) && |sent| <= job.maxChunks
    && match r { case Ok(summary) => Completes(job, sent, summary) case Err(fault) => Explains(job, sent, fault) }
  }

  // ------------------------------------------------------------ the outcome is determined

  lemma {:induction false} LinesSplit(line: Message -> string, a: seq<Message>, b: seq<Message>)
    ensures Lines(line, a + b) == Lines(line, a) + Lines(line, b)
  {
    if a == [] {
      assert a + b == b;
    } else {
      assert (a + b)[1..] == a[1..] + b;
      LinesSplit(line, a[1..], b);
    }
  }

  /** What fits with more units fits with fewer. */
  lemma FewerFit(asset: Asset, previous: string, a: seq<Unit>, b: seq<Unit>, budget: nat)
    requires a <= b && Fits(asset, previous, b, budget)
    ensures Fits(asset, previous, a, budget)
  {
    var rest := b[|a|..];
    assert b == a + rest;
    FlattenSplits(a, rest);
    LinesSplit(asset.line, Flatten(a), Flatten(rest));
    var short := RenderPrompt(asset, previous, a, "");
    assert RenderPrompt(asset, previous, b, "") == short + Lines(asset.line, Flatten(rest));
    ByteLengthAdditive(short, Lines(asset.line, Flatten(rest)));
  }

  ghost predicate Shrinking(fits: (string, seq<Unit>) -> bool) {
    forall previous, a, b :: a <= b && fits(previous, b) ==> fits(previous, a)
  }

  ghost predicate Sure(rolls: (seq<Chunk>, string) -> bool) {
    forall sent, text, other :: rolls(sent, text) && rolls(sent, other) ==> text == other
  }

  lemma CourseIsSure(job: Job)
    ensures Shrinking(CourseOf(job).fits) && Sure(CourseOf(job).rolls)
  {
    forall previous, a, b | a <= b && CourseOf(job).fits(previous, b)
      ensures CourseOf(job).fits(previous, a)
    {
      FewerFit(job.asset, previous, a, b, FitBudget(job.asset, job.hardInput, job.focus));
    }
  }

  /** Of two filled chunks from the same place neither is longer. */
  lemma FilledNotLonger(k: Course, done: seq<Unit>, c: Chunk, d: Chunk)
    requires Shrinking(k.fits) && c.previous == d.previous && done + c.units <= k.all && done + d.units <= k.all
    requires Filled(k, |done + c.units|, c) && Filled(k, |done + d.units|, d)
    ensures d.units <= c.units
  {
    var n := |c.units|;
    if n < |d.units| {
      OneUnitMore(k.all, done, c.units, d.units);
    } else {
      Placed(k.all, done, c.units);
      Placed(k.all, done, d.units);
      assert d.units == c.units[..|d.units|];
    }
  }

  /** Where units stand that go on from others. */
  lemma Placed(all: seq<Unit>, done: seq<Unit>, units: seq<Unit>)
    requires done + units <= all
    ensures units == all[|done|..|done| + |units|]
  {
    assert units == (done + units)[|done|..];
  }

  /** The shorter of two such lists and its next unit are a part of the longer one. */
  lemma OneUnitMore(all: seq<Unit>, done: seq<Unit>, short: seq<Unit>, long: seq<Unit>)
    requires done + short <= all && done + long <= all && |short| < |long|
    ensures short + [all[|done + short|]] <= long
  {
    Placed(all, done, short);
    Placed(all, done, long);
    assert short + [all[|done| + |short|]] == all[|done|..|done| + |short| + 1] == long[..|short| + 1];
  }

  /** Only one chunk may follow those sent. */
  lemma OneFollows(k: Course, earlier: seq<Chunk>, c: Chunk, d: Chunk)
    requires Shrinking(k.fits) && Sure(k.rolls) && FollowsOn(k, earlier, c) && FollowsOn(k, earlier, d)
    ensures c == d
  {
    FilledNotLonger(k, Concat(earlier), c, d);
    FilledNotLonger(k, Concat(earlier), d, c);
  }

  lemma {:induction false} PrefixFollows(k: Course, sent: seq<Chunk>, n: nat)
    requires Chunked(k, sent) && n < |sent|
    ensures FollowsOn(k, sent[..n], sent[n])
    decreases |sent|
  {
    if n < |sent| - 1 {
      var earlier := sent[..|sent| - 1];
      PrefixFollows(k, earlier, n);
      assert earlier[..n] == sent[..n];
    }
  }

  lemma {:induction false} ChunksAgree(k: Course, sent: seq<Chunk>, more: seq<Chunk>, n: nat)
    requires Shrinking(k.fits) && Sure(k.rolls) && Chunked(k, sent) && Chunked(k, more)
    requires n <= |sent| && n <= |more|
    ensures sent[..n] == more[..n]
  {
    if n > 0 {
      ChunksAgree(k, sent, more, n - 1);
      AgreeNext(k, sent, more, n - 1);
      PrefixGrows(sent, more, n - 1);
    }
  }

  lemma PrefixGrows(sent: seq<Chunk>, more: seq<Chunk>, n: nat)
    requires n < |sent| && n < |more| && sent[..n] == more[..n] && sent[n] == more[n]
    ensures sent[..n + 1] == more[..n + 1]
  {
    assert sent[..n + 1] == sent[..n] + [sent[n]] && more[..n + 1] == more[..n] + [more[n]];
  }

  lemma AgreeNext(k: Course, sent: seq<Chunk>, more: seq<Chunk>, n: nat)
    requires Shrinking(k.fits) && Sure(k.rolls) && Chunked(k, sent) && Chunked(k, more)
    requires n < |sent| && n < |more| && sent[..n] == more[..n]
    ensures sent[n] == more[n]
  {
    PrefixFollows(k, sent, n);
    PrefixFollows(k, more, n);
    OneFollows(k, sent[..n], sent[n], more[n]);
  }

  /** Where a chunk follows, the next unit fits a prompt of its own. */
  lemma FirstFits(job: Job, sent: seq<Chunk>, c: Chunk)
    requires FollowsOn(CourseOf(job), sent, c)
    ensures |Concat(sent)| < |job.all| && CourseOf(job).fits(c.previous, [job.all[|Concat(sent)|]])
  {
    CourseIsSure(job);
    assert c.units[0] == (Concat(sent) + c.units)[|Concat(sent)|] == job.all[|Concat(sent)|];
    assert [c.units[0]] <= c.units;
  }

  /** Where a summarization concluded no further chunk follows. */
  lemma NoneFollows(job: Job, r: Result<Summary, SummaryFault>, sent: seq<Chunk>, c: Chunk)
    requires Concluded(job, r, sent) && |sent| < job.maxChunks
    ensures !FollowsOn(CourseOf(job), sent, c)
  {
    if FollowsOn(CourseOf(job), sent, c) {
      FirstFits(job, sent, c);
    }
  }

  lemma SameChunks(job: Job, r: Result<Summary, SummaryFault>, sent: seq<Chunk>, q: Result<Summary, SummaryFault>,
                   more: seq<Chunk>)
    requires Concluded(job, r, sent) && Concluded(job, q, more) && |sent| <= |more|
    ensures sent == more
  {
    CourseIsSure(job);
    ChunksAgree(CourseOf(job), sent, more, |sent|);
    assert sent == sent[..|sent|];
    if |sent| < |more| {
      PrefixFollows(CourseOf(job), more, |sent|);
      NoneFollows(job, r, sent, more[|sent|]);
    } else {
      assert more == more[..|sent|];
    }
  }

  lemma SameEnd(job: Job, r: Result<Summary, SummaryFault>, q: Result<Summary, SummaryFault>, sent: seq<Chunk>)
    requires Concluded(job, r, sent) && Concluded(job, q, sent)
    ensures r == q
  {
    ChunksCover(CourseOf(job), sent);
  }

  /** The contract leaves no choice: the units, the budget, the provider and the validator determine every
      chunk that is sent and how it ends. */
  lemma OutcomeIsDetermined(job: Job, r: Result<Summary, SummaryFault>, sent: seq<Chunk>,
                            q: Result<Summary, SummaryFault>, more: seq<Chunk>)
    requires Concluded(job, r, sent) && Concluded(job, q, more)
    ensures sent == more && r == q
  {
    if |sent| <= |more| {
      SameChunks(job, r, sent, q, more);
    } else {
      SameChunks(job, q, more, r, sent);
    }
    SameEnd(job, r, q, sent);
  }

  // ------------------------------------------------------------ the loop

  /** Between two chunks: what is left, the text to roll forward, the usage and the chunks so far. */
  datatype Progress = Progress(remaining: seq<Unit>, text: string, usage: nat, sent: seq<Chunk>)

  ghost predicate Going(job: Job, p: Progress) {
    && p.remaining != [] && |p.sent| <= job.maxChunks && Chunked(CourseOf(job), p.sent)
    && Concat(p.sent) + p.remaining == job.all && RollsInto(job, p.sent, p.text)
    && p.usage == UsageOf(Asking(job), p.sent)
  }

  /** The chunk holds the leading `fit` units that are left, as many as there is room for. */
  ghost predicate Next(job: Job, p: Progress, c: Chunk, fit: nat) {
    && 0 < fit <= |p.remaining|
    && c == Chunk(p.text, p.remaining[..fit], if fit == |p.remaining| then job.focus else "")
    && CourseOf(job).fits(p.text, p.remaining[..fit])
    && (fit < |p.remaining| ==> !CourseOf(job).fits(p.text, p.remaining[..fit + 1]))
  }

  lemma NothingFits(job: Job, p: Progress)
    requires Going(job, p) && |p.sent| < job.maxChunks && !CourseOf(job).fits(p.text, p.remaining[..1])
    ensures Concluded(job, Err(SummaryFailed), p.sent)
  {
    assert job.all[|Concat(p.sent)|] == p.remaining[0];
    assert p.remaining[..1] == [p.remaining[0]];
    assert NextTooLarge(job, p.sent, p.text);
  }

  lemma TooManyChunks(job: Job, p: Progress)
    requires Going(job, p) && |p.sent| == job.maxChunks
    ensures Concluded(job, Err(LimitExceeded), p.sent)
  {
    assert Concat(p.sent) < job.all;
  }

  /** The next chunk follows on, and leaves the rest. */
  lemma NextFollowsOn(job: Job, p: Progress, c: Chunk, fit: nat)
    requires Going(job, p) && Next(job, p, c, fit)
    ensures FollowsOn(CourseOf(job), p.sent, c) && Concat(p.sent + [c]) + p.remaining[fit..] == job.all
    ensures fit < |p.remaining| ==> Concat(p.sent + [c]) < job.all
  {
    ConcatOneMore(p.sent, c);
    CutAfter(Concat(p.sent), p.remaining, fit);
  }

  /** Cutting what is left after some units. */
  lemma CutAfter(done: seq<Unit>, rest: seq<Unit>, fit: nat)
    requires fit <= |rest|
    ensures (done + rest[..fit]) + rest[fit..] == done + rest && done + rest[..fit] <= done + rest
    ensures fit == |rest| ==> done + rest[..fit] == done + rest
    ensures fit < |rest| ==> && done + rest[..fit] < done + rest
                             && rest[..fit] + [(done + rest)[|done + rest[..fit]|]] == rest[..fit + 1]
  {
  }

  lemma Unanswered(job: Job, p: Progress, c: Chunk, fit: nat)
    requires Going(job, p) && |p.sent| < job.maxChunks && Next(job, p, c, fit)
    requires Asking(job)(|p.sent| + 1, c).None?
    ensures Concluded(job, Err(SummaryFailed), p.sent + [c])
  {
    NextFollowsOn(job, p, c, fit);
    ChunkMore(CourseOf(job), p.sent, c);
  }

  lemma AllAnswered(job: Job, p: Progress, c: Chunk, fit: nat)
    requires Going(job, p) && |p.sent| < job.maxChunks && Next(job, p, c, fit) && fit == |p.remaining|
    requires Asking(job)(|p.sent| + 1, c).Some?
    ensures var reply := Asking(job)(|p.sent| + 1, c).value;
            Concluded(job, Ok(Summary(reply.text, |p.sent| + 1, p.usage + reply.usage)), p.sent + [c])
  {
    NextFollowsOn(job, p, c, fit);
    ChunkMore(CourseOf(job), p.sent, c);
    UsageMore(Asking(job), p.sent, c);
    assert p.remaining[fit..] == [] && Concat(p.sent + [c]) + [] == Concat(p.sent + [c]);
  }

  lemma Unvalidated(job: Job, p: Progress, c: Chunk, fit: nat)
    requires Going(job, p) && |p.sent| < job.maxChunks && Next(job, p, c, fit) && fit < |p.remaining|
    requires var reply := Asking(job)(|p.sent| + 1, c); reply.Some? && job.validate(c, reply.value.text).None?
    ensures Concluded(job, Err(SummaryInvalid), p.sent + [c])
  {
    NextFollowsOn(job, p, c, fit);
    ChunkMore(CourseOf(job), p.sent, c);
  }

  lemma ChunkRollsOn(job: Job, p: Progress, c: Chunk, fit: nat, text: string, usage: nat)
    requires Going(job, p) && |p.sent| < job.maxChunks && Next(job, p, c, fit) && fit < |p.remaining|
    requires var reply := Asking(job)(|p.sent| + 1, c);
             reply.Some? && reply.value.usage == usage && job.validate(c, reply.value.text) == Some(text)
    ensures Going(job, Progress(p.remaining[fit..], text, p.usage + usage, p.sent + [c]))
  {
    NextFollowsOn(job, p, c, fit);
    ChunkMore(CourseOf(job), p.sent, c);
    UsageMore(Asking(job), p.sent, c);
  }

  datatype Turned = More(next: Progress) | Over(result: Result<Summary, SummaryFault>, sent: seq<Chunk>)

  /** Send one chunk. */
  method SendChunk(job: Job, p: Progress) returns (o: Turned)
    requires Going(job, p)
    ensures o.More? ==> Going(job, o.next) && |o.next.remaining| < |p.remaining|
    ensures o.Over? ==> Concluded(job, o.result, o.sent)
  {
    if |p.sent| + 1 > job.maxChunks {
      TooManyChunks(job, p);
      return Over(Err(LimitExceeded), p.sent);
    }
    var fit := FitUnitsUnderBudget(job.asset, p.text, p.remaining, FitBudget(job.asset, job.hardInput, job.focus));
    if fit == 0 {
      NothingFits(job, p);
      return Over(Err(SummaryFailed), p.sent);
    }
    var chunk := Chunk(p.text, p.remaining[..fit], if fit == |p.remaining| then job.focus else "");
    o := Ask(job, p, chunk, fit);
  }

  /** Ask about one chunk and take in the answer. */
  method Ask(job: Job, p: Progress, chunk: Chunk, fit: nat) returns (o: Turned)
    requires Going(job, p) && |p.sent| < job.maxChunks && Next(job, p, chunk, fit)
    ensures o.More? ==> Going(job, o.next) && |o.next.remaining| < |p.remaining|
    ensures o.Over? ==> Concluded(job, o.result, o.sent)
  {
    var count, sent := |p.sent| + 1, p.sent + [chunk];
    var reply := Asking(job)(count, chunk);
    if reply.None? {
      Unanswered(job, p, chunk, fit);
      return Over(Err(SummaryFailed), sent);
    }
    if fit == |p.remaining| {
      AllAnswered(job, p, chunk, fit);
      return Over(Ok(Summary(reply.value.text, count, p.usage + reply.value.usage)), sent);
    }
    var redacted := job.validate(chunk, reply.value.text);
    if redacted.None? {
      Unvalidated(job, p, chunk, fit);
      return Over(Err(SummaryInvalid), sent);
    }
    ChunkRollsOn(job, p, chunk, fit, redacted.value, reply.value.usage);
    o := More(Progress(p.remaining[fit..], redacted.value, p.usage + reply.value.usage, sent));
  }

  function JobOf(asset: Asset, hardInput: nat, maxChunks: nat, previous: Option<Checkpoint>, covered: seq<Unit>,
                 focus: string, summarize: (nat, string) -> Option<SummaryReply>,
                 validate: (Chunk, string) -> Option<string>): Job
  {
    Job(asset, hardInput, maxChunks, focus, RollingText(previous), ConversationUnits(covered), summarize, validate)
  }

  /** Chunked summarization partitions and fits. Every prompt ever sent stays within the hard input budget;
      the chunks are, in order and without gaps, a leading part of the covered units that are not
      instructions, each as large as fits; the focus comes with the last of all units and nowhere else;
      and a success has sent all units. `sent` is every chunk the provider was asked about. */
  method SummarizeChunks(asset: Asset, hardInput: nat, maxChunks: nat, previous: Option<Checkpoint>, covered: seq<Unit>,
                         focus: string, summarize: (nat, string) -> Option<SummaryReply>,
                         validate: (Chunk, string) -> Option<string>)
    returns (r: Result<Summary, SummaryFault>, sent: seq<Chunk>)
    ensures Concluded(JobOf(asset, hardInput, maxChunks, previous, covered, focus, summarize, validate), r, sent)
    ensures Concat(sent) <= ConversationUnits(covered) && AllSatisfy(WithinBudget(asset, hardInput), sent)
    ensures FocusLast(sent, if sent != [] && Concat(sent) == ConversationUnits(covered) then focus else "")
    ensures r.Ok? ==> Concat(sent) == ConversationUnits(covered)
  {
    var remaining := FilterConversation(covered);
    var job := Job(asset, hardInput, maxChunks, focus, RollingText(previous), remaining, summarize, validate);
    if |remaining| == 0 {
      return Err(LimitExceeded), [];
    }
    var p := Progress(remaining, job.start, 0, []);
    while true
      invariant Going(job, p)
      decreases |p.remaining|
    {
      var o := SendChunk(job, p);
      if o.Over? {
        ChunksCover(CourseOf(job), o.sent);
        ChunksWithinBudget(job, o.sent);
        return o.result, o.sent;
      }
      p := o.next;
    }
  }
}
