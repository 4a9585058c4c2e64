/** Choosing which prefix of the units a checkpoint may replace.

    `Plan` specifies the choice from scratch: an eligible cut keeps a whole turn first and a
    protected tail behind it, and a policy may pick any eligible cut. `SelectCutPoint` and
    `PlanUnderPolicy` find the same answer in single passes. */
module Planner {
  import opened Domain
  import opened Meter
  import opened Projector
  import opened ToolPairs

  datatype Budget = Budget(hardInput: nat, trigger: nat, target: nat, protectedTail: nat, summaryOutputCap: nat)

  /** What is planned over. `price` is the meter's charge for a message and `toolTokens` its
      charge for the tool schemas. */
  datatype PlanInput = PlanInput(
    price: Message -> nat,
    prefix: seq<Message>,
    units: seq<Unit>,
    budget: Budget,
    toolTokens: nat,
    current: Message,
    force: bool)

  datatype PlanResult = PlanResult(
    needsCompaction: bool,
    coveredThrough: nat,
    covered: seq<Unit>,
    retained: seq<Unit>,
    estimatedTokens: nat)

  function CurrentMessages(current: Message): seq<Message> {
    if current.role == Unset && current.text == "" then [] else [current]
  }

  /** The messages of a request that carries `units` raw. */
  function RequestMessages(input: PlanInput, units: seq<Unit>): seq<Message> {
    input.prefix + Flatten(units) + CurrentMessages(input.current)
  }

  /** What a run of units costs. */
  function UnitsTokens(price: Message -> nat, units: seq<Unit>): nat {
    if units == [] then 0 else Total(price, units[0].messages) + UnitsTokens(price, units[1..])
  }

  /** What every request costs without the units and the tools. */
  function FixedTokens(input: PlanInput): nat {
    Total(input.price, input.prefix) + Total(input.price, CurrentMessages(input.current))
  }

  /** The price of the request that carries `units` raw; `RequestTokensArePrice` says so. */
  function RequestTokens(input: PlanInput, units: seq<Unit>): nat {
    FixedTokens(input) + UnitsTokens(input.price, units) + input.toolTokens
  }

  /** What the request costs without the tools when only the units from `k` on are kept. */
  function TailTokens(input: PlanInput, k: nat): nat
    requires k <= |input.units|
  {
    FixedTokens(input) + UnitsTokens(input.price, input.units[k..])
  }

  /** A cut that covers something, keeps a turn whole at the front and the protected tail behind it. */
  predicate Eligible(input: PlanInput, k: int) {
    && 0 < k < |input.units|
    && input.units[k].kind == TurnUnit
    && TailTokens(input, k) >= input.budget.protectedTail
  }

  /** The largest eligible cut below `bound`, or 0 when there is none. */
  function LargestEligible(input: PlanInput, bound: nat): (k: nat)
    ensures k == 0 || (Eligible(input, k) && k < bound)
    ensures forall j :: k < j < bound ==> !Eligible(input, j)
  {
    if bound == 0 then 0
    else if Eligible(input, bound - 1) then bound - 1
    else LargestEligible(input, bound - 1)
  }

  function CutAt(input: PlanInput, k: nat): PlanResult
    requires k <= |input.units|
  {
    PlanResult(true, if k == 0 then 0 else input.units[k - 1].last,
               input.units[..k], input.units[k..], RequestTokens(input, input.units[k..]))
  }

  function Uncut(input: PlanInput): PlanResult {
    PlanResult(false, 0, [], input.units, RequestTokens(input, input.units))
  }

  /** Token counts are 64-bit, so the largest trigger is no limit at all. */
  predicate Within(estimate: nat, trigger: nat) {
    estimate <= trigger || trigger == MAX_UINT64
  }

  /** The built-in choice: cut as late as allowed once the estimate passes the trigger. */
  function BuiltIn(input: PlanInput): PlanResult {
    if Within(RequestTokens(input, input.units), input.budget.trigger) && !input.force then Uncut(input)
    else CutAt(input, LargestEligible(input, |input.units|))
  }

  // ------------------------------------------------------------ pricing of tails

  lemma FlattenOne(units: seq<Unit>, k: nat)
    requires k < |units|
    ensures Flatten(units[k..]) == units[k].messages + Flatten(units[k + 1..])
  {
    assert units[k..][1..] == units[k + 1..];
  }

  lemma {:induction false} UnitsTokensArePrice(price: Message -> nat, units: seq<Unit>)
    ensures UnitsTokens(price, units) == Total(price, Flatten(units))
  {
    if units != [] {
      UnitsTokensArePrice(price, units[1..]);
      TotalAdditive(price, units[0].messages, Flatten(units[1..]));
    }
  }

  lemma RequestTokensArePrice(input: PlanInput, units: seq<Unit>)
    ensures RequestTokens(input, units) == Total(input.price, RequestMessages(input, units)) + input.toolTokens
  {
    UnitsTokensArePrice(input.price, units);
    TotalAdditive(input.price, input.prefix + Flatten(units), CurrentMessages(input.current));
    TotalAdditive(input.price, input.prefix, Flatten(units));
  }

  /** Keeping one more unit costs exactly that unit. */
  lemma TailStep(input: PlanInput, k: nat)
    requires k < |input.units|
    ensures UnitsTokens(input.price, input.units[k..]) ==
            Total(input.price, input.units[k].messages) + UnitsTokens(input.price, input.units[k + 1..])
  {
    assert input.units[k..][1..] == input.units[k + 1..];
  }

  lemma {:induction false} TailGrows(input: PlanInput, j: nat, k: nat)
    requires j <= k <= |input.units|
    ensures TailTokens(input, k) <= TailTokens(input, j)
    decreases k
  {
    if j < k {
      TailStep(input, k - 1);
      TailGrows(input, j, k - 1);
    }
  }

  /** Nothing is kept: the tail is the prefix and the current input. */
  lemma EmptyTail(input: PlanInput)
    ensures TailTokens(input, |input.units|) == Total(input.price, input.prefix + CurrentMessages(input.current))
  {
    TotalAdditive(input.price, input.prefix, CurrentMessages(input.current));
  }

  // ------------------------------------------------------------ the built-in loops

  /** Append the messages of `units` one unit at a time. */
  method AppendUnits(messages: seq<Message>, units: seq<Unit>) returns (all: seq<Message>)
    ensures all == messages + Flatten(units)
  {
    all := messages;
    for i := 0 to |units|
      invariant all + Flatten(units[i..]) == messages + Flatten(units)
    {
      FlattenOne(units, i);
      all := all + units[i].messages;
    }
  }

  method EstimateRequest(input: PlanInput, units: seq<Unit>) returns (tokens: nat)
    ensures tokens == RequestTokens(input, units)
  {
    var messages := AppendUnits(input.prefix, units);
    RequestTokensArePrice(input, units);
    tokens := Total(input.price, messages + CurrentMessages(input.current)) + input.toolTokens;
  }

  ghost predicate NoneAbove(input: PlanInput, k: nat) {
    forall j :: k < j < |input.units| ==> !Eligible(input, j)
  }

  /** Where the backward walk stands: the price of the tail from `k` on, and no eligible cut behind. */
  ghost predicate WalkedTo(input: PlanInput, k: nat, tokens: nat) {
    k <= |input.units| && tokens == TailTokens(input, k) && NoneAbove(input, k)
  }

  lemma OneUnitBack(input: PlanInput, k: nat, tokens: nat)
    requires WalkedTo(input, k, tokens) && k > 0 && tokens < input.budget.protectedTail
    ensures WalkedTo(input, k - 1, tokens + Total(input.price, input.units[k - 1].messages))
  {
    TailStep(input, k - 1);
    assert !Eligible(input, k);
  }

  /** Walk back until the tail is paid for. */
  method WalkTail(input: PlanInput) returns (retainFrom: nat)
    ensures retainFrom <= |input.units| && NoneAbove(input, retainFrom)
    ensures retainFrom > 0 ==> TailTokens(input, retainFrom) >= input.budget.protectedTail
  {
    var tailTokens: nat := Total(input.price, input.prefix + CurrentMessages(input.current));
    EmptyTail(input);
    retainFrom := |input.units|;
    while retainFrom > 0 && tailTokens < input.budget.protectedTail
      invariant WalkedTo(input, retainFrom, tailTokens)
    {
      OneUnitBack(input, retainFrom, tailTokens);
      retainFrom := retainFrom - 1;
      tailTokens := tailTokens + Total(input.price, input.units[retainFrom].messages);
    }
  }

  /** The cut: from where the tail is paid for, back to the start of a turn. */
  method WalkBack(input: PlanInput) returns (retainFrom: nat)
    ensures retainFrom == LargestEligible(input, |input.units|)
  {
    retainFrom := WalkTail(input);
    while retainFrom > 0 && (retainFrom >= |input.units| || input.units[retainFrom].kind != TurnUnit)
      invariant retainFrom <= |input.units| && NoneAbove(input, retainFrom)
      invariant retainFrom > 0 ==> TailTokens(input, retainFrom) >= input.budget.protectedTail
    {
      TailGrows(input, retainFrom - 1, retainFrom);
      retainFrom := retainFrom - 1;
    }
    OnlyLargest(input, retainFrom);
  }

  lemma OnlyLargest(input: PlanInput, k: nat)
    requires k == 0 || Eligible(input, k)
    requires NoneAbove(input, k)
    ensures k == LargestEligible(input, |input.units|)
  {
    var best := LargestEligible(input, |input.units|);
    if best < k {
      assert false;
    } else if best > k {
      assert false;
    }
  }

  method SelectCutPoint(input: PlanInput) returns (r: PlanResult)
    ensures r == BuiltIn(input)
  {
    var estimate := EstimateRequest(input, input.units);
    if Within(estimate, input.budget.trigger) && !input.force {
      return PlanResult(false, 0, [], input.units, estimate);
    }
    var k := WalkBack(input);
    var tokens := EstimateRequest(input, input.units[k..]);
    r := PlanResult(true, 0, input.units[..k], input.units[k..], tokens);
    if |r.covered| > 0 {
      r := r.(coveredThrough := r.covered[|r.covered| - 1].last);
    }
  }

  // ------------------------------------------------------------ planning under a policy

  /** One offered cut as a policy sees it. */
  datatype Candidate = Candidate(id: nat, coveredUnits: nat, retainedUnits: nat, retainedTurns: nat,
                                 estimatedRetainedTokens: nat)

  datatype PolicyInput = PolicyInput(
    trigger: Trigger, force: bool, budget: Budget, estimatedTokens: nat, previousThrough: nat,
    candidates: seq<Candidate>)

  datatype Decision = Decision(compact: bool, candidateID: nat)

  datatype PolicyFault = CallbackFailed | ForcedVetoed | NotOffered | Canceled

  type Policy = PolicyInput -> Result<Decision, PolicyFault>

  function TurnCount(units: seq<Unit>): nat {
    if units == [] then 0 else (if units[0].kind == TurnUnit then 1 else 0) + TurnCount(units[1..])
  }

  /** The candidate for a cut at `k`, every number recomputed from the kept units. */
  function CandidateAt(input: PlanInput, k: nat): Candidate
    requires k <= |input.units|
  {
    Candidate(k, k, |input.units| - k, TurnCount(input.units[k..]), RequestTokens(input, input.units[k..]))
  }

  /** All eligible cuts below `bound`, in order. */
  function CandidatesBelow(input: PlanInput, bound: nat): seq<Candidate>
    requires bound <= |input.units|
  {
    if bound == 0 then []
    else if Eligible(input, bound - 1) then CandidatesBelow(input, bound - 1) + [CandidateAt(input, bound - 1)]
    else CandidatesBelow(input, bound - 1)
  }

  function IdsOf(candidates: seq<Candidate>): set<nat> {
    set c | c in candidates :: c.id
  }

  /** What the policy is shown. */
  function Metadata(input: PlanInput, trigger: Trigger, previousThrough: nat, previousTokens: nat): PolicyInput {
    var estimate := RequestTokens(input, input.units) + previousTokens;
    PolicyInput(trigger, input.force || estimate > input.budget.hardInput, input.budget, estimate, previousThrough,
                CandidatesBelow(input, |input.units|))
  }

  /** What becomes of a policy's decision. */
  function Judge(input: PlanInput, shown: PolicyInput, decision: Decision): Result<PlanResult, PolicyFault> {
    if !decision.compact then
      if decision.candidateID != 0 || (shown.force && shown.candidates != []) then Err(ForcedVetoed)
      else Ok(Uncut(input))
    else if Eligible(input, decision.candidateID) then Ok(CutAt(input, decision.candidateID))
    else Err(NotOffered)
  }

  /** The plan from scratch. `canceledBefore` and `canceledAfter` are the caller's context before
      the call and after the callback. */
  function Plan(policy: Option<Policy>, input: PlanInput, trigger: Trigger, previousThrough: nat, previousTokens: nat,
                canceledBefore: bool, canceledAfter: bool): Result<PlanResult, PolicyFault>
  {
    if canceledBefore then Err(Canceled)
    else if policy.None? then Ok(BuiltIn(input))
    else
      var shown := Metadata(input, trigger, previousThrough, previousTokens);
      if canceledAfter then Err(Canceled)
      else match policy.value(shown)
        case Err(_) => Err(CallbackFailed)
        case Ok(decision) => Judge(input, shown, decision)
  }

  /** At or below the built-in forced cut, the turns in front of which one may cut are exactly
      the eligible ones. */
  lemma EligibleUpToFloor(input: PlanInput, k: nat)
    requires k < |input.units|
    ensures Eligible(input, k) <==>
            0 < k <= LargestEligible(input, |input.units|) && input.units[k].kind == TurnUnit
  {
    var floor := LargestEligible(input, |input.units|);
    if 0 < k <= floor {
      TailGrows(input, k, floor);
    }
  }

  method CountTurns(units: seq<Unit>) returns (turns: nat)
    ensures turns == TurnCount(units)
  {
    turns := 0;
    for i := 0 to |units|
      invariant turns + TurnCount(units[i..]) == TurnCount(units)
    {
      assert units[i..][1..] == units[i + 1..];
      if units[i].kind == TurnUnit {
        turns := turns + 1;
      }
    }
  }

  /** The cuts a callback may pick: each offered identifier stands for its own index. */
  ghost predicate Indexed(boundaries: map<nat, nat>, candidates: seq<Candidate>) {
    boundaries.Keys == IdsOf(candidates) && forall id :: id in boundaries ==> boundaries[id] == id
  }

  lemma MoreIds(candidates: seq<Candidate>, c: Candidate)
    ensures IdsOf(candidates + [c]) == IdsOf(candidates) + {c.id}
  {
  }

  lemma IndexOneMore(boundaries: map<nat, nat>, candidates: seq<Candidate>, c: Candidate)
    requires Indexed(boundaries, candidates)
    ensures Indexed(boundaries[c.id := c.id], candidates + [c])
  {
    MoreIds(candidates, c);
  }

  /** Where the pass stands before unit `k`. */
  ghost predicate Passed(input: PlanInput, k: nat, turns: nat, tokens: nat, candidates: seq<Candidate>) {
    && k <= |input.units|
    && turns == TurnCount(input.units[k..]) && tokens == RequestTokens(input, input.units[k..])
    && candidates == CandidatesBelow(input, k)
  }

  /** What the pass carries along. */
  datatype Carried = Carried(turns: nat, tokens: nat, candidates: seq<Candidate>, boundaries: map<nat, nat>)

  ghost predicate PassedTo(input: PlanInput, k: nat, pass: Carried) {
    Passed(input, k, pass.turns, pass.tokens, pass.candidates) && Indexed(pass.boundaries, pass.candidates)
  }

  /** One pass over the units, carrying the retained tokens and turns down as units are passed. */
  method OfferCandidates(input: PlanInput, floor: nat, estimate: nat)
    returns (candidates: seq<Candidate>, boundaries: map<nat, nat>)
    requires floor == LargestEligible(input, |input.units|) && estimate == RequestTokens(input, input.units)
    ensures candidates == CandidatesBelow(input, |input.units|) && Indexed(boundaries, candidates)
  {
    var turns := CountTurns(input.units);
    var pass := Carried(turns, estimate, [], map[]);
    assert input.units[0..] == input.units;
    for index := 0 to |input.units|
      invariant PassedTo(input, index, pass)
    {
      pass := PassOne(input, index, floor, pass);
    }
    candidates, boundaries := pass.candidates, pass.boundaries;
  }

  method PassOne(input: PlanInput, index: nat, floor: nat, pass: Carried) returns (next: Carried)
    requires index < |input.units| && floor == LargestEligible(input, |input.units|) && PassedTo(input, index, pass)
    ensures PassedTo(input, index + 1, next)
  {
    var unit := input.units[index];
    PassUnit(input, index, floor, pass.turns, pass.tokens, pass.candidates);
    next := pass;
    if index > 0 && index <= floor && unit.kind == TurnUnit {
      var candidate := Candidate(index, index, |input.units| - index, pass.turns, pass.tokens);
      IndexOneMore(pass.boundaries, pass.candidates, candidate);
      next := next.(boundaries := pass.boundaries[index := index], candidates := pass.candidates + [candidate]);
    }
    var tokens := Total(input.price, unit.messages);
    next := next.(tokens := if tokens < pass.tokens then pass.tokens - tokens else 0);
    if unit.kind == TurnUnit {
      next := next.(turns := next.turns - 1);
    }
  }

  lemma PassUnit(input: PlanInput, k: nat, floor: nat, turns: nat, tokens: nat, candidates: seq<Candidate>)
    requires k < |input.units| && floor == LargestEligible(input, |input.units|)
             && Passed(input, k, turns, tokens, candidates)
    ensures var unit := input.units[k];
            var turnHere := unit.kind == TurnUnit;
            && Total(input.price, unit.messages) <= tokens && (turnHere ==> turns > 0)
            && Passed(input, k + 1, if turnHere then turns - 1 else turns, tokens - Total(input.price, unit.messages),
                      if k > 0 && k <= floor && turnHere
                      then candidates + [Candidate(k, k, |input.units| - k, turns, tokens)] else candidates)
  {
    CandidateStep(input, k, floor, turns, tokens);
    TailStep(input, k);
    TurnStep(input.units, k);
  }

  lemma CandidateStep(input: PlanInput, k: nat, floor: nat, turns: nat, tokens: nat)
    requires k < |input.units| && floor == LargestEligible(input, |input.units|)
    requires turns == TurnCount(input.units[k..]) && tokens == RequestTokens(input, input.units[k..])
    ensures CandidatesBelow(input, k + 1) ==
            if k > 0 && k <= floor && input.units[k].kind == TurnUnit
            then CandidatesBelow(input, k) + [Candidate(k, k, |input.units| - k, turns, tokens)]
            else CandidatesBelow(input, k)
  {
    EligibleUpToFloor(input, k);
  }

  lemma TurnStep(units: seq<Unit>, k: nat)
    requires k < |units|
    ensures TurnCount(units[k..]) == (if units[k].kind == TurnUnit then 1 else 0) + TurnCount(units[k + 1..])
  {
    assert units[k..][1..] == units[k + 1..];
  }

  /** Everything the callback is shown, and the cuts it may pick. */
  method Gather(input: PlanInput, trigger: Trigger, previousThrough: nat, previousTokens: nat)
    returns (uncut: PlanResult, metadata: PolicyInput, boundaries: map<nat, nat>)
    ensures uncut == Uncut(input) && metadata == Metadata(input, trigger, previousThrough, previousTokens)
    ensures Indexed(boundaries, metadata.candidates)
  {
    SameRequests(input, input.(force := true));
    var floor := SelectCutPoint(input.(force := true));
    var all := input.(force := false, budget := input.budget.(trigger := MAX_UINT64));
    SameRequests(input, all);
    uncut := SelectCutPoint(all);
    var candidates;
    candidates, boundaries := OfferCandidates(input, |floor.covered|, uncut.estimatedTokens);
    var estimated := uncut.estimatedTokens + previousTokens;
    metadata := PolicyInput(trigger, input.force
                            || estimated > input.budget.hardInput, input.budget, estimated, previousThrough,
                            candidates);
  }

  /** The planner as it runs. */
  method PlanUnderPolicy(policy: Option<Policy>, input: PlanInput, trigger: Trigger, previousThrough: nat,
                         previousTokens: nat, canceledBefore: bool, canceledAfter: bool)
    returns (r: Result<PlanResult, PolicyFault>)
    ensures r == Plan(policy, input, trigger, previousThrough, previousTokens, canceledBefore, canceledAfter)
  {
    if canceledBefore {
      return Err(Canceled);
    }
    if policy.None? {
      var cut := SelectCutPoint(input);
      return Ok(cut);
    }
    var uncut, metadata, boundaries := Gather(input, trigger, previousThrough, previousTokens);
    var decision := policy.value(metadata);
    if canceledAfter {
      return Err(Canceled);
    }
    if decision.Err? {
      return Err(CallbackFailed);
    }
    OfferedIds(input, |input.units|, decision.value.candidateID);
    r := Settle(input, uncut, metadata, boundaries, decision.value);
  }

  /** Hold the decision against the cuts that were offered. */
  method Settle(input: PlanInput, uncut: PlanResult, metadata: PolicyInput, boundaries: map<nat, nat>,
                decision: Decision)
    returns (r: Result<PlanResult, PolicyFault>)
    requires uncut == Uncut(input)
    requires forall id :: id in boundaries ==> boundaries[id] == id
    requires decision.candidateID in boundaries <==> Eligible(input, decision.candidateID)
    ensures r == Judge(input, metadata, decision)
  {
    if !decision.compact {
      if decision.candidateID != 0 || (metadata.force && |metadata.candidates| > 0) {
        return Err(ForcedVetoed);
      }
      return Ok(uncut);
    }
    if decision.candidateID !in boundaries {
      return Err(NotOffered);
    }
    r := SelectedCut(input, boundaries[decision.candidateID]);
  }

  /** The estimate of a chosen cut is that of an uncut plan over the units it keeps. */
  method SelectedCut(input: PlanInput, index: nat) returns (r: Result<PlanResult, PolicyFault>)
    requires 0 < index < |input.units|
    ensures r == Ok(CutAt(input, index))
  {
    var retained := input.units[index..];
    var selected := input.(force := false, budget := input.budget.(trigger := MAX_UINT64), units := retained);
    assert RequestTokens(selected, retained) == RequestTokens(input, retained);
    var estimate := SelectCutPoint(selected);
    r := Ok(PlanResult(true, input.units[index - 1].last, input.units[..index], retained, estimate.estimatedTokens));
  }

  /** Forcing a plan or lifting its trigger changes neither what requests cost nor what is eligible. */
  lemma {:induction false} SameRequests(input: PlanInput, other: PlanInput)
    requires other == input.(force := other.force, budget := input.budget.(trigger := other.budget.trigger))
    ensures RequestTokens(other, other.units) == RequestTokens(input, input.units)
    ensures LargestEligible(other, |other.units|) == LargestEligible(input, |input.units|)
  {
    forall k | 0 < k < |input.units|
      ensures Eligible(other, k) <==> Eligible(input, k)
    {
    }
    OnlyLargest(other, LargestEligible(input, |input.units|));
  }

  // ------------------------------------------------------------ safety under any policy

  /** A plan nothing can go wrong with: nothing is lost, and what is covered ends right before a
      turn, never beyond the built-in forced cut, so the kept tail is at least the protected one. */
  ghost predicate SafePlan(input: PlanInput, plan: PlanResult) {
    && plan.covered + plan.retained == input.units
    && plan.estimatedTokens == Total(input.price, RequestMessages(input, plan.retained)) + input.toolTokens
    && plan.coveredThrough == (if plan.covered == [] then 0 else plan.covered[|plan.covered| - 1].last)
    && (!plan.needsCompaction ==> plan.covered == [])
    && (plan.covered != [] ==>
          && plan.retained != [] && plan.retained[0].kind == TurnUnit
          && |plan.covered| <= |BuiltIn(input.(force := true)).covered|
          && Total(input.price, RequestMessages(input, plan.retained)) >= input.budget.protectedTail)
  }

  lemma CutIsSafe(input: PlanInput, k: nat)
    requires k == 0 || Eligible(input, k)
    ensures k <= |input.units| && SafePlan(input, CutAt(input, k))
  {
    assert input.units[..k] + input.units[k..] == input.units;
    RequestTokensArePrice(input, input.units[k..]);
    SameRequests(input, input.(force := true));
    if k > 0 {
      assert k <= LargestEligible(input, |input.units|);
    }
  }

  /** A plan that must compact covers something whenever something may be covered. */
  ghost predicate Obeys(input: PlanInput, mustCompact: bool, plan: PlanResult) {
    mustCompact && (exists k :: Eligible(input, k)) ==> plan.needsCompaction && plan.covered != []
  }

  /** Whatever the callback answers, a plan that is returned is safe; a policy never compacts
      without covering something; and a forced plan with any eligible cut always compacts. */
  lemma SafeUnderAnyPolicy(policy: Option<Policy>, input: PlanInput, trigger: Trigger, previousThrough: nat,
                           previousTokens: nat, canceledBefore: bool, canceledAfter: bool)
    requires Plan(policy, input, trigger, previousThrough, previousTokens, canceledBefore, canceledAfter).Ok?
    ensures var plan := Plan(policy, input, trigger, previousThrough, previousTokens, canceledBefore,
                             canceledAfter).value;
            && SafePlan(input, plan)
            && (policy.Some? && plan.needsCompaction ==> plan.covered != [])
            && Obeys(input, input.force || (policy.Some?
                                            && RequestTokens(input, input.units)
                                               + previousTokens > input.budget.hardInput), plan)
  {
    if policy.Some? {
      var shown := Metadata(input, trigger, previousThrough, previousTokens);
      JudgedPlanIsSafe(input, shown, policy.value(shown).value);
    } else {
      BuiltInPlanIsSafe(input);
    }
  }

  lemma BuiltInPlanIsSafe(input: PlanInput)
    ensures SafePlan(input, BuiltIn(input)) && Obeys(input, input.force, BuiltIn(input))
  {
    var cut := LargestEligible(input, |input.units|);
    if BuiltIn(input).needsCompaction {
      CutIsSafe(input, cut);
    } else {
      UncutIsSafe(input);
    }
  }

  lemma UncutIsSafe(input: PlanInput)
    ensures SafePlan(input, Uncut(input))
  {
    assert [] + input.units == input.units;
    RequestTokensArePrice(input, input.units);
  }

  lemma JudgedPlanIsSafe(input: PlanInput, shown: PolicyInput, decision: Decision)
    requires Judge(input, shown, decision).Ok? && shown.candidates == CandidatesBelow(input, |input.units|)
    ensures var plan := Judge(input, shown, decision).value;
            && SafePlan(input, plan)
            && (plan.needsCompaction ==> plan.covered != [])
            && Obeys(input, shown.force, plan)
  {
    if decision.compact {
      CutIsSafe(input, decision.candidateID);
      return;
    }
    UncutIsSafe(input);
    if k :| Eligible(input, k) {
      OfferedIds(input, |input.units|, k);
    }
  }

  /** The offered identifiers are exactly the eligible cuts. */
  lemma {:induction false} OfferedIds(input: PlanInput, bound: nat, k: nat)
    requires bound <= |input.units|
    ensures k in IdsOf(CandidatesBelow(input, bound)) <==> k < bound && Eligible(input, k)
  {
    if bound > 0 {
      OfferedIds(input, bound - 1, k);
      MoreIds(CandidatesBelow(input, bound - 1), CandidateAt(input, bound - 1));
    }
  }

  /** Without a callback a plan may ask for compaction and cover nothing: exactly when it must cut
      (forced, or over the trigger) and no cut is eligible. */
  lemma EmptyCompaction(input: PlanInput)
    ensures BuiltIn(input).needsCompaction && BuiltIn(input).covered == [] <==>
            && (input.force || !Within(RequestTokens(input, input.units), input.budget.trigger))
            && (forall k :: !Eligible(input, k))
  {
    var best := LargestEligible(input, |input.units|);
    if best == 0 {
      assert forall k :: Eligible(input, k) ==> 0 < k < |input.units|;
    }
  }

  /** Such an input: a forced plan over a session without any unit. */
  lemma ForcedPlanOverNothing(input: PlanInput)
    requires input.units == [] && input.force
    ensures BuiltIn(input).needsCompaction && BuiltIn(input).covered == [] && BuiltIn(input).retained == []
  {
  }
}
