/** Checkpoints, and combining one with a retained tail into the next request. */
module Materialize {
  import opened Domain
  import opened Meter
  import opened Projector
  import opened ToolPairs
  import opened ToolResult
  import opened Planner
  import opened SourceDigest

  datatype Checkpoint = Checkpoint(
    id: string,
    sessionID: string,
    kind: CheckpointKind,
    sourceSchema: string,
    summaryFormat: string,
    promptVersion: string,
    coverage: Coverage,
    previousID: string,
    summary: string,
    limitations: string,
    tokensBefore: nat,
    checkpointTokens: nat,
    retainedTailTokens: nat,
    estimatedRequestTokens: nat,
    summarizerRoute: string,
    summarizerUsage: nat,
    summaryChunks: nat,
    prunedToolResults: nat,
    snapshot: Option<InstructionSnapshot>)

  /** The fixed text that stands for a reset, by checkpoint and covered sequence. */
  type ResetMarker = (string, nat) -> string

  function SnapshotMessages(snapshot: Option<InstructionSnapshot>): seq<Message> {
    if snapshot.None? || snapshot.value.renderedMessage == "" then []
    else [TextMessage(User, snapshot.value.renderedMessage)]
  }

  /** What a checkpoint puts in place of the history it covers. */
  function CheckpointMessages(marker: ResetMarker, checkpoint: Option<Checkpoint>): seq<Message> {
    match checkpoint
    case None => []
    case Some(c) =>
      (match c.kind
       case RollingSummary => [TextMessage(User, c.summary)]
       case SourceTailReset => [TextMessage(User, marker(c.id, c.coverage.through))]
       case OtherKind(_) => [])
      + SnapshotMessages(c.snapshot)
  }

  // ------------------------------------------------------------ pruning

  /** How tool results shrink: the replacement text, if any, and how many may be replaced. */
  datatype Pruning = Pruning(shrink: Message -> Option<string>, most: nat)

  /** What becomes of a list of messages, and how many replacements are left after it. */
  datatype Pruned = Pruned(messages: seq<Message>, left: nat)

  /** One message: a tool result with a replacement takes it while replacements are left. */
  function PruneOne(shrink: Message -> Option<string>, message: Message, left: nat): (r: (Message, nat))
    ensures r.0 == message.(text := r.0.text) && r.1 <= left && (r.1 == left ==> r.0 == message)
  {
    if left > 0 && message.role == Tool
       && shrink(message).Some? then (message.(text := shrink(message).value), left - 1)
    else (message, left)
  }

  /** Replace tool results oldest first, at most `left` of them. */
  function Prune(shrink: Message -> Option<string>, messages: seq<Message>, left: nat): (r: Pruned)
    ensures r.left <= left
    decreases |messages|
  {
    if messages == [] then Pruned([], left)
    else
      var (first, less) := PruneOne(shrink, messages[0], left);
      var rest := Prune(shrink, messages[1..], less);
      Pruned([first] + rest.messages, rest.left)
  }

  lemma {:induction false} PruneSplits(shrink: Message -> Option<string>, a: seq<Message>, b: seq<Message>, left: nat)
    ensures var first := Prune(shrink, a, left);
            var second := Prune(shrink, b, first.left);
            Prune(shrink, a + b, left) == Pruned(first.messages + second.messages, second.left)
    decreases |a|
  {
    if a == [] {
      assert a + b == b;
    } else {
      assert (a + b)[1..] == a[1..] + b;
      PruneSplits(shrink, a[1..], b, PruneOne(shrink, a[0], left).1);
    }
  }

  /** Pruning rewrites texts of tool results and nothing else. */
  lemma {:induction false} PruneOnlyTexts(shrink: Message -> Option<string>, messages: seq<Message>, left: nat)
    ensures SameButText(messages, Prune(shrink, messages, left).messages)
    decreases |messages|
  {
    if messages != [] {
      PruneOnlyTexts(shrink, messages[1..], PruneOne(shrink, messages[0], left).1);
    }
  }

  /** Where no replacement was made, nothing changed. */
  lemma {:induction false} PrunedNone(shrink: Message -> Option<string>, messages: seq<Message>, left: nat)
    ensures Prune(shrink, messages, left).left == left ==> Prune(shrink, messages, left).messages == messages
    decreases |messages|
  {
    if messages != [] {
      PrunedNone(shrink, messages[1..], PruneOne(shrink, messages[0], left).1);
    }
  }

  /** The rule in use: a tool result over the cap becomes its projection, if one fits. */
  function ProjectOver(header: (string, string) -> string, protectedTail: nat,
                       hardInput: nat): Message -> Option<string>
  {
    (message: Message) =>
      if EstimateText(message.text) <= MaxProjectedTokens(protectedTail) then None
      else match ProjectedText(header(message.toolCallID, message.text), message.text,
                               MaxProjectedTokens(protectedTail), hardInput)
        case Excerpt(text) => Some(text)
        case _ => None
  }

  /** The pruning in force: off without a protected tail or without an allowance. */
  function PruningInForce(header: (string, string) -> string, protectedTail: nat, most: nat, hardInput: nat): Pruning {
    Pruning(ProjectOver(header, protectedTail, hardInput), if protectedTail > 0 then most else 0)
  }

  /** A message left alone, or a tool result over the cap replaced by a text that costs at most the
      cap or is the empty frame within the hard limit. */
  ghost predicate ShrunkWell(header: (string, string) -> string, protectedTail: nat, hardInput: nat, before: Message,
                             after: Message)
  {
    var cap := MaxProjectedTokens(protectedTail);
    || after == before
    || (&& before.role == Tool && EstimateText(before.text) > cap && after == before.(text := after.text)
        && (|| EstimateText(after.text) <= cap
            || (&& after.text == Frame(header(before.toolCallID, before.text), before.text, 0)
                && EstimateText(after.text) <= hardInput)))
  }

  lemma PruneOneIsBounded(header: (string, string) -> string, protectedTail: nat, hardInput: nat, message: Message,
                          left: nat)
    ensures ShrunkWell(header, protectedTail, hardInput, message,
                       PruneOne(ProjectOver(header, protectedTail, hardInput), message, left).0)
  {
    ProjectionIsBounded(header(message.toolCallID, message.text), message.text, MaxProjectedTokens(protectedTail),
                        hardInput);
  }

  /** Whatever pruning puts in place of a tool result is bounded. */
  lemma {:induction false} PrunedTextsAreBounded(header: (string, string) -> string, protectedTail: nat, hardInput: nat,
                                                 messages: seq<Message>, left: nat)
    ensures var pruned := Prune(ProjectOver(header, protectedTail, hardInput), messages, left).messages;
            && |pruned| == |messages|
            && forall i :: 0 <= i < |messages| ==> ShrunkWell(header, protectedTail, hardInput, messages[i], pruned[i])
    decreases |messages|
  {
    if messages != [] {
      var shrink := ProjectOver(header, protectedTail, hardInput);
      PruneOneIsBounded(header, protectedTail, hardInput, messages[0], left);
      PrunedTextsAreBounded(header, protectedTail, hardInput, messages[1..], PruneOne(shrink, messages[0], left).1);
      assert forall i :: 0 < i < |messages| ==> messages[i] == messages[1..][i - 1];
    }
  }

  /** Tool-pair safety of the retained tail, through any cut and any pruning. */
  lemma RequestTailIsPaired(records: seq<Record>, k: nat, shrink: Message -> Option<string>, left: nat)
    requires Project(records).Ok? && k <= |Project(records).value.units|
    ensures Paired(Prune(shrink, Flatten(Project(records).value.units[k..]), left).messages)
  {
    AnyTailIsPaired(records, k);
    PruneOnlyTexts(shrink, Flatten(Project(records).value.units[k..]), left);
    PairedIgnoresText(Flatten(Project(records).value.units[k..]),
                      Prune(shrink, Flatten(Project(records).value.units[k..]), left).messages);
  }

  // ------------------------------------------------------------ the request

  datatype Prepared = Prepared(
    messages: seq<Message>,
    checkpointID: string,
    checkpointKind: Option<CheckpointKind>,
    fromSequence: nat,
    throughSequence: nat,
    messageTokens: nat,
    toolTokens: nat,
    totalTokens: nat,
    prunedToolResults: nat)

  /** Prefix, checkpoint, retained tail oldest first, current input. */
  function RequestWith(marker: ResetMarker, prefix: seq<Message>, checkpoint: Option<Checkpoint>, tail: seq<Message>,
                       current: Message): seq<Message>
  {
    prefix + CheckpointMessages(marker, checkpoint) + tail + CurrentMessages(current)
  }

  /** Append the retained messages, rewriting and counting replacements on the way. */
  method AppendTail(messages: seq<Message>, tail: seq<Unit>, pruning: Pruning) returns (all: seq<Message>, left: nat)
    ensures var spec := Prune(pruning.shrink, Flatten(tail), pruning.most);
            all == messages + spec.messages && left == spec.left
  {
    all, left := messages, pruning.most;
    ghost var spec := Prune(pruning.shrink, Flatten(tail), pruning.most);
    ghost var goal := Pruned(messages + spec.messages, spec.left);
    for i := 0 to |tail|
      invariant Pending(pruning.shrink, all, Flatten(tail[i..]), left, goal)
    {
      FlattenOne(tail, i);
      PendingStep(pruning.shrink, all, tail[i].messages, Flatten(tail[i + 1..]), left, goal);
      all, left := AppendUnit(all, tail[i].messages, pruning.shrink, left);
    }
  }

  /** After `done`, pruning `rest` completes `goal`. */
  ghost predicate Pending(shrink: Message -> Option<string>, done: seq<Message>, rest: seq<Message>, left: nat,
                          goal: Pruned)
  {
    var r := Prune(shrink, rest, left);
    done + r.messages == goal.messages && r.left == goal.left
  }

  lemma PendingStep(shrink: Message -> Option<string>, done: seq<Message>, unit: seq<Message>, rest: seq<Message>,
                    left: nat, goal: Pruned)
    requires Pending(shrink, done, unit + rest, left, goal)
    ensures Pending(shrink, done + Prune(shrink, unit, left).messages, rest, Prune(shrink, unit, left).left, goal)
  {
    PruneSplits(shrink, unit, rest, left);
    var first := Prune(shrink, unit, left);
    var second := Prune(shrink, rest, first.left);
    assert done + (first.messages + second.messages) == (done + first.messages) + second.messages;
  }

  method AppendUnit(messages: seq<Message>, unit: seq<Message>, shrink: Message -> Option<string>, before: nat)
    returns (all: seq<Message>, left: nat)
    ensures var spec := Prune(shrink, unit, before);
            all == messages + spec.messages && left == spec.left
  {
    all, left := messages, before;
    ghost var spec := Prune(shrink, unit, before);
    for i := 0 to |unit|
      invariant var rest := Prune(shrink, unit[i..], left);
                all + rest.messages == messages + spec.messages && rest.left == spec.left
    {
      var message := unit[i];
      assert unit[i..][1..] == unit[i + 1..];
      if left > 0 && message.role == Tool && shrink(message).Some? {
        message, left := message.(text := shrink(message).value), left - 1;
      }
      all := all + [message];
    }
  }

  method Materialize(price: Message -> nat, toolTokens: nat, marker: ResetMarker, prefix: seq<Message>,
                     checkpoint: Option<Checkpoint>, tail: seq<Unit>, current: Message, pruning: Pruning)
    returns (r: Prepared)
    ensures r.messages == RequestWith(marker, prefix, checkpoint,
                                      Prune(pruning.shrink, Flatten(tail), pruning.most).messages, current)
    ensures r.prunedToolResults == pruning.most - Prune(pruning.shrink, Flatten(tail), pruning.most).left
    ensures r.messageTokens == Total(price, r.messages) && r.toolTokens == toolTokens
            && r.totalTokens == r.messageTokens + r.toolTokens
    ensures if checkpoint.Some?
            then r.checkpointID == checkpoint.value.id && r.checkpointKind == Some(checkpoint.value.kind)
            else r.checkpointID == "" && r.checkpointKind == None
    ensures if tail == [] then r.fromSequence == 0 && r.throughSequence == 0
            else r.fromSequence == tail[0].first && r.throughSequence == tail[|tail| - 1].last
  {
    var messages, left := AppendTail(prefix + CheckpointMessages(marker, checkpoint), tail, pruning);
    messages := messages + CurrentMessages(current);
    var first, last := 0, 0;
    if |tail| > 0 {
      first, last := tail[0].first, tail[|tail| - 1].last;
    }
    var tokens := Total(price, messages);
    var id, kind := "", None;
    if checkpoint.Some? {
      id, kind := checkpoint.value.id, Some(checkpoint.value.kind);
    }
    r := Prepared(messages, id, kind, first, last, tokens, toolTokens, tokens + toolTokens, pruning.most - left);
  }
}
