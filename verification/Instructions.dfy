/** Workspace instructions: reconciling observed files into set, replace and remove deltas, and
    rebuilding the live state from the recorded deltas.

    Path, content and label validators and the two hashes are parameters. The reconciler sorts its
    observations before it works through them; what it keeps holds for every order, and the order
    it emits is that of the sorted paths. */
module Instructions {
  import opened Domain
  import opened Ordering
  import Sources = SourceList

  const MAX_SOURCES: nat := 256

  datatype Observation = Observation(path: string, scope: string, present: bool, content: string,
                                     failure: Option<string>)

  datatype State = State(epoch: nat, discovered: map<string, string>, sources: map<string, InstructionSource>)

  const BLANK := State(0, map[], map[])

  datatype Batch = Batch(
    epoch: nat, discovered: seq<InstructionScope>, changes: seq<InstructionChange>,
    diagnostics: seq<InstructionDiagnostic>)
  {
    predicate Empty() {
      discovered == [] && changes == [] && diagnostics == []
    }
  }

  const NO_BATCH := Batch(0, [], [], [])

  datatype Rules = Rules(
    validPath: (string, string) -> bool,
    validContent: string -> bool,
    validClass: string -> bool,
    hash: string -> string,
    setDigest: map<string, InstructionSource> -> string)

  datatype Fault =
    | InvalidPath | DuplicateObservation | TooManyPaths | InvalidClass | InvalidContent
    | EpochGap | DiscoveredTwice | AlreadySet | PriorMismatch | UnknownActionKind | ContentMismatch | SetMismatch

  // ------------------------------------------------------------ reconciling

  /** Every observation is well-formed, no path comes twice, and there is room for all of them. */
  function Check(rules: Rules, discovered: map<string, string>, observations: seq<Observation>, seen: set<string>,
                 count: nat): Option<Fault>
    decreases |observations|
  {
    if observations == [] then None
    else
      var o := observations[0];
      if !rules.validPath(o.path, o.scope) then Some(InvalidPath)
      else if o.path in seen then Some(DuplicateObservation)
      else if o.path !in discovered && count + 1 > MAX_SOURCES then Some(TooManyPaths)
      else Check(rules, discovered, observations[1..], seen + {o.path}, if o.path in discovered then
                 count else count + 1)
  }

  /** The state and the batch so far. */
  datatype Work = Work(discovered: map<string, string>, sources: map<string, InstructionSource>, batch: Batch)

  function Discover(work: Work, o: Observation): Work {
    if o.path in work.discovered then work
    else work.(discovered := work.discovered[o.path := o.scope],
               batch := work.batch.(discovered := work.batch.discovered + [InstructionScope(o.path, o.scope)]))
  }

  function Record(work: Work, sources: map<string, InstructionSource>, change: InstructionChange): Work {
    work.(sources := sources, batch := work.batch.(changes := work.batch.changes + [change]))
  }

  /** What one observation changes about its source. */
  function Observe(rules: Rules, work: Work, o: Observation): Result<Work, Fault> {
    match o.failure
    case Some(text) =>
      if !rules.validClass(text) then Err(InvalidClass)
      else Ok(work.(batch := work.batch.(diagnostics := work.batch.diagnostics
                                         + [InstructionDiagnostic(o.path, text)])))
    case None =>
      var existed := o.path in work.sources;
      if !o.present then
        if !existed then Ok(work)
        else Ok(Record(work, work.sources - {o.path},
                       InstructionChange(RemoveAction, o.path, o.scope, work.sources[o.path].digest, "", "")))
      else if !rules.validContent(o.content) then Err(InvalidContent)
      else
        var digest := rules.hash(o.content);
        if existed && work.sources[o.path].digest == digest then Ok(work)
        else
          var sources := work.sources[o.path := InstructionSource(o.path, o.scope, digest, o.content)];
          if existed then Ok(Record(work, sources,
                                    InstructionChange(ReplaceAction, o.path, o.scope, work.sources[o.path].digest,
                                                      digest, o.content)))
          else Ok(Record(work, sources, InstructionChange(SetAction, o.path, o.scope, "", digest, o.content)))
  }

  function ObserveAll(rules: Rules, work: Work, observations: seq<Observation>): Result<Work, Fault>
    decreases |observations|
  {
    if observations == [] then Ok(work)
    else match Observe(rules, Discover(work, observations[0]), observations[0])
      case Err(f) => Err(f)
      case Ok(next) => ObserveAll(rules, next, observations[1..])
  }

  /** A failed or empty reconciliation leaves the state as it was. */
  function Reconcile(rules: Rules, state: State, observations: seq<Observation>): Result<(Batch, State), Fault> {
    match Check(rules, state.discovered, observations, {}, |state.discovered|)
    case Some(f) => Err(f)
    case None =>
      match ObserveAll(rules, Work(state.discovered, state.sources, NO_BATCH), observations)
      case Err(f) => Err(f)
      case Ok(work) =>
        if work.batch.Empty() then Ok((NO_BATCH, state))
        else Ok((work.batch.(epoch := state.epoch + 1), State(state.epoch + 1, work.discovered, work.sources)))
  }

  function ObservationKey(o: Observation): Key {
    KeyOf(o.scope, o.path)
  }

  /** Reconcile the observations in the order of their paths. */
  function ReconcileSorted(rules: Rules, state: State, observations: seq<Observation>): Result<(Batch, State), Fault> {
    Reconcile(rules, state, Sort(ObservationKey, observations))
  }

  // ------------------------------------------------------------ replaying

  function ApplyDiscovered(rules: Rules, discovered: map<string, string>,
                           scopes: seq<InstructionScope>): Result<map<string, string>, Fault>
    decreases |scopes|
  {
    if scopes == [] then Ok(discovered)
    else
      var s := scopes[0];
      if !rules.validPath(s.path, s.scope) then Err(InvalidPath)
      else if s.path in discovered then Err(DiscoveredTwice)
      else ApplyDiscovered(rules, discovered[s.path := s.scope], scopes[1..])
  }

  function ApplyChange(rules: Rules, sources: map<string, InstructionSource>,
                       c: InstructionChange): Result<map<string, InstructionSource>, Fault>
  {
    var exists' := c.path in sources;
    if !rules.validPath(c.path, c.scope) then Err(InvalidPath)
    else match c.action
      case SetAction => if exists' then Err(AlreadySet) else PutSource(rules, sources, c)
      case ReplaceAction =>
        if !exists' || sources[c.path].digest != c.priorDigest then Err(PriorMismatch) else PutSource(rules, sources, c)
      case RemoveAction =>
        if !exists' || sources[c.path].digest != c.priorDigest then Err(PriorMismatch) else Ok(sources - {c.path})
      case UnknownAction => Err(UnknownActionKind)
  }

  function PutSource(rules: Rules, sources: map<string, InstructionSource>,
                     c: InstructionChange): Result<map<string, InstructionSource>, Fault>
  {
    if rules.hash(c.content) != c.digest then Err(ContentMismatch)
    else Ok(sources[c.path := InstructionSource(c.path, c.scope, c.digest, c.content)])
  }

  function ApplyChanges(rules: Rules, sources: map<string, InstructionSource>,
                        changes: seq<InstructionChange>): Result<map<string, InstructionSource>, Fault>
    decreases |changes|
  {
    if changes == [] then Ok(sources)
    else match ApplyChange(rules, sources, changes[0])
      case Err(f) => Err(f)
      case Ok(next) => ApplyChanges(rules, next, changes[1..])
  }

  /** Replay one recorded batch. */
  function ReplayBatch(rules: Rules, state: State, epoch: nat, scopes: seq<InstructionScope>,
                       changes: seq<InstructionChange>, digest: string): Result<State, Fault>
  {
    if epoch != state.epoch + 1 then Err(EpochGap)
    else match ApplyDiscovered(rules, state.discovered, scopes)
      case Err(f) => Err(f)
      case Ok(discovered) =>
        match ApplyChanges(rules, state.sources, changes)
        case Err(f) => Err(f)
        case Ok(sources) => if rules.setDigest(sources) != digest then Err(SetMismatch)
          else Ok(State(epoch, discovered, sources))
  }

  /** Replay the instruction events of a log; all others are skipped. */
  function ReplayFrom(rules: Rules, state: State, events: seq<Event>): Result<State, Fault>
    decreases |events|
  {
    if events == [] then Ok(state)
    else if !events[0].WorkspaceInstructionsRecorded? then ReplayFrom(rules, state, events[1..])
    else
      var e := events[0];
      match ReplayBatch(rules, state, e.epoch, e.discovered, e.changes, e.effectiveSetDigest)
      case Err(f) => Err(f)
      case Ok(next) => ReplayFrom(rules, next, events[1..])
  }

  function Replay(rules: Rules, events: seq<Event>): Result<State, Fault> {
    ReplayFrom(rules, BLANK, events)
  }

  // ------------------------------------------------------------ a batch replays to the state it came from

  lemma {:induction false} ChangesSplit(rules: Rules, sources: map<string, InstructionSource>,
                                        a: seq<InstructionChange>, b: seq<InstructionChange>)
    ensures ApplyChanges(rules, sources, a + b) ==
            match ApplyChanges(rules, sources, a) { case Err(f) => Err(f) case Ok(mid) => ApplyChanges(rules, mid, b) }
    decreases |a|
  {
    if a == [] {
      assert a + b == b;
    } else {
      assert (a + b)[1..] == a[1..] + b;
      match ApplyChange(rules, sources, a[0])
      case Err(_) =>
      case Ok(next) => ChangesSplit(rules, next, a[1..], b);
    }
  }

  lemma {:induction false} DiscoveredSplit(rules: Rules, discovered: map<string, string>, a: seq<InstructionScope>,
                                           b: seq<InstructionScope>)
    ensures ApplyDiscovered(rules, discovered, a + b) ==
            match ApplyDiscovered(rules, discovered, a) { case Err(f) => Err(f)
                                                         case Ok(mid) => ApplyDiscovered(rules, mid, b) }
    decreases |a|
  {
    if a == [] {
      assert a + b == b;
    } else {
      assert (a + b)[1..] == a[1..] + b;
      if rules.validPath(a[0].path, a[0].scope) && a[0].path !in discovered {
        DiscoveredSplit(rules, discovered[a[0].path := a[0].scope], a[1..], b);
      }
    }
  }

  /** Replaying the batch on `state` gives the work's own maps. */
  ghost predicate Rebuilds(rules: Rules, state: State, work: Work) {
    && ApplyDiscovered(rules, state.discovered, work.batch.discovered) == Ok(work.discovered)
    && ApplyChanges(rules, state.sources, work.batch.changes) == Ok(work.sources)
  }

  lemma DiscoverRebuilds(rules: Rules, state: State, work: Work, o: Observation)
    requires Rebuilds(rules, state, work) && rules.validPath(o.path, o.scope)
    ensures Rebuilds(rules, state, Discover(work, o))
  {
    DiscoveredSplit(rules, state.discovered, work.batch.discovered, [InstructionScope(o.path, o.scope)]);
    assert [InstructionScope(o.path, o.scope)][1..] == [];
  }

  lemma RecordRebuilds(rules: Rules, state: State, work: Work, sources: map<string, InstructionSource>,
                       c: InstructionChange)
    requires Rebuilds(rules, state, work) && ApplyChange(rules, work.sources, c) == Ok(sources)
    ensures Rebuilds(rules, state, Record(work, sources, c))
  {
    ChangesSplit(rules, state.sources, work.batch.changes, [c]);
    assert [c][1..] == [];
  }

  lemma ObserveRebuilds(rules: Rules, state: State, work: Work, o: Observation)
    requires Rebuilds(rules, state, work) && rules.validPath(o.path, o.scope) && Observe(rules, work, o).Ok?
    ensures Rebuilds(rules, state, Observe(rules, work, o).value)
  {
    var next := Observe(rules, work, o).value;
    if o.failure.None? && next != work {
      var c := next.batch.changes[|work.batch.changes|];
      assert next == Record(work, next.sources, c);
      assert ApplyChange(rules, work.sources, c) == Ok(next.sources);
      RecordRebuilds(rules, state, work, next.sources, c);
    }
  }

  lemma {:induction false} ObserveAllRebuilds(rules: Rules, state: State, work: Work, observations: seq<Observation>,
                                              seen: set<string>, count: nat, known: map<string, string>)
    requires Rebuilds(rules, state, work) && ObserveAll(rules, work, observations).Ok?
    requires Check(rules, known, observations, seen, count).None?
    ensures Rebuilds(rules, state, ObserveAll(rules, work, observations).value)
    decreases |observations|
  {
    if observations != [] {
      var o := observations[0];
      DiscoverRebuilds(rules, state, work, o);
      ObserveRebuilds(rules, state, Discover(work, o), o);
      ObserveAllRebuilds(rules, state, Observe(rules, Discover(work, o), o).value, observations[1..], seen + {o.path},
                         if o.path in known then count else count + 1, known);
    }
  }

  /** The event that records a reconciliation. */
  function Recorded(rules: Rules, batch: Batch, next: State, rendered: string): Event {
    WorkspaceInstructionsRecorded(batch.epoch, batch.discovered, batch.changes, rendered, rules.setDigest(next.sources))
  }

  lemma ReconcileReplays(rules: Rules, state: State, observations: seq<Observation>)
    requires Reconcile(rules, state, observations).Ok?
    ensures var (batch, next) := Reconcile(rules, state, observations).value;
            if batch.Empty() then next == state
            else ReplayBatch(rules, state, batch.epoch, batch.discovered, batch.changes,
                             rules.setDigest(next.sources)) == Ok(next)
  {
    ObserveAllRebuilds(rules, state, Work(state.discovered, state.sources, NO_BATCH), observations, {},
                       |state.discovered|, state.discovered);
  }

  // ------------------------------------------------------------ what every reconciliation keeps

  ghost predicate Well(state: State) {
    state.sources.Keys <= state.discovered.Keys && |state.discovered| <= MAX_SOURCES
  }

  function Paths(observations: seq<Observation>): set<string> {
    if observations == [] then {} else {observations[0].path} + Paths(observations[1..])
  }

  lemma OnePathMore(held: set<string>, path: string)
    ensures |held + {path}| == |held| + if path in held then 0 else 1
  {
    if path in held {
      assert held + {path} == held;
    }
  }

  ghost predicate Covers(held: set<string>, discovered: map<string, string>, seen: set<string>) {
    forall p :: p in held <==> p in discovered || p in seen
  }

  lemma CoversOneMore(held: set<string>, discovered: map<string, string>, seen: set<string>, path: string)
    requires Covers(held, discovered, seen)
    ensures Covers(held + {path}, discovered, seen + {path})
    ensures path in held <==> path in discovered || path in seen
  {
  }

  /** An accepted list of observations leaves room: known and observed paths together stay in bounds. */
  lemma {:induction false} CheckBounds(rules: Rules, discovered: map<string, string>, observations: seq<Observation>,
                                       seen: set<string>, held: set<string>)
    requires Covers(held, discovered, seen) && |held| <= MAX_SOURCES
    requires Check(rules, discovered, observations, seen, |held|).None?
    ensures |held + Paths(observations)| <= MAX_SOURCES
    decreases |observations|
  {
    if observations == [] {
      assert held + Paths(observations) == held;
    } else {
      var o := observations[0];
      OnePathMore(held, o.path);
      CoversOneMore(held, discovered, seen, o.path);
      CheckBounds(rules, discovered, observations[1..], seen + {o.path}, held + {o.path});
      Regroup(held, {o.path}, Paths(observations[1..]));
    }
  }

  lemma Regroup(a: set<string>, b: set<string>, c: set<string>)
    ensures a + (b + c) == (a + b) + c
  {
  }

  /** The observed paths, and no others, become discovered, and sources stay among them. */
  lemma {:induction false} ObserveAllKeys(rules: Rules, work: Work, observations: seq<Observation>)
    requires work.sources.Keys <= work.discovered.Keys && ObserveAll(rules, work, observations).Ok?
    ensures var end := ObserveAll(rules, work, observations).value;
            end.discovered.Keys == work.discovered.Keys + Paths(observations) && end.sources.Keys <= end.discovered.Keys
    decreases |observations|
  {
    if observations == [] {
      assert work.discovered.Keys + Paths(observations) == work.discovered.Keys;
    } else {
      var o := observations[0];
      var mid := Discover(work, o);
      assert mid.discovered.Keys == work.discovered.Keys + {o.path};
      ObserveAllKeys(rules, Observe(rules, mid, o).value, observations[1..]);
    }
  }

  lemma ReconcileKeepsWell(rules: Rules, state: State, observations: seq<Observation>)
    requires Well(state) && Reconcile(rules, state, observations).Ok?
    ensures Well(Reconcile(rules, state, observations).value.1)
  {
    var known := state.discovered.Keys;
    assert known + {} == known && |known| == |state.discovered|;
    CheckBounds(rules, state.discovered, observations, {}, known);
    ObserveAllKeys(rules, Work(state.discovered, state.sources, NO_BATCH), observations);
    var next := Reconcile(rules, state, observations).value.1;
    assert next == state || next.discovered.Keys == known + Paths(observations);
    assert |next.discovered| == |next.discovered.Keys|;
  }

  // ------------------------------------------------------------ whole runs

  /** One step of a session's life: some other event, or an attempt to reconcile whose append may fail. */
  datatype Action =
    | Other(event: Event)
    | Attempt(observations: seq<Observation>, rendered: string, committed: bool)

  datatype Life = Life(state: State, events: seq<Event>)

  function LiveStep(rules: Rules, life: Life, action: Action): Life {
    match action
    case Other(event) => if event.WorkspaceInstructionsRecorded? then life else life.(events := life.events + [event])
    case Attempt(observations, rendered, committed) =>
      match ReconcileSorted(rules, life.state, observations)
      case Err(_) => life
      case Ok((batch, next)) =>
        if batch.Empty() || !committed then life
        else Life(next, life.events + [Recorded(rules, batch, next, rendered)])
  }

  function Live(rules: Rules, actions: seq<Action>): Life {
    if actions == [] then Life(BLANK, [])
    else LiveStep(rules, Live(rules, actions[..|actions| - 1]), actions[|actions| - 1])
  }

  lemma {:induction false} ReplayOneMore(rules: Rules, state: State, events: seq<Event>, event: Event)
    ensures ReplayFrom(rules, state, events + [event]) ==
            match ReplayFrom(rules, state, events) { case Err(f) => Err(f)
                                                    case Ok(mid) => ReplayFrom(rules, mid, [event]) }
    decreases |events|
  {
    if events == [] {
      assert events + [event] == [event];
    } else {
      assert (events + [event])[1..] == events[1..] + [event];
      var e := events[0];
      if !e.WorkspaceInstructionsRecorded? {
        ReplayOneMore(rules, state, events[1..], event);
      } else {
        match ReplayBatch(rules, state, e.epoch, e.discovered, e.changes, e.effectiveSetDigest)
        case Err(_) =>
        case Ok(next) => ReplayOneMore(rules, next, events[1..], event);
      }
    }
  }

  lemma ReplaySingle(rules: Rules, state: State, event: Event)
    ensures ReplayFrom(rules, state, [event]) ==
            if event.WorkspaceInstructionsRecorded?
            then ReplayBatch(rules, state, event.epoch, event.discovered, event.changes, event.effectiveSetDigest)
            else Ok(state)
  {
    assert [event][1..] == [];
  }

  /** Replay rebuilds live instruction state: after every run of reconciliations, interleaved with any
      other events and any failed appends, replaying the log gives the live state; every source's path
      is discovered and at most 256 paths are. */
  lemma {:induction false} ReplayRebuildsLiveState(rules: Rules, actions: seq<Action>)
    ensures var life := Live(rules, actions);
            Replay(rules, life.events) == Ok(life.state) && Well(life.state)
  {
    if actions != [] {
      var before, action := Live(rules, actions[..|actions| - 1]), actions[|actions| - 1];
      ReplayRebuildsLiveState(rules, actions[..|actions| - 1]);
      StepRebuilds(rules, before, action);
    }
  }

  lemma StepRebuilds(rules: Rules, life: Life, action: Action)
    requires Replay(rules, life.events) == Ok(life.state) && Well(life.state)
    ensures var next := LiveStep(rules, life, action);
            Replay(rules, next.events) == Ok(next.state) && Well(next.state)
  {
    match action
    case Other(event) =>
      ReplayOneMore(rules, BLANK, life.events, event);
      ReplaySingle(rules, life.state, event);
    case Attempt(observations, rendered, committed) =>
      var sorted := Sort(ObservationKey, observations);
      if Reconcile(rules, life.state, sorted).Ok? {
        var (batch, next) := Reconcile(rules, life.state, sorted).value;
        ReconcileReplays(rules, life.state, sorted);
        ReconcileKeepsWell(rules, life.state, sorted);
        ReplayOneMore(rules, BLANK, life.events, Recorded(rules, batch, next, rendered));
        ReplaySingle(rules, life.state, Recorded(rules, batch, next, rendered));
      }
  }

  lemma {:induction false} ChangesKeepKeyed(rules: Rules, sources: map<string, InstructionSource>,
                                            changes: seq<InstructionChange>)
    requires Sources.Keyed(sources) && ApplyChanges(rules, sources, changes).Ok?
    ensures Sources.Keyed(ApplyChanges(rules, sources, changes).value)
    decreases |changes|
  {
    if changes != [] {
      ChangesKeepKeyed(rules, ApplyChange(rules, sources, changes[0]).value, changes[1..]);
    }
  }

  /** A replayed state files every source under its own path. */
  lemma {:induction false} ReplayIsKeyed(rules: Rules, state: State, events: seq<Event>)
    requires Sources.Keyed(state.sources) && ReplayFrom(rules, state, events).Ok?
    ensures Sources.Keyed(ReplayFrom(rules, state, events).value.sources)
    decreases |events|
  {
    if events != [] {
      var e := events[0];
      if e.WorkspaceInstructionsRecorded? {
        ChangesKeepKeyed(rules, state.sources, e.changes);
        ReplayIsKeyed(rules, ReplayBatch(rules, state, e.epoch, e.discovered, e.changes, e.effectiveSetDigest).value,
                      events[1..]);
      } else {
        ReplayIsKeyed(rules, state, events[1..]);
      }
    }
  }

  // ------------------------------------------------------------ reconciling again changes nothing

  /** The state already shows what the observation reports. */
  predicate Shows(rules: Rules, discovered: map<string, string>, sources: map<string, InstructionSource>,
                  o: Observation)
  {
    && o.path in discovered
    && if o.present then o.path in sources && sources[o.path].digest == rules.hash(o.content)
       && rules.validContent(o.content)
       else o.path !in sources
  }

  ghost predicate AllShow(rules: Rules, work: Work, observations: seq<Observation>) {
    forall i :: 0 <= i < |observations| ==> Shows(rules, work.discovered, work.sources, observations[i])
  }

  ghost predicate NoneFails(observations: seq<Observation>) {
    forall i :: 0 <= i < |observations| ==> observations[i].failure.None?
  }

  /** Handling an observation makes the state show it, and leaves other paths alone. */
  lemma ObserveShows(rules: Rules, work: Work, o: Observation)
    requires o.failure.None? && Observe(rules, Discover(work, o), o).Ok?
    ensures var next := Observe(rules, Discover(work, o), o).value;
            && Shows(rules, next.discovered, next.sources, o)
            && forall p :: p != o.path ==>
                 (p in next.sources <==> p in work.sources)
                   && (p in work.sources ==> next.sources[p] == work.sources[p])
                                           && (p in work.discovered ==> p in next.discovered)
  {
  }

  lemma {:induction false} UnobservedStay(rules: Rules, work: Work, observations: seq<Observation>, o: Observation)
    requires Shows(rules, work.discovered, work.sources, o) && NoneFails(observations) && o.path !in Paths(observations)
    requires ObserveAll(rules, work, observations).Ok?
    ensures var end := ObserveAll(rules, work, observations).value; Shows(rules, end.discovered, end.sources, o)
    decreases |observations|
  {
    if observations != [] {
      ObserveShows(rules, work, observations[0]);
      UnobservedStay(rules, Observe(rules, Discover(work, observations[0]), observations[0]).value, observations[1..],
                     o);
    }
  }

  lemma {:induction false} CheckedPathsDistinct(rules: Rules, discovered: map<string, string>,
                                                observations: seq<Observation>, seen: set<string>, count: nat)
    requires Check(rules, discovered, observations, seen, count).None?
    ensures Paths(observations) !! seen
    decreases |observations|
  {
    if observations != [] {
      CheckedPathsDistinct(rules, discovered, observations[1..], seen + {observations[0].path},
                           if observations[0].path in discovered then count else count + 1);
    }
  }

  lemma {:induction false} ObserveAllShows(rules: Rules, work: Work, observations: seq<Observation>,
                                           discovered: map<string, string>, seen: set<string>, count: nat)
    requires NoneFails(observations) && ObserveAll(rules, work, observations).Ok?
    requires Check(rules, discovered, observations, seen, count).None?
    ensures AllShow(rules, ObserveAll(rules, work, observations).value, observations)
    decreases |observations|
  {
    if observations != [] {
      var o, rest := observations[0], observations[1..];
      var next := Observe(rules, Discover(work, o), o).value;
      var count' := if o.path in discovered then count else count + 1;
      ObserveShows(rules, work, o);
      CheckedPathsDistinct(rules, discovered, rest, seen + {o.path}, count');
      UnobservedStay(rules, next, rest, o);
      ObserveAllShows(rules, next, rest, discovered, seen + {o.path}, count');
      assert forall i :: 0 < i < |observations| ==> observations[i] == rest[i - 1];
    }
  }

  lemma {:induction false} ShownChangesNothing(rules: Rules, work: Work, observations: seq<Observation>)
    requires NoneFails(observations) && AllShow(rules, work, observations)
    ensures ObserveAll(rules, work, observations) == Ok(work)
    decreases |observations|
  {
    if observations != [] {
      var rest := observations[1..];
      assert Shows(rules, work.discovered, work.sources, observations[0]);
      assert forall i :: 0 <= i < |rest| ==> rest[i] == observations[i + 1];
      ShownChangesNothing(rules, work, rest);
    }
  }

  /** Observations accepted once are accepted again when all their paths are known. */
  lemma {:induction false} CheckAgain(rules: Rules, discovered: map<string, string>, later: map<string, string>,
                                      observations: seq<Observation>, seen: set<string>, count: nat, count': nat)
    requires Check(rules, discovered, observations, seen, count).None? && Paths(observations) <= later.Keys
    ensures Check(rules, later, observations, seen, count').None?
    decreases |observations|
  {
    if observations != [] {
      var o := observations[0];
      assert o.path in later;
      CheckAgain(rules, discovered, later, observations[1..], seen + {o.path}, if o.path in discovered then
                 count else count + 1, count');
    }
  }

  /** Reconciling the same observations again, when none reports a failure, yields an empty batch and
      the same state. */
  lemma ReconcileAgain(rules: Rules, state: State, observations: seq<Observation>)
    requires state.sources.Keys <= state.discovered.Keys && NoneFails(observations)
             && Reconcile(rules, state, observations).Ok?
    ensures var next := Reconcile(rules, state, observations).value.1;
            Reconcile(rules, next, observations) == Ok((NO_BATCH, next))
  {
    var start := Work(state.discovered, state.sources, NO_BATCH);
    var work := ObserveAll(rules, start, observations).value;
    if !work.batch.Empty() {
      var again := Work(work.discovered, work.sources, NO_BATCH);
      ObserveAllKeys(rules, start, observations);
      CheckAgain(rules, state.discovered, work.discovered, observations, {}, |state.discovered|, |work.discovered|);
      ObserveAllShows(rules, start, observations, state.discovered, {}, |state.discovered|);
      assert AllShow(rules, again, observations);
      ShownChangesNothing(rules, again, observations);
    }
  }

  lemma NoneFailsSorted(observations: seq<Observation>)
    requires NoneFails(observations)
    ensures NoneFails(Sort(ObservationKey, observations))
  {
    var sorted := Sort(ObservationKey, observations);
    forall i | 0 <= i < |sorted|
      ensures sorted[i].failure.None?
    {
      SortMembers(ObservationKey, observations, sorted[i]);
    }
  }

  /** The same as the reconciler runs, on sorted observations. */
  lemma ReconcileSortedAgain(rules: Rules, state: State, observations: seq<Observation>)
    requires state.sources.Keys <= state.discovered.Keys && NoneFails(observations)
    requires ReconcileSorted(rules, state, observations).Ok?
    ensures var next := ReconcileSorted(rules, state, observations).value.1;
            ReconcileSorted(rules, next, observations) == Ok((NO_BATCH, next))
  {
    NoneFailsSorted(observations);
    ReconcileAgain(rules, state, Sort(ObservationKey, observations));
  }

  // ------------------------------------------------------------ the order of a batch

  function ScopeKey(s: InstructionScope): Key {
    KeyOf(s.scope, s.path)
  }

  function ChangeKey(c: InstructionChange): Key {
    KeyOf(c.scope, c.path)
  }

  /** Nothing in the list comes after `k`. */
  ghost predicate UpTo<T(!new)>(key: T -> Key, s: seq<T>, k: Key) {
    forall i :: 0 <= i < |s| ==> AtMost(key(s[i]), k)
  }

  /** What was emitted so far is in order and not after what is still to come. */
  ghost predicate InOrderBefore(batch: Batch, k: Key) {
    && Sorted(ScopeKey, batch.discovered) && UpTo(ScopeKey, batch.discovered, k)
    && Sorted(ChangeKey, batch.changes) && UpTo(ChangeKey, batch.changes, k)
  }

  lemma SortedAppend<T(!new)>(key: T -> Key, s: seq<T>, x: T)
    requires Sorted(key, s) && UpTo(key, s, key(x))
    ensures Sorted(key, s + [x]) && UpTo(key, s + [x], key(x))
  {
    LessTextTotal(key(x).path, key(x).path);
  }

  lemma UpToLater<T(!new)>(key: T -> Key, s: seq<T>, k: Key, later: Key)
    requires UpTo(key, s, k) && AtMost(k, later)
    ensures UpTo(key, s, later)
  {
    forall i | 0 <= i < |s|
      ensures AtMost(key(s[i]), later)
    {
      AtMostTransitive(key(s[i]), k, later);
    }
  }

  lemma DiscoverInOrder(work: Work, o: Observation)
    requires InOrderBefore(work.batch, ObservationKey(o))
    ensures InOrderBefore(Discover(work, o).batch, ObservationKey(o))
  {
    SortedAppend(ScopeKey, work.batch.discovered, InstructionScope(o.path, o.scope));
  }

  lemma ObserveInOrder(rules: Rules, work: Work, o: Observation)
    requires InOrderBefore(work.batch, ObservationKey(o)) && Observe(rules, work, o).Ok?
    ensures InOrderBefore(Observe(rules, work, o).value.batch, ObservationKey(o))
  {
    var next := Observe(rules, work, o).value;
    if |next.batch.changes| > |work.batch.changes| {
      SortedAppend(ChangeKey, work.batch.changes, next.batch.changes[|work.batch.changes|]);
    }
  }

  lemma {:induction false} ObserveAllInOrder(rules: Rules, work: Work, observations: seq<Observation>)
    requires Sorted(ObservationKey, observations) && ObserveAll(rules, work, observations).Ok?
    requires observations != [] ==> InOrderBefore(work.batch, ObservationKey(observations[0]))
    requires Sorted(ScopeKey, work.batch.discovered) && Sorted(ChangeKey, work.batch.changes)
    ensures var end := ObserveAll(rules, work, observations).value;
            Sorted(ScopeKey, end.batch.discovered) && Sorted(ChangeKey, end.batch.changes)
    decreases |observations|
  {
    if observations != [] {
      var o, rest := observations[0], observations[1..];
      var next := Observe(rules, Discover(work, o), o).value;
      DiscoverInOrder(work, o);
      ObserveInOrder(rules, Discover(work, o), o);
      if rest != [] {
        assert AtMost(ObservationKey(observations[0]), ObservationKey(observations[1]));
        UpToLater(ScopeKey, next.batch.discovered, ObservationKey(o), ObservationKey(rest[0]));
        UpToLater(ChangeKey, next.batch.changes, ObservationKey(o), ObservationKey(rest[0]));
      }
      ObserveAllInOrder(rules, next, rest);
    }
  }

  /** Discoveries and changes are emitted shallow scopes first and alphabetically, whatever order the
      observations came in. */
  lemma BatchIsInOrder(rules: Rules, state: State, observations: seq<Observation>)
    requires ReconcileSorted(rules, state, observations).Ok?
    ensures var batch := ReconcileSorted(rules, state, observations).value.0;
            Sorted(ScopeKey, batch.discovered) && Sorted(ChangeKey, batch.changes)
  {
    SortSorts(ObservationKey, observations);
    ObserveAllInOrder(rules, Work(state.discovered, state.sources, NO_BATCH), Sort(ObservationKey, observations));
  }

  // ------------------------------------------------------------ the loops

  method CheckLoop(rules: Rules, discovered: map<string, string>, observations: seq<Observation>)
    returns (fault: Option<Fault>)
    ensures fault == Check(rules, discovered, observations, {}, |discovered|)
  {
    var seen: set<string>, count: nat := {}, |discovered|;
    for i := 0 to |observations|
      invariant Check(rules, discovered, observations[i..], seen, count) ==
                  Check(rules, discovered, observations, {}, |discovered|)
    {
      var o := observations[i];
      assert observations[i..][1..] == observations[i + 1..];
      if !rules.validPath(o.path, o.scope) {
        return Some(InvalidPath);
      }
      if o.path in seen {
        return Some(DuplicateObservation);
      }
      seen := seen + {o.path};
      if o.path !in discovered {
        count := count + 1;
        if count > MAX_SOURCES {
          return Some(TooManyPaths);
        }
      }
    }
    fault := None;
  }

  method ReconcileLoop(rules: Rules, state: State, observations: seq<Observation>)
    returns (r: Result<(Batch, State), Fault>)
    ensures r == ReconcileSorted(rules, state, observations)
  {
    var ordered := Sort(ObservationKey, observations);
    var fault := CheckLoop(rules, state.discovered, ordered);
    if fault.Some? {
      return Err(fault.value);
    }
    var start := Work(state.discovered, state.sources, NO_BATCH);
    var work := start;
    for i := 0 to |ordered|
      invariant ObserveAll(rules, work, ordered[i..]) == ObserveAll(rules, start, ordered)
    {
      assert ordered[i..][1..] == ordered[i + 1..];
      var observed := Observe(rules, Discover(work, ordered[i]), ordered[i]);
      if observed.Err? {
        return Err(observed.error);
      }
      work := observed.value;
    }
    if work.batch.Empty() {
      return Ok((NO_BATCH, state));
    }
    r := Ok((work.batch.(epoch := state.epoch + 1), State(state.epoch + 1, work.discovered, work.sources)));
  }

  method ReplayBatchLoop(rules: Rules, state: State, epoch: nat, scopes: seq<InstructionScope>,
                         changes: seq<InstructionChange>, digest: string)
    returns (r: Result<State, Fault>)
    ensures r == ReplayBatch(rules, state, epoch, scopes, changes, digest)
  {
    if epoch != state.epoch + 1 {
      return Err(EpochGap);
    }
    var discovered, sources := state.discovered, state.sources;
    for i := 0 to |scopes|
      invariant ApplyDiscovered(rules, discovered, scopes[i..]) == ApplyDiscovered(rules, state.discovered, scopes)
    {
      assert scopes[i..][1..] == scopes[i + 1..];
      if !rules.validPath(scopes[i].path, scopes[i].scope) {
        return Err(InvalidPath);
      }
      if scopes[i].path in discovered {
        return Err(DiscoveredTwice);
      }
      discovered := discovered[scopes[i].path := scopes[i].scope];
    }
    for i := 0 to |changes|
      invariant ApplyChanges(rules, sources, changes[i..]) == ApplyChanges(rules, state.sources, changes)
    {
      assert changes[i..][1..] == changes[i + 1..];
      var changed := ApplyChange(rules, sources, changes[i]);
      if changed.Err? {
        return Err(changed.error);
      }
      sources := changed.value;
    }
    if rules.setDigest(sources) != digest {
      return Err(SetMismatch);
    }
    r := Ok(State(epoch, discovered, sources));
  }

  method ReplayLoop(rules: Rules, events: seq<Event>) returns (r: Result<State, Fault>)
    ensures r == Replay(rules, events)
  {
    var state := BLANK;
    for i := 0 to |events|
      invariant ReplayFrom(rules, state, events[i..]) == Replay(rules, events)
    {
      assert events[i..][1..] == events[i + 1..];
      var e := events[i];
      if e.WorkspaceInstructionsRecorded? {
        var next := ReplayBatchLoop(rules, state, e.epoch, e.discovered, e.changes, e.effectiveSetDigest);
        if next.Err? {
          return next;
        }
        state := next.value;
      }
    }
    r := Ok(state);
  }
}
