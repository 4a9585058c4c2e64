/** The registry of running requests: who owns an execution, who waits for it, and which sessions
    have an append whose outcome is unknown.

    Every call holds the registry's lock, so an interleaving of callers is a sequence of calls.
    Entries and leases are objects shared by reference; a handle is an index into the objects
    allocated so far, and `entries` maps a request to the handle of its live entry. */
module Registry {
  import opened Domain
  import opened AppendProtocol

  datatype ExecutionPhase =
    | AdmissionInFlight | AdmissionUnknown | Running | StepAppendInFlight | StepAppendUnknown
    | CancelWon | TerminalInFlight | TerminalUnknown | TerminalCommitted

  predicate Unknown(phase: ExecutionPhase) {
    phase.AdmissionUnknown? || phase.StepAppendUnknown? || phase.TerminalUnknown?
  }

  /** Phases from which an execution never runs again. */
  predicate Over(phase: ExecutionPhase) {
    phase.CancelWon? || phase.TerminalInFlight? || phase.TerminalUnknown? || phase.TerminalCommitted?
  }

  predicate ValidTransition(from: ExecutionPhase, to: ExecutionPhase) {
    match from
    case AdmissionInFlight => to.Running? || to.AdmissionUnknown?
    case AdmissionUnknown => to.Running? || to.CancelWon? || to.TerminalInFlight?
    case Running => to.StepAppendInFlight? || to.TerminalInFlight? || to.CancelWon?
    case StepAppendInFlight => to.Running? || to.StepAppendUnknown? || to.CancelWon?
    case StepAppendUnknown => to.Running? || to.StepAppendInFlight? || to.CancelWon?
    case CancelWon => to.TerminalInFlight? || to.TerminalUnknown?
    case TerminalInFlight => to.TerminalInFlight? || to.TerminalUnknown?
    case TerminalUnknown => to.TerminalInFlight?
    case TerminalCommitted => false
  }

  datatype Outcome = Outcome(result: string, error: Option<string>)

  /** `closings` counts how often waiters were signalled. */
  datatype Entry = Entry(
    requestID: string,
    sessionID: string,
    digest: string,
    phase: ExecutionPhase,
    intent: Option<Intent>,
    published: Option<Outcome>,
    closings: nat,
    terminal: bool,
    leases: nat,
    ownerToken: nat,
    ownerActive: bool,
    retained: bool)

  datatype Lease = Lease(entry: nat, released: bool, ownerToken: nat)

  datatype State = State(
    entries: map<string, nat>,
    unresolved: map<string, nat>,
    arena: seq<Entry>,
    leases: seq<Lease>)

  const EMPTY := State(map[], map[], [], [])

  datatype Refusal = IdentityMismatch | SessionUnresolved | NotAttached | CapabilityRejected | InvalidTransition

  // ------------------------------------------------------------ calls

  function Unresolved(r: State, s: string): nat {
    if s in r.unresolved then r.unresolved[s] else 0
  }

  predicate IsLive(r: State, e: nat)
    requires e < |r.arena|
  {
    r.arena[e].requestID in r.entries && r.entries[r.arena[e].requestID] == e
  }

  /** A live entry of the session is retained and not finished. */
  ghost predicate HasRetainedUnknown(r: State, s: string) {
    exists id :: id in r.entries && RetainedUnknown(r, r.entries[id], s)
  }

  predicate RetainedUnknown(r: State, e: nat, s: string) {
    e < |r.arena| && r.arena[e].sessionID == s && r.arena[e].retained && !r.arena[e].terminal
  }

  function NewEntry(id: string, s: string, digest: string): Entry {
    Entry(id, s, digest, AdmissionInFlight, None, None, 0, false, 1, 1, true, false)
  }

  function AddLease(r: State, e: nat): State
    requires e < |r.arena|
  {
    r.(arena := r.arena[e := r.arena[e].(leases := r.arena[e].leases + 1)], leases := r.leases + [Lease(e, false, 0)])
  }

  function AddEntry(r: State, id: string, s: string, digest: string): State {
    State(r.entries[id := |r.arena|], r.unresolved[s := Unresolved(r, s) + 1],
          r.arena + [NewEntry(id, s, digest)], r.leases + [Lease(|r.arena|, false, 1)])
  }

  ghost function Acquire(r: State, id: string, s: string, digest: string): Result<State, Refusal>
    requires Handles(r)
  {
    if id in r.entries then
      var e := r.entries[id];
      if r.arena[e].sessionID != s || r.arena[e].digest != digest then Err(IdentityMismatch)
      else Ok(AddLease(r, e))
    else if HasRetainedUnknown(r, s) then Err(SessionUnresolved)
    else Ok(AddEntry(r, id, s, digest))
  }

  function AttachExisting(r: State, id: string, s: string, digest: string): Result<State, Refusal>
    requires Handles(r)
  {
    if id !in r.entries then Err(NotAttached)
    else
      var e := r.entries[id];
      var entry := r.arena[e];
      if entry.sessionID != s || entry.digest != digest then Err(NotAttached)
      else if entry.retained && !entry.ownerActive && !entry.terminal && entry.leases == 0 then Err(NotAttached)
      else Ok(AddLease(r, e))
  }

  /** The lease was handed out with the entry's owner token. */
  predicate IsOwner(r: State, l: nat)
    requires l < |r.leases| && r.leases[l].entry < |r.arena|
  {
    r.leases[l].ownerToken != 0 && r.arena[r.leases[l].entry].ownerToken == r.leases[l].ownerToken
  }

  predicate Owns(r: State, l: nat)
    requires l < |r.leases| && r.leases[l].entry < |r.arena|
  {
    var entry := r.arena[r.leases[l].entry];
    !r.leases[l].released && IsLive(r, r.leases[l].entry) && entry.ownerActive && IsOwner(r, l) && !entry.terminal
  }

  predicate CanResolve(r: State, l: nat)
    requires l < |r.leases| && r.leases[l].entry < |r.arena|
  {
    var entry := r.arena[r.leases[l].entry];
    !r.leases[l].released && IsOwner(r, l) && entry.retained && !entry.terminal
  }

  function Edit(r: State, e: nat, entry: Entry): State
    requires e < |r.arena|
  {
    r.(arena := r.arena[e := entry])
  }

  function SetPhase(r: State, l: nat, phase: ExecutionPhase): Result<State, Refusal>
    requires Handles(r) && l < |r.leases|
  {
    var e := r.leases[l].entry;
    var entry := r.arena[e];
    if Unknown(phase) then Err(CapabilityRejected)
    else if !Owns(r, l) && !(entry.retained && !entry.terminal && IsOwner(r, l)) then Err(CapabilityRejected)
    else if !ValidTransition(entry.phase, phase) then Err(InvalidTransition)
    else Ok(Edit(r, e, entry.(phase := phase)))
  }

  function RetainIntent(r: State, l: nat, intent: Intent): Result<State, Refusal>
    requires Handles(r) && l < |r.leases|
  {
    var e := r.leases[l].entry;
    if !Owns(r, l) && !CanResolve(r, l) then Err(CapabilityRejected)
    else Ok(Edit(r, e, r.arena[e].(intent := Some(intent))))
  }

  function RetainUnknown(r: State, l: nat, phase: ExecutionPhase): Result<State, Refusal>
    requires Handles(r) && l < |r.leases|
  {
    var e := r.leases[l].entry;
    var entry := r.arena[e];
    if !Unknown(phase) then Err(InvalidTransition)
    else if (!Owns(r, l) && !CanResolve(r, l)) || entry.intent.None?
       || !ValidTransition(entry.phase, phase) then Err(CapabilityRejected)
    else Ok(Edit(r, e, entry.(phase := phase, retained := true, ownerActive := false)))
  }

  /** Resume after the unknown outcome `required` was resolved. */
  function Resume(r: State, l: nat, required: ExecutionPhase): Result<State, Refusal>
    requires Handles(r) && l < |r.leases|
  {
    var e := r.leases[l].entry;
    var entry := r.arena[e];
    if !CanResolve(r, l) || entry.phase != required then Err(CapabilityRejected)
    else Ok(Edit(r, e, entry.(phase := Running, retained := false, ownerActive := true)))
  }

  function Finished(entry: Entry, outcome: Outcome): Entry {
    entry.(published := Some(outcome), terminal := true, retained := false, phase := TerminalCommitted,
           closings := entry.closings + 1)
  }

  /** A finished entry without leases leaves the registry. */
  function Cleanup(r: State, e: nat): (next: State)
    requires e < |r.arena|
    ensures next.arena == r.arena && next.leases == r.leases
  {
    var entry := r.arena[e];
    if !entry.terminal || entry.retained || entry.leases != 0 || !IsLive(r, e) then r
    else
      r.(entries := r.entries - {entry.requestID},
         unresolved := if Unresolved(r, entry.sessionID) <= 1 then r.unresolved - {entry.sessionID}
                       else r.unresolved[entry.sessionID := Unresolved(r, entry.sessionID) - 1])
  }

  function PublishRetained(r: State, l: nat, outcome: Outcome): Result<State, Refusal>
    requires Handles(r) && l < |r.leases|
  {
    var e := r.leases[l].entry;
    if !CanResolve(r, l) then Err(CapabilityRejected)
    else Ok(Cleanup(Edit(r, e, Finished(r.arena[e], outcome)), e))
  }

  function Publish(r: State, l: nat, outcome: Outcome): Result<State, Refusal>
    requires Handles(r) && l < |r.leases|
  {
    var e := r.leases[l].entry;
    if !Owns(r, l) then Err(CapabilityRejected)
    else Ok(Cleanup(Edit(r, e, Finished(r.arena[e], outcome).(retained := r.arena[e].retained)), e))
  }

  function DropLease(r: State, l: nat): State
    requires l < |r.leases| && r.leases[l].entry < |r.arena|
  {
    var e := r.leases[l].entry;
    var held := r.arena[e].leases;
    r.(leases := r.leases[l := r.leases[l].(released := true)],
       arena := r.arena[e := r.arena[e].(leases := if held > 0 then held - 1 else held)])
  }

  function Release(r: State, l: nat): Result<State, Refusal>
    requires Handles(r) && l < |r.leases|
  {
    if r.leases[l].released then Ok(r) else Ok(Cleanup(DropLease(r, l), r.leases[l].entry))
  }

  // ------------------------------------------------------------ the invariant

  /** Handles point at objects, and the index names each live entry by its own request. */
  ghost predicate Handles(r: State) {
    && (forall id :: id in r.entries ==> r.entries[id] < |r.arena| && r.arena[r.entries[id]].requestID == id)
    && (forall l :: 0 <= l < |r.leases| ==> r.leases[l].entry < |r.arena|)
  }

  /** The live entries of a session. */
  ghost function Live(r: State, s: string): set<string>
    requires Handles(r)
  {
    set id | id in r.entries && r.arena[r.entries[id]].sessionID == s
  }

  /** The unreleased leases of an entry. */
  ghost function Holders(r: State, e: nat): set<nat> {
    set l | 0 <= l < |r.leases| && r.leases[l].entry == e && !r.leases[l].released
  }

  ghost function Owners(r: State, e: nat): set<nat> {
    set l | 0 <= l < |r.leases| && r.leases[l].entry == e && r.leases[l].ownerToken != 0
  }

  predicate EntryWell(entry: Entry) {
    && entry.ownerToken == 1
    && (Unknown(entry.phase) ==> entry.retained)
    && (entry.retained ==> entry.intent.Some? && !entry.terminal)
    && (!entry.terminal ==> entry.ownerActive == !entry.retained)
    && (entry.terminal <==> entry.phase.TerminalCommitted?)
    && (entry.terminal <==> entry.published.Some?)
    && entry.closings == (if entry.terminal then 1 else 0)
  }

  ghost predicate Counted(r: State)
    requires Handles(r)
  {
    && (forall s :: Unresolved(r, s) == |Live(r, s)|)
    && (forall s :: s in r.unresolved ==> r.unresolved[s] > 0)
  }

  ghost predicate EntriesWell(r: State) {
    forall e :: 0 <= e < |r.arena| ==> EntryWell(r.arena[e]) && Held(r, e)
  }

  /** The lease count is right and exactly one lease owns the entry. */
  ghost predicate Held(r: State, e: nat)
    requires e < |r.arena|
  {
    r.arena[e].leases == |Holders(r, e)| && |Owners(r, e)| == 1
  }

  /** An entry left the registry, if and only if it is finished and nobody holds it. */
  ghost predicate Tidy(r: State, e: nat)
    requires e < |r.arena|
  {
    IsLive(r, e) <==> !(r.arena[e].terminal && r.arena[e].leases == 0)
  }

  /** Everything but the departure of `except`, which may be due. */
  ghost predicate Almost(r: State, except: int) {
    && Handles(r) && Counted(r) && EntriesWell(r)
    && (forall l :: 0 <= l < |r.leases| ==> r.leases[l].ownerToken <= 1)
    && (forall e :: 0 <= e < |r.arena| && e != except ==> Tidy(r, e))
  }

  ghost predicate Inv(r: State) {
    Almost(r, -1)
  }

  // ------------------------------------------------------------ every call keeps it

  /** The same execution, held by as many leases. */
  predicate SameHold(a: Entry, b: Entry) {
    a.requestID == b.requestID && a.sessionID == b.sessionID && a.digest == b.digest && a.leases == b.leases
  }

  lemma EditKeepsCounted(r: State, e: nat, entry: Entry)
    requires Handles(r) && Counted(r) && e < |r.arena| && SameHold(r.arena[e], entry)
    ensures Handles(Edit(r, e, entry)) && Counted(Edit(r, e, entry))
  {
    forall s
      ensures Live(Edit(r, e, entry), s) == Live(r, s)
    {
    }
  }

  lemma EditKeepsEntries(r: State, e: nat, entry: Entry)
    requires EntriesWell(r) && e < |r.arena| && SameHold(r.arena[e], entry) && EntryWell(entry)
    ensures EntriesWell(Edit(r, e, entry))
  {
    forall k | 0 <= k < |r.arena|
      ensures Held(Edit(r, e, entry), k)
    {
      assert Held(r, k);
      assert Holders(Edit(r, e, entry), k) == Holders(r, k);
      assert Owners(Edit(r, e, entry), k) == Owners(r, k);
    }
  }

  lemma EditKeeps(r: State, e: nat, entry: Entry)
    requires Inv(r) && e < |r.arena| && SameHold(r.arena[e], entry) && EntryWell(entry)
    ensures Almost(Edit(r, e, entry), e)
    ensures IsLive(Edit(r, e, entry), e) == IsLive(r, e)
    ensures entry.terminal == r.arena[e].terminal ==> Inv(Edit(r, e, entry))
  {
    EditKeepsCounted(r, e, entry);
    EditKeepsEntries(r, e, entry);
    forall k | 0 <= k < |r.arena| && k != e
      ensures Tidy(Edit(r, e, entry), k)
    {
      assert Tidy(r, k);
    }
    assert Tidy(r, e);
  }

  lemma RemoveCounts(r: State, e: nat)
    requires Handles(r) && Counted(r) && e < |r.arena| && IsLive(r, e)
    requires r.arena[e].terminal && !r.arena[e].retained && r.arena[e].leases == 0
    ensures Handles(Cleanup(r, e)) && Counted(Cleanup(r, e))
  {
    var next, id := Cleanup(r, e), r.arena[e].requestID;
    forall s
      ensures Unresolved(next, s) == |Live(next, s)|
    {
      assert Live(next, s) == Live(r, s) - {id};
      assert (id in Live(r, s)) == (s == r.arena[e].sessionID);
      assert Unresolved(r, s) == |Live(r, s)|;
    }
  }

  lemma CleanupKeeps(r: State, e: nat)
    requires e < |r.arena| && Almost(r, e)
    requires IsLive(r, e) || (r.arena[e].terminal && r.arena[e].leases == 0)
    ensures Inv(Cleanup(r, e))
  {
    var next := Cleanup(r, e);
    assert EntryWell(r.arena[e]);
    if next != r {
      RemoveCounts(r, e);
      forall k | 0 <= k < |r.arena|
        ensures Held(next, k)
      {
        assert Held(r, k);
        assert Holders(next, k) == Holders(r, k) && Owners(next, k) == Owners(r, k);
      }
    }
    forall k | 0 <= k < |r.arena| && k != e
      ensures Tidy(next, k)
    {
      assert Tidy(r, k);
    }
    assert Tidy(next, e);
  }

  lemma GrantHeld(r: State, e: nat, k: nat)
    requires Handles(r) && e < |r.arena| && k < |r.arena| && Held(r, k)
    ensures Held(AddLease(r, e), k)
  {
    var next := AddLease(r, e);
    assert Holders(next, k) == Holders(r, k) + (if k == e then {|r.leases|} else {});
    assert Owners(next, k) == Owners(r, k);
  }

  lemma AddLeaseKeeps(r: State, e: nat)
    requires Inv(r) && e < |r.arena| && IsLive(r, e)
    ensures Inv(AddLease(r, e))
  {
    var next := AddLease(r, e);
    forall s
      ensures Live(next, s) == Live(r, s)
    {
    }
    forall k | 0 <= k < |r.arena|
      ensures EntryWell(next.arena[k]) && Held(next, k) && Tidy(next, k)
    {
      GrantHeld(r, e, k);
      assert EntryWell(r.arena[k]) && Tidy(r, k);
    }
  }

  lemma AdmitCounts(r: State, id: string, s: string, digest: string)
    requires Handles(r) && Counted(r) && id !in r.entries
    ensures Handles(AddEntry(r, id, s, digest)) && Counted(AddEntry(r, id, s, digest))
  {
    var next := AddEntry(r, id, s, digest);
    AdmitHandles(r, id, s, digest);
    forall t
      ensures Unresolved(next, t) == |Live(next, t)|
    {
      AdmitLive(r, id, s, digest, t);
      assert Unresolved(r, t) == |Live(r, t)|;
    }
  }

  lemma AdmitLive(r: State, id: string, s: string, digest: string, t: string)
    requires Handles(r) && Handles(AddEntry(r, id, s, digest)) && id !in r.entries
    ensures |Live(AddEntry(r, id, s, digest), t)| == |Live(r, t)| + if t == s then 1 else 0
  {
    var next := AddEntry(r, id, s, digest);
    var extra: set<string> := if t == s then {id} else {};
    forall k
      ensures k in Live(next, t) <==> k in Live(r, t) || k in extra
    {
      AdmitLiveAt(r, id, s, digest, t, k);
    }
    assert Live(next, t) == Live(r, t) + extra;
  }

  lemma AdmitLiveAt(r: State, id: string, s: string, digest: string, t: string, k: string)
    requires Handles(r) && Handles(AddEntry(r, id, s, digest)) && id !in r.entries
    ensures k in Live(AddEntry(r, id, s, digest), t) <==> k in Live(r, t) || (k == id && t == s)
  {
  }

  lemma AdmitHandles(r: State, id: string, s: string, digest: string)
    requires Handles(r) && id !in r.entries
    ensures Handles(AddEntry(r, id, s, digest))
  {
  }

  lemma AdmitHeld(r: State, id: string, s: string, digest: string, k: nat)
    requires Handles(r) && k <= |r.arena| && (k < |r.arena| ==> Held(r, k))
    ensures Held(AddEntry(r, id, s, digest), k)
  {
    var next := AddEntry(r, id, s, digest);
    if k < |r.arena| {
      assert Holders(next, k) == Holders(r, k) && Owners(next, k) == Owners(r, k);
    } else {
      assert Holders(next, k) == {|r.leases|} && Owners(next, k) == {|r.leases|};
    }
  }

  lemma AddEntryKeeps(r: State, id: string, s: string, digest: string)
    requires Inv(r) && id !in r.entries
    ensures Inv(AddEntry(r, id, s, digest))
  {
    var next := AddEntry(r, id, s, digest);
    AdmitCounts(r, id, s, digest);
    forall k | 0 <= k <= |r.arena|
      ensures EntryWell(next.arena[k]) && Held(next, k) && Tidy(next, k)
    {
      if k < |r.arena| {
        assert EntryWell(r.arena[k]) && Held(r, k) && Tidy(r, k);
      }
      AdmitHeld(r, id, s, digest, k);
    }
  }

  lemma DropHeld(r: State, l: nat, k: nat)
    requires Handles(r) && l < |r.leases| && !r.leases[l].released && k < |r.arena| && Held(r, k)
    ensures Held(DropLease(r, l), k)
    ensures k == r.leases[l].entry ==> r.arena[k].leases > 0
  {
    var next := DropLease(r, l);
    assert l in Holders(r, r.leases[l].entry);
    assert Holders(next, k) == Holders(r, k) - (if k == r.leases[l].entry then {l} else {});
    assert Owners(next, k) == Owners(r, k);
  }

  lemma DropLeaseKeeps(r: State, l: nat)
    requires Inv(r) && l < |r.leases| && !r.leases[l].released
    ensures Almost(DropLease(r, l), r.leases[l].entry)
    ensures IsLive(DropLease(r, l), r.leases[l].entry)
  {
    var next, e := DropLease(r, l), r.leases[l].entry;
    forall s
      ensures Live(next, s) == Live(r, s)
    {
    }
    forall k | 0 <= k < |r.arena|
      ensures EntryWell(next.arena[k]) && Held(next, k) && (k != e ==> Tidy(next, k))
    {
      DropHeld(r, l, k);
      assert EntryWell(r.arena[k]) && Tidy(r, k);
    }
    DropHeld(r, l, e);
    assert Tidy(r, e);
  }

  // ------------------------------------------------------------ every run of calls

  /** One call on the registry, or through a lease it handed out. */
  datatype Call =
    | AcquireCall(id: string, sessionID: string, digest: string)
    | AttachCall(id: string, sessionID: string, digest: string)
    | LeaseCall(lease: nat, use: Use)

  datatype Use =
    | ToSetPhase(phase: ExecutionPhase)
    | ToRetainIntent(intent: Intent)
    | ToRetainUnknown(phase: ExecutionPhase)
    | ToResumeAdmission
    | ToResumeStep
    | ToPublish(outcome: Outcome)
    | ToPublishRetained(outcome: Outcome)
    | ToRelease

  function Using(r: State, l: nat, use: Use): Result<State, Refusal>
    requires Handles(r) && l < |r.leases|
  {
    match use
    case ToSetPhase(phase) => SetPhase(r, l, phase)
    case ToRetainIntent(intent) => RetainIntent(r, l, intent)
    case ToRetainUnknown(phase) => RetainUnknown(r, l, phase)
    case ToResumeAdmission => Resume(r, l, AdmissionUnknown)
    case ToResumeStep => Resume(r, l, StepAppendUnknown)
    case ToPublish(outcome) => Publish(r, l, outcome)
    case ToPublishRetained(outcome) => PublishRetained(r, l, outcome)
    case ToRelease => Release(r, l)
  }

  ghost function Answer(r: State, call: Call): Result<State, Refusal>
    requires Handles(r)
  {
    match call
    case AcquireCall(id, s, digest) => Acquire(r, id, s, digest)
    case AttachCall(id, s, digest) => AttachExisting(r, id, s, digest)
    case LeaseCall(l, use) => if l < |r.leases| then Using(r, l, use) else Err(CapabilityRejected)
  }

  /** The registry after a call; a refused call changes nothing. */
  ghost function After(r: State, call: Call): State
    requires Handles(r)
  {
    match Answer(r, call) case Ok(next) => next case Err(_) => r
  }

  predicate Edits(use: Use) {
    use.ToSetPhase? || use.ToRetainIntent? || use.ToRetainUnknown? || use.ToResumeAdmission? || use.ToResumeStep?
  }

  /** A use that only edits the entry keeps it well, in the same hands and as finished as it was. */
  lemma EditKeepsEntryWell(r: State, l: nat, use: Use)
    requires Inv(r) && l < |r.leases| && Edits(use) && Using(r, l, use).Ok?
    ensures var e, next := r.leases[l].entry, Using(r, l, use).value;
            && |next.arena| == |r.arena| && next == Edit(r, e, next.arena[e])
            && SameHold(r.arena[e], next.arena[e]) && EntryWell(next.arena[e])
            && next.arena[e].terminal == r.arena[e].terminal
  {
    assert EntryWell(r.arena[r.leases[l].entry]);
  }

  lemma ReleaseKeepsInv(r: State, l: nat)
    requires Inv(r) && l < |r.leases|
    ensures Inv(Release(r, l).value)
  {
    if !r.leases[l].released {
      DropLeaseKeeps(r, l);
      CleanupKeeps(DropLease(r, l), r.leases[l].entry);
    }
  }

  lemma UseKeepsInv(r: State, l: nat, use: Use)
    requires Inv(r) && l < |r.leases| && Using(r, l, use).Ok?
    ensures Inv(Using(r, l, use).value)
  {
    var e := r.leases[l].entry;
    if Edits(use) {
      EditKeepsEntryWell(r, l, use);
      EditKeeps(r, e, Using(r, l, use).value.arena[e]);
    } else if use.ToRelease? {
      ReleaseKeepsInv(r, l);
    } else {
      assert EntryWell(r.arena[e]);
      FinishKeeps(r, e, use.outcome);
    }
  }

  lemma FinishKeeps(r: State, e: nat, outcome: Outcome)
    requires Inv(r) && e < |r.arena| && !r.arena[e].terminal
    ensures Inv(Cleanup(Edit(r, e, Finished(r.arena[e], outcome)), e))
  {
    assert EntryWell(r.arena[e]) && Tidy(r, e);
    EditKeeps(r, e, Finished(r.arena[e], outcome));
    CleanupKeeps(Edit(r, e, Finished(r.arena[e], outcome)), e);
  }

  lemma CallKeepsInv(r: State, call: Call)
    requires Inv(r)
    ensures Inv(After(r, call))
  {
    match call
    case AcquireCall(id, s, digest) =>
      if id in r.entries {
        AddLeaseKeeps(r, r.entries[id]);
      } else {
        AddEntryKeeps(r, id, s, digest);
      }
    case AttachCall(id, s, digest) =>
      if id in r.entries {
        AddLeaseKeeps(r, r.entries[id]);
      }
    case LeaseCall(l, use) =>
      if l < |r.leases| && Using(r, l, use).Ok? {
        UseKeepsInv(r, l, use);
      }
  }

  /** What time can do to an execution: it keeps its identity, its owner token and, once published,
      its result; signals its waiters at most once more; and never runs again once it is over. */
  predicate EntryAges(a: Entry, b: Entry) {
    && a.requestID == b.requestID && a.sessionID == b.sessionID && a.digest == b.digest && a.ownerToken == b.ownerToken
    && (a.terminal ==> b.terminal && b.published == a.published && b.closings == a.closings)
    && a.closings <= b.closings
    && (Over(a.phase) ==> Over(b.phase))
    && (a.intent.Some? ==> b.intent.Some?)
  }

  predicate LeaseAges(a: Lease, b: Lease) {
    a.entry == b.entry && a.ownerToken == b.ownerToken && (a.released ==> b.released)
  }

  ghost predicate Ages(r: State, next: State) {
    && |r.arena| <= |next.arena| && (forall e :: 0 <= e < |r.arena| ==> EntryAges(r.arena[e], next.arena[e]))
    && |r.leases| <= |next.leases| && (forall l :: 0 <= l < |r.leases| ==> LeaseAges(r.leases[l], next.leases[l]))
  }

  /** A use of a lease changes no entry but its own, and that one only as time may. */
  lemma UseAgesEntry(r: State, l: nat, use: Use)
    requires Inv(r) && l < |r.leases| && Using(r, l, use).Ok?
    ensures var e, next := r.leases[l].entry, Using(r, l, use).value;
            && |next.arena| == |r.arena| && next.arena == r.arena[e := next.arena[e]]
            && EntryAges(r.arena[e], next.arena[e])
  {
    assert EntryWell(r.arena[r.leases[l].entry]);
  }

  lemma UseAges(r: State, l: nat, use: Use)
    requires Inv(r) && l < |r.leases| && Using(r, l, use).Ok?
    ensures Ages(r, Using(r, l, use).value) && |Using(r, l, use).value.arena| == |r.arena|
  {
    UseAgesEntry(r, l, use);
    assert use.ToRelease? || Using(r, l, use).value.leases == r.leases;
  }

  lemma CallAges(r: State, call: Call)
    requires Inv(r)
    ensures Ages(r, After(r, call))
    ensures |After(r, call).arena| > |r.arena| ==> !HasRetainedUnknown(r, After(r, call).arena[|r.arena|].sessionID)
  {
    match call
    case LeaseCall(l, use) =>
      if l < |r.leases| && Using(r, l, use).Ok? {
        UseAges(r, l, use);
      }
    case _ =>
  }

  /** The registry after a sequence of calls, in the order they took the lock. */
  ghost function Run(r: State, calls: seq<Call>): State
    requires Inv(r)
    decreases |calls|
  {
    if calls == [] then r else
      CallKeepsInv(r, calls[0]);
      Run(After(r, calls[0]), calls[1..])
  }

  /** Over every interleaving of calls the invariant holds and executions only age. */
  lemma {:induction false} RunKeepsInvariant(r: State, calls: seq<Call>)
    requires Inv(r)
    ensures Inv(Run(r, calls)) && Ages(r, Run(r, calls))
    decreases |calls|
  {
    if calls != [] {
      CallKeepsInv(r, calls[0]);
      CallAges(r, calls[0]);
      RunKeepsInvariant(After(r, calls[0]), calls[1..]);
      AgesTransitive(r, After(r, calls[0]), Run(r, calls));
    }
  }

  lemma AgesTransitive(a: State, b: State, c: State)
    requires Ages(a, b) && Ages(b, c)
    ensures Ages(a, c)
  {
    forall e | 0 <= e < |a.arena|
      ensures EntryAges(a.arena[e], c.arena[e])
    {
      assert EntryAges(a.arena[e], b.arena[e]) && EntryAges(b.arena[e], c.arena[e]);
    }
    forall l | 0 <= l < |a.leases|
      ensures LeaseAges(a.leases[l], c.leases[l])
    {
      assert LeaseAges(a.leases[l], b.leases[l]) && LeaseAges(b.leases[l], c.leases[l]);
    }
  }

  /** A new registry satisfies the invariant, so every reachable one does. */
  lemma NewRegistryWell()
    ensures Inv(EMPTY)
  {
    forall s
      ensures Live(EMPTY, s) == {}
    {
    }
  }

  // ------------------------------------------------------------ the registry object

  class ExecutionRegistry {
    var entries: map<string, nat>
    var unresolved: map<string, nat>
    var arena: seq<Entry>
    var leases: seq<Lease>

    ghost function Now(): State
      reads this
    {
      State(entries, unresolved, arena, leases)
    }

    constructor ()
      ensures Now() == EMPTY && Inv(Now())
    {
      entries, unresolved, arena, leases := map[], map[], [], [];
      new;
      NewRegistryWell();
    }

    /** Look through the live entries one by one. */
    method FindRetainedUnknown(sessionID: string) returns (found: bool)
      requires Handles(Now())
      ensures found <==> HasRetainedUnknown(Now(), sessionID)
    {
      var ids := entries.Keys;
      while ids != {}
        invariant ids <= entries.Keys
        invariant forall id :: id in entries && id !in ids ==> !RetainedUnknown(Now(), entries[id], sessionID)
      {
        var id :| id in ids;
        var entry := arena[entries[id]];
        if entry.sessionID == sessionID && entry.retained && !entry.terminal {
          assert RetainedUnknown(Now(), entries[id], sessionID);
          return true;
        }
        ids := ids - {id};
      }
      found := false;
    }

    method Join(e: nat) returns (lease: nat)
      requires e < |arena|
      modifies this`arena, this`leases
      ensures lease == |old(leases)| && Now() == AddLease(old(Now()), e)
    {
      arena := arena[e := arena[e].(leases := arena[e].leases + 1)];
      lease := |leases|;
      leases := leases + [Lease(e, false, 0)];
    }

    method Admit(id: string, sessionID: string, digest: string) returns (lease: nat)
      modifies this
      ensures lease == |old(leases)| && Now() == AddEntry(old(Now()), id, sessionID, digest)
    {
      entries := entries[id := |arena|];
      unresolved := unresolved[sessionID := (if sessionID in unresolved then unresolved[sessionID] else 0) + 1];
      lease := |leases|;
      leases := leases + [Lease(|arena|, false, 1)];
      arena := arena + [NewEntry(id, sessionID, digest)];
    }

    /** Join a running execution or start a new one; `owner` says which. */
    method Acquire(id: string, sessionID: string, digest: string) returns (r: Result<nat, Refusal>, owner: bool)
      requires Inv(Now())
      modifies this
      ensures Now() == After(old(Now()), AcquireCall(id, sessionID, digest))
      ensures Inv(Now())
      ensures r.Err? <==> Answer(old(Now()), AcquireCall(id, sessionID, digest)).Err?
      ensures r.Ok? ==> r.value == |old(leases)| && leases[r.value].ownerToken == (if owner then 1 else 0)
      ensures owner <==> r.Ok? && id !in old(entries)
    {
      CallKeepsInv(Now(), AcquireCall(id, sessionID, digest));
      owner := false;
      if id in entries {
        var e := entries[id];
        if arena[e].sessionID != sessionID || arena[e].digest != digest {
          return Err(IdentityMismatch), owner;
        }
        var lease := Join(e);
        return Ok(lease), owner;
      }
      var blocked := FindRetainedUnknown(sessionID);
      if blocked {
        return Err(SessionUnresolved), owner;
      }
      var lease := Admit(id, sessionID, digest);
      r, owner := Ok(lease), true;
    }

    method AttachExisting(id: string, sessionID: string, digest: string) returns (r: Option<nat>)
      requires Inv(Now())
      modifies this`arena, this`leases
      ensures Now() == After(old(Now()), AttachCall(id, sessionID, digest))
      ensures Inv(Now())
      ensures r.Some? <==> Answer(old(Now()), AttachCall(id, sessionID, digest)).Ok?
      ensures r.Some? ==> r.value == |old(leases)| && leases[r.value].ownerToken == 0
    {
      CallKeepsInv(Now(), AttachCall(id, sessionID, digest));
      if id !in entries {
        return None;
      }
      var e := entries[id];
      var entry := arena[e];
      if entry.sessionID != sessionID || entry.digest != digest {
        return None;
      }
      if entry.retained && !entry.ownerActive && !entry.terminal && entry.leases == 0 {
        return None;
      }
      var lease := Join(e);
      r := Some(lease);
    }

    method CleanupEntry(e: nat)
      requires e < |arena|
      modifies this`entries, this`unresolved
      ensures Now() == Cleanup(old(Now()), e)
    {
      var entry := arena[e];
      if !entry.terminal || entry.retained || entry.leases != 0 || entry.requestID !in entries
         || entries[entry.requestID] != e {
        return;
      }
      entries := entries - {entry.requestID};
      var open := if entry.sessionID in unresolved then unresolved[entry.sessionID] else 0;
      if open <= 1 {
        unresolved := unresolved - {entry.sessionID};
      } else {
        unresolved := unresolved[entry.sessionID := open - 1];
      }
    }

    /** Give a lease back; giving it back twice does nothing. */
    method Release(l: nat)
      requires Inv(Now()) && l < |leases|
      modifies this
      ensures Now() == After(old(Now()), LeaseCall(l, ToRelease))
      ensures Inv(Now())
    {
      CallKeepsInv(Now(), LeaseCall(l, ToRelease));
      if leases[l].released {
        return;
      }
      var e := leases[l].entry;
      Drop(l);
      CleanupEntry(e);
    }

    method Drop(l: nat)
      requires l < |leases| && leases[l].entry < |arena|
      modifies this`arena, this`leases
      ensures Now() == DropLease(old(Now()), l)
    {
      var e := leases[l].entry;
      leases := leases[l := leases[l].(released := true)];
      if arena[e].leases > 0 {
        arena := arena[e := arena[e].(leases := arena[e].leases - 1)];
      } else {
        assert arena[e := arena[e].(leases := 0)] == arena;
      }
    }

    /** Publish the owner's result and signal the waiters. */
    method PublishResult(l: nat, outcome: Outcome) returns (ok: bool)
      requires Inv(Now()) && l < |leases|
      modifies this
      ensures Now() == After(old(Now()), LeaseCall(l, ToPublish(outcome)))
      ensures Inv(Now())
      ensures ok <==> Answer(old(Now()), LeaseCall(l, ToPublish(outcome))).Ok?
    {
      CallKeepsInv(Now(), LeaseCall(l, ToPublish(outcome)));
      if !Owns(State(entries, unresolved, arena, leases), l) {
        return false;
      }
      var e := leases[l].entry;
      arena := arena[e := arena[e].(published := Some(outcome), terminal := true, phase := TerminalCommitted,
                                    closings := arena[e].closings + 1)];
      CleanupEntry(e);
      ok := true;
    }

    /** Publish after an unknown outcome was resolved. */
    method PublishRetainedResult(l: nat, outcome: Outcome) returns (ok: bool)
      requires Inv(Now()) && l < |leases|
      modifies this
      ensures Now() == After(old(Now()), LeaseCall(l, ToPublishRetained(outcome)))
      ensures Inv(Now())
      ensures ok <==> Answer(old(Now()), LeaseCall(l, ToPublishRetained(outcome))).Ok?
    {
      CallKeepsInv(Now(), LeaseCall(l, ToPublishRetained(outcome)));
      if !CanResolve(State(entries, unresolved, arena, leases), l) {
        return false;
      }
      var e := leases[l].entry;
      arena := arena[e := Finished(arena[e], outcome)];
      CleanupEntry(e);
      ok := true;
    }

    method SetPhaseOf(l: nat, phase: ExecutionPhase) returns (ok: bool)
      requires Inv(Now()) && l < |leases|
      modifies this`arena
      ensures Now() == After(old(Now()), LeaseCall(l, ToSetPhase(phase)))
      ensures Inv(Now())
      ensures ok <==> Answer(old(Now()), LeaseCall(l, ToSetPhase(phase))).Ok?
    {
      CallKeepsInv(Now(), LeaseCall(l, ToSetPhase(phase)));
      var e := leases[l].entry;
      var now := State(entries, unresolved, arena, leases);
      if Unknown(phase)
         || (!Owns(now, l) && !(arena[e].retained && !arena[e].terminal && IsOwner(now, l)))
         || !ValidTransition(arena[e].phase, phase) {
        return false;
      }
      arena := arena[e := arena[e].(phase := phase)];
      ok := true;
    }

    method RetainUnknownAs(l: nat, phase: ExecutionPhase) returns (ok: bool)
      requires Inv(Now()) && l < |leases|
      modifies this`arena
      ensures Now() == After(old(Now()), LeaseCall(l, ToRetainUnknown(phase)))
      ensures Inv(Now())
      ensures ok <==> Answer(old(Now()), LeaseCall(l, ToRetainUnknown(phase))).Ok?
    {
      CallKeepsInv(Now(), LeaseCall(l, ToRetainUnknown(phase)));
      var e := leases[l].entry;
      var now := State(entries, unresolved, arena, leases);
      if !Unknown(phase) || (!Owns(now, l) && !CanResolve(now, l)) || arena[e].intent.None?
         || !ValidTransition(arena[e].phase, phase) {
        return false;
      }
      arena := arena[e := arena[e].(phase := phase, retained := true, ownerActive := false)];
      ok := true;
    }

    method RetainIntentOf(l: nat, intent: Intent) returns (ok: bool)
      requires Inv(Now()) && l < |leases|
      modifies this`arena
      ensures Now() == After(old(Now()), LeaseCall(l, ToRetainIntent(intent)))
      ensures Inv(Now())
      ensures ok <==> Answer(old(Now()), LeaseCall(l, ToRetainIntent(intent))).Ok?
    {
      CallKeepsInv(Now(), LeaseCall(l, ToRetainIntent(intent)));
      var e := leases[l].entry;
      var now := State(entries, unresolved, arena, leases);
      if !Owns(now, l) && !CanResolve(now, l) {
        return false;
      }
      arena := arena[e := arena[e].(intent := Some(intent))];
      ok := true;
    }

    method ResumeAfterResolved(l: nat, step: bool) returns (ok: bool)
      requires Inv(Now()) && l < |leases|
      modifies this`arena
      ensures var use := if step then ToResumeStep else ToResumeAdmission;
              Now() == After(old(Now()), LeaseCall(l, use)) && Inv(Now())
                && (ok <==> Answer(old(Now()), LeaseCall(l, use)).Ok?)
    {
      CallKeepsInv(Now(), LeaseCall(l, if step then ToResumeStep else ToResumeAdmission));
      var e := leases[l].entry;
      if !CanResolve(State(entries, unresolved, arena, leases), l)
         || arena[e].phase != (if step then StepAppendUnknown else AdmissionUnknown) {
        return false;
      }
      arena := arena[e := arena[e].(phase := Running, retained := false, ownerActive := true)];
      ok := true;
    }
  }
}
