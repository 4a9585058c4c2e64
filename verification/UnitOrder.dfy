/** Sequence numbers of projected units, and what resuming a scan at a sequence returns. */
module UnitOrder {
  import opened Domain
  import opened Projector

  /** Units end at strictly increasing sequences. */
  ghost predicate Ascending(units: seq<Unit>) {
    forall i, j :: 0 <= i < j < |units| ==> units[i].last < units[j].last
  }

  ghost predicate EndBy(units: seq<Unit>, bound: nat) {
    forall i :: 0 <= i < |units| ==> units[i].first <= units[i].last <= bound
  }

  /** Everything the projection holds ended, or was last touched, at or before `bound`. */
  ghost predicate Settled(p: Projection, bound: nat) {
    && Ascending(p.units) && EndBy(p.units, bound)
    && (forall c :: c in p.open ==> p.open[c].first <= p.open[c].last <= bound)
  }

  /** A unit or step an action introduces belongs to the record's own sequence. */
  predicate Dated(action: Action, sequence: nat) {
    match action
    case Emit(unit) => unit.first == unit.last == sequence
    case OpenStep(_, step) => step.first == step.last == sequence
    case _ => true
  }

  /** A later record keeps the order and adds at most one unit, ending at its own sequence. */
  lemma PerformKeepsOrder(p: Projection, action: Action, sequence: nat, bound: nat)
    requires Settled(p, bound) && bound < sequence && Dated(action, sequence)
    requires Perform(p, action, sequence).Ok?
    ensures Settled(Perform(p, action, sequence).value, sequence)
    ensures var units := Perform(p, action, sequence).value.units;
            units == p.units || (|units| == |p.units| + 1 && units[..|p.units|] == p.units
                                 && units[|p.units|].last == sequence)
  {
    var next := Perform(p, action, sequence).value;
    match action
    case CloseCall(callID, text) =>
      var changed := p.open[callID].Answered(callID, sequence, text);
      assert changed.last == sequence;
      assert next.units == p.units || next.units == p.units + [changed.ToUnit()];
    case _ =>
  }

  /** `units` keeps `before`, stays in order, and adds only units that end after `bound`, by `end`. */
  ghost predicate Grown(before: seq<Unit>, units: seq<Unit>, bound: nat, end: nat) {
    && Ascending(units) && before <= units && EndBy(units, end)
    && (forall i :: |before| <= i < |units| ==> bound < units[i].last)
  }

  lemma GrownTwice(a: seq<Unit>, b: seq<Unit>, c: seq<Unit>, x: nat, y: nat, z: nat)
    requires Grown(a, b, x, y) && Grown(b, c, y, z) && x <= y
    ensures Grown(a, c, x, z)
  {
    forall i | |a| <= i < |c|
      ensures x < c[i].last
    {
      if i < |b| {
        assert c[i] == b[i];
      }
    }
  }

  lemma PerformGrows(p: Projection, action: Action, sequence: nat, bound: nat)
    requires Settled(p, bound) && bound < sequence && Dated(action, sequence) && Perform(p, action, sequence).Ok?
    ensures Settled(Perform(p, action, sequence).value, sequence)
    ensures Grown(p.units, Perform(p, action, sequence).value.units, bound, sequence)
  {
    PerformKeepsOrder(p, action, sequence, bound);
  }

  lemma ActionsAreDated(r: Record)
    ensures Dated(ActionOf(r), r.sequence)
  {
  }

  /** The sequence a list of records ends at, or `bound` when there is none. */
  function EndOf(records: seq<Record>, bound: nat): nat {
    if records == [] then bound else records[|records| - 1].sequence
  }

  /** Projecting later records keeps what was there and only adds units ending later. */
  lemma {:induction false} ProjectKeepsOrder(p: Projection, records: seq<Record>, bound: nat)
    requires Settled(p, bound) && Increasing(records) && ProjectFrom(p, records).Ok?
    requires forall i :: 0 <= i < |records| ==> bound < records[i].sequence
    ensures Grown(p.units, ProjectFrom(p, records).value.units, bound, EndOf(records, bound))
    decreases |records|
  {
    if records != [] {
      var r, rest := records[0], records[1..];
      var next := Advance(p, r).value;
      ActionsAreDated(r);
      PerformGrows(p, ActionOf(r), r.sequence, bound);
      assert forall i :: 0 <= i < |rest| ==> rest[i] == records[i + 1];
      ProjectKeepsOrder(next, rest, r.sequence);
      GrownTwice(p.units, next.units, ProjectFrom(next, rest).value.units, bound, r.sequence, EndOf(rest, r.sequence));
    }
  }

  /** On strictly increasing sequences the units' last sequences strictly increase. */
  lemma UnitsAscend(records: seq<Record>)
    requires Increasing(records) && Project(records).Ok?
    requires forall i :: 0 <= i < |records| ==> 0 < records[i].sequence
    ensures Ascending(Project(records).value.units)
    ensures forall i :: 0 <= i < |Project(records).value.units| ==> 0 < Project(records).value.units[i].last
  {
    ProjectKeepsOrder(EMPTY, records, 0);
  }

  /** Drop the leading units that end at or before `through`. */
  function DropCovered(units: seq<Unit>, through: nat): seq<Unit> {
    if units != [] && units[0].last <= through then DropCovered(units[1..], through) else units
  }

  /** Among ascending units, dropping leaves exactly those that end after `through`. */
  lemma {:induction false} DropCoveredSplits(units: seq<Unit>, k: nat, through: nat)
    requires k <= |units|
    requires forall i :: 0 <= i < k ==> units[i].last <= through
    requires k < |units| ==> through < units[k].last
    ensures DropCovered(units, through) == units[k..]
  {
    if k > 0 {
      DropCoveredSplits(units[1..], k - 1, through);
    }
  }

  /** A scan of a whole stream resumed after sequence `t` succeeds exactly when nothing after `t`
      reports on a call left open at `t`; it then returns precisely the full scan's units that
      end after `t`. */
  lemma ResumeAfter(log: seq<Record>, t: nat)
    requires Contiguous(log) && t <= |log| && Project(log).Ok?
    ensures Project(log[..t]).Ok?
    ensures Project(log[t..]).Ok? <==> !NamesAny(log[t..], Project(log[..t]).value.open.Keys)
    ensures Project(log[t..]).Ok? ==> Project(log[t..]).value.units == DropCovered(Project(log).value.units, t)
  {
    var a, b := log[..t], log[t..];
    assert log == a + b;
    ResumeEqualsRescan(a, b);
    if Project(b).Ok? {
      PartsEndApart(a, b, t);
      DropCoveredConcat(Project(a).value.units, Project(b).value.units, t);
    }
  }

  /** Units of the records up to `t` end by `t`, units of the records after it end later. */
  lemma PartsEndApart(a: seq<Record>, b: seq<Record>, t: nat)
    requires Contiguous(a) && |a| == t && Project(a).Ok? && Project(b).Ok?
    requires forall i :: 0 <= i < |b| ==> b[i].sequence == t + i + 1
    ensures EndBy(Project(a).value.units, t)
    ensures Project(b).value.units != [] ==> t < Project(b).value.units[0].last
  {
    ProjectKeepsOrder(EMPTY, a, 0);
    ProjectKeepsOrder(EMPTY, b, t);
  }

  lemma DropCoveredConcat(a: seq<Unit>, b: seq<Unit>, t: nat)
    requires EndBy(a, t) && (b != [] ==> t < b[0].last)
    ensures DropCovered(a + b, t) == b
  {
    DropCoveredSplits(a + b, |a|, t);
    assert (a + b)[|a|..] == b;
  }
}
