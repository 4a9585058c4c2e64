/** Rendering the instruction sources within a size limit: drop sources from the front, then cut the
    last one by binary search. The search writes its trial cuts through the caller's slice and leaves
    the last one there. */
module SnapshotRender {
  import opened Domain
  import opened Meter

  const MAX_CONTEXT_BYTES: nat := 64 * 1024

  const OMITTED := "omitted_for_context_limit"
  const TRUNCATED := "truncated_for_context_limit"

  /** The message text for an epoch, the sources shown and the notices. */
  type Renderer = (nat, seq<InstructionSource>, seq<InstructionDiagnostic>) -> string

  predicate Short(message: string) {
    ByteLength(message) <= MAX_CONTEXT_BYTES
  }

  /** How many leading sources are omitted: all that do not fit, but never the last. */
  function OmitCount(render: Renderer, epoch: nat, sources: seq<InstructionSource>,
                     notices: seq<InstructionDiagnostic>): (k: nat)
    ensures k <= |sources| && (sources != [] ==> k < |sources|)
    decreases |sources|
  {
    if Short(render(epoch, sources, notices)) || |sources| <= 1 then 0
    else 1 + OmitCount(render, epoch, sources[1..], notices + [InstructionDiagnostic(sources[0].path, OMITTED)])
  }

  function OmitNotices(sources: seq<InstructionSource>, k: nat): seq<InstructionDiagnostic>
    requires k <= |sources|
  {
    if k == 0 then [] else OmitNotices(sources, k - 1) + [InstructionDiagnostic(sources[k - 1].path, OMITTED)]
  }

  /** Not even with all but the last source omitted is the message short: the cut is searched for. */
  predicate NeedsSearch(render: Renderer, epoch: nat, sources: seq<InstructionSource>) {
    var k := OmitCount(render, epoch, sources, []);
    sources != [] && !Short(render(epoch, sources[k..], OmitNotices(sources, k)))
  }

  /** The message with the last source cut to `n` characters. */
  function CutMessage(render: Renderer, epoch: nat, sources: seq<InstructionSource>, n: nat): string
    requires sources != []
  {
    var last := sources[|sources| - 1];
    var cut := last.(content := if n <= |last.content| then last.content[..n] else last.content);
    render(epoch, [cut], OmitNotices(sources, |sources| - 1) + [InstructionDiagnostic(last.path, TRUNCATED)])
  }

  function CutFits(render: Renderer, epoch: nat, sources: seq<InstructionSource>): nat -> bool {
    (n: nat) => sources != [] && Short(CutMessage(render, epoch, sources, n))
  }

  /** The largest trial that fitted and the last one tried. */
  datatype Trials = Trials(best: Option<nat>, last: Option<nat>)

  /** The trials of a binary search between `low` and `high`. */
  function Search(fits: nat -> bool, low: nat, high: int, so: Trials): Trials
    requires high >= -1
    decreases high - low
  {
    if low > high then so
    else
      var middle := (low + high) / 2;
      if fits(middle) then Search(fits, middle + 1, high, Trials(Some(middle), Some(middle)))
      else Search(fits, low, middle - 1, so.(last := Some(middle)))
  }

  function SearchAll(fits: nat -> bool, bound: nat): Trials {
    Search(fits, 0, bound, Trials(None, None))
  }

  /** The last trial of a search between `low` and `high`, seen from outside. With trials that fit
      exactly up to some size, it reaches the upper end just when everything below it fits. */
  lemma {:induction false} SearchReachesEnd(fits: nat -> bool, low: nat, high: nat, so: Trials)
    requires low <= high && !fits(high)
    requires forall j :: low <= j < high ==> fits(j)
    ensures Search(fits, low, high, so).last == Some(high)
    decreases high - low
  {
    var middle := (low + high) / 2;
    if middle < high {
      SearchReachesEnd(fits, middle + 1, high, Trials(Some(middle), Some(middle)));
    }
  }

  /** A search over sizes below `high` never tries `high`. */
  lemma {:induction false} SearchStaysBelow(fits: nat -> bool, low: nat, high: int, bound: nat, so: Trials)
    requires -1 <= high < bound && (so.last.Some? ==> so.last.value < bound)
    ensures Search(fits, low, high, so).last.Some? ==> Search(fits, low, high, so).last.value < bound
    decreases high - low
  {
    if low <= high {
      var middle := (low + high) / 2;
      if fits(middle) {
        SearchStaysBelow(fits, middle + 1, high, bound, Trials(Some(middle), Some(middle)));
      } else {
        SearchStaysBelow(fits, low, middle - 1, bound, so.(last := Some(middle)));
      }
    }
  }

  /** Once something below the upper end does not fit, the end itself is never tried. */
  lemma {:induction false} SearchMissesEnd(fits: nat -> bool, low: nat, high: nat, so: Trials)
    requires low < high && !fits(high - 1) && (so.last.Some? ==> so.last.value < high)
    ensures Search(fits, low, high, so).last.Some? && Search(fits, low, high, so).last.value < high
    decreases high - low
  {
    var middle := (low + high) / 2;
    if fits(middle) {
      SearchMissesEnd(fits, middle + 1, high, Trials(Some(middle), Some(middle)));
    } else {
      SearchStaysBelow(fits, low, middle - 1, high, so.(last := Some(middle)));
      SearchLastSome(fits, low, middle - 1, so.(last := Some(middle)));
    }
  }

  lemma {:induction false} SearchLastSome(fits: nat -> bool, low: nat, high: int, so: Trials)
    requires high >= -1 && so.last.Some?
    ensures Search(fits, low, high, so).last.Some?
    decreases high - low
  {
    if low <= high {
      var middle := (low + high) / 2;
      if fits(middle) {
        SearchLastSome(fits, middle + 1, high, Trials(Some(middle), Some(middle)));
      } else {
        SearchLastSome(fits, low, middle - 1, so.(last := Some(middle)));
      }
    }
  }

  /** What the caller's sources are after rendering: the last one may be left cut. */
  function Left(render: Renderer, epoch: nat, sources: seq<InstructionSource>): seq<InstructionSource> {
    if !NeedsSearch(render, epoch, sources) then sources
    else
      var last := sources[|sources| - 1];
      match SearchAll(CutFits(render, epoch, sources), |last.content|).last
      case None => sources
      case Some(n) =>
        sources[|sources| - 1 := last.(content := if n <= |last.content| then last.content[..n] else last.content)]
  }

  /** The rendered message, or nothing when not even an empty last source fits. */
  function BoundedMessage(render: Renderer, epoch: nat, sources: seq<InstructionSource>): Option<string> {
    var k := OmitCount(render, epoch, sources, []);
    var message := render(epoch, sources[k..], OmitNotices(sources, k));
    if Short(message) then Some(message)
    else if sources == [] then None
    else match SearchAll(CutFits(render, epoch, sources), |sources[|sources| - 1].content|).best
      case None => None
      case Some(n) => Some(CutMessage(render, epoch, sources, n))
  }

  /** Longer cuts of a source never make shorter messages, and the notice of a cut never makes a long
      message short. */
  ghost predicate Growing(render: Renderer, epoch: nat, sources: seq<InstructionSource>) {
    sources != [] ==>
      && (forall i, j :: 0 <= i <= j <= |sources[|sources| - 1].content| ==>
            ByteLength(CutMessage(render, epoch, sources, i)) <= ByteLength(CutMessage(render, epoch, sources, j)))
      && (NeedsSearch(render, epoch, sources) ==>
          !Short(CutMessage(render, epoch, sources, |sources[|sources| - 1].content|)))
  }

  /** The last source may keep its content: no cut is searched for, it is empty, or losing one
      character is enough. */
  predicate KeepsLast(render: Renderer, epoch: nat, sources: seq<InstructionSource>) {
    || !NeedsSearch(render, epoch, sources)
    || sources[|sources| - 1].content == ""
    || Short(CutMessage(render, epoch, sources, |sources[|sources| - 1].content| - 1))
  }

  /** Exactly then rendering leaves the sources as they were: the search ends by trying the whole
      content again and so puts it back. */
  lemma LeftUntouched(render: Renderer, epoch: nat, sources: seq<InstructionSource>)
    requires Growing(render, epoch, sources)
    ensures Left(render, epoch, sources) == sources <==> KeepsLast(render, epoch, sources)
  {
    if NeedsSearch(render, epoch, sources) {
      var last := sources[|sources| - 1];
      var fits, n := CutFits(render, epoch, sources), |last.content|;
      var so := Trials(None, None);
      if n == 0 || fits(n - 1) {
        SearchReachesEnd(fits, 0, n, so);
        assert last.content[..n] == last.content;
        assert sources[|sources| - 1 := last] == sources;
      } else {
        SearchMissesEnd(fits, 0, n, so);
        var m := SearchAll(fits, n).last.value;
        assert |last.content[..m]| < n;
        assert Left(render, epoch, sources)[|sources| - 1] != last;
      }
    }
  }

  // ------------------------------------------------------------ the renderer as it runs

  lemma OmitOneMore(render: Renderer, epoch: nat, sources: seq<InstructionSource>, k: nat)
    requires k < |sources|
    ensures sources[k..][1..] == sources[k + 1..]
    ensures OmitCount(render, epoch, sources[k..], OmitNotices(sources, k)) ==
            if Short(render(epoch, sources[k..], OmitNotices(sources, k))) || |sources| - k <= 1 then 0
            else 1 + OmitCount(render, epoch, sources[k + 1..], OmitNotices(sources, k + 1))
  {
    assert sources[k..][1..] == sources[k + 1..];
  }

  /** Omission stops at a short message or at the last source. */
  lemma {:induction false} OmitEnds(render: Renderer, epoch: nat, sources: seq<InstructionSource>, j: nat)
    requires j < |sources|
    ensures var k := j + OmitCount(render, epoch, sources[j..], OmitNotices(sources, j));
            k < |sources| && (Short(render(epoch, sources[k..], OmitNotices(sources, k))) || k == |sources| - 1)
    decreases |sources| - j
  {
    OmitOneMore(render, epoch, sources, j);
    if j + 1 < |sources| {
      OmitEnds(render, epoch, sources, j + 1);
    }
  }

  /** A search means that the last source alone, all others omitted, is too long. */
  lemma SearchMeansLongLast(render: Renderer, epoch: nat, sources: seq<InstructionSource>)
    requires NeedsSearch(render, epoch, sources)
    ensures !Short(render(epoch, [sources[|sources| - 1]], OmitNotices(sources, |sources| - 1)))
  {
    assert sources[0..] == sources;
    OmitEnds(render, epoch, sources, 0);
    assert sources[|sources| - 1..] == [sources[|sources| - 1]];
  }

  /** Omit sources from the front while the message is too long. */
  method OmitSources(render: Renderer, epoch: nat, sources: array<InstructionSource>)
    returns (k: nat, notices: seq<InstructionDiagnostic>)
    ensures k == OmitCount(render, epoch, sources[..], []) <= sources.Length && notices == OmitNotices(sources[..], k)
    ensures Short(render(epoch, sources[k..], notices)) || sources.Length - k <= 1
    ensures sources.Length > 0 ==> k < sources.Length
  {
    k, notices := 0, [];
    ghost var all := sources[..];
    assert all[0..] == all;
    while !Short(render(epoch, sources[k..], notices)) && sources.Length - k > 1
      invariant k <= sources.Length && (sources.Length > 0 ==> k < sources.Length)
      invariant notices == OmitNotices(all, k)
      invariant k + OmitCount(render, epoch, all[k..], notices) == OmitCount(render, epoch, all, [])
    {
      assert sources[k..] == all[k..];
      OmitOneMore(render, epoch, all, k);
      notices := notices + [InstructionDiagnostic(sources[k].path, OMITTED)];
      k := k + 1;
    }
    assert sources[k..] == all[k..];
    if k < sources.Length {
      OmitOneMore(render, epoch, all, k);
    }
  }

  /** Fit the message by omitting and cutting sources. The trial cuts of the search are written to the
      caller's last source and the last of them stays there. */
  method FitSources(render: Renderer, epoch: nat, sources: array<InstructionSource>) returns (message: Option<string>)
    modifies sources
    ensures message == BoundedMessage(render, epoch, old(sources[..]))
    ensures sources[..] == Left(render, epoch, old(sources[..]))
  {
    var k, notices := OmitSources(render, epoch, sources);
    var text := render(epoch, sources[k..], notices);
    ghost var before := sources[..];
    assert sources[k..] == before[k..];
    if Short(text) {
      return Some(text);
    }
    if sources.Length == 0 {
      return None;
    }
    message := SearchCut(render, epoch, sources, notices, before);
  }

  method SearchCut(render: Renderer, epoch: nat, sources: array<InstructionSource>, notices: seq<InstructionDiagnostic>,
                   ghost before: seq<InstructionSource>)
    returns (message: Option<string>)
    requires sources.Length > 0 && sources[..] == before && NeedsSearch(render, epoch, before)
    requires notices == OmitNotices(before, |before| - 1)
    modifies sources
    ensures message == BoundedMessage(render, epoch, before)
    ensures sources[..] == Left(render, epoch, before)
  {
    var i := sources.Length - 1;
    var original := sources[i];
    var shown := notices + [InstructionDiagnostic(original.path, TRUNCATED)];
    var low, high := 0, |original.content|;
    message := None;
    ghost var fits, so := CutFits(render, epoch, before), Trials(None, None);
    ghost var goal := SearchAll(fits, |original.content|);
    while low <= high
      invariant 0 <= low && -1 <= high <= |original.content| && Search(fits, low, high, so) == goal
      invariant message == if so.best.Some? then Some(CutMessage(render, epoch, before, so.best.value)) else None
      invariant so.last.None? ==> sources[..] == before
      invariant so.last.Some? ==>
                  && so.last.value <= |original.content|
                  && sources[..] == before[i := original.(content := original.content[..so.last.value])]
      decreases high - low
    {
      var middle := (low + high) / 2;
      sources[i] := original.(content := original.content[..middle]);
      assert sources[i..] == [sources[i]];
      var candidate := render(epoch, sources[i..], shown);
      assert candidate == CutMessage(render, epoch, before, middle);
      if Short(candidate) {
        so := Trials(Some(middle), Some(middle));
        message, low := Some(candidate), middle + 1;
      } else {
        so := so.(last := Some(middle));
        high := middle - 1;
      }
    }
  }

  // ------------------------------------------------------------ a last source too long to show

  /** The message has at least as many bytes as its last source has characters. */
  predicate Shows(render: Renderer, epoch: nat, sources: seq<InstructionSource>, ds: seq<InstructionDiagnostic>)
    requires sources != []
  {
    ByteLength(render(epoch, sources, ds)) >= |sources[|sources| - 1].content|
  }

  ghost predicate Showing(render: Renderer) {
    forall epoch: nat, sources: seq<InstructionSource>, ds: seq<InstructionDiagnostic> :: sources != [] ==>
      Shows(render, epoch, sources, ds)
  }

  lemma LongLastIsSearched(render: Renderer, epoch: nat, sources: seq<InstructionSource>)
    requires Showing(render) && sources != [] && |sources[|sources| - 1].content| > MAX_CONTEXT_BYTES
    ensures NeedsSearch(render, epoch, sources)
  {
    var k := OmitCount(render, epoch, sources, []);
    assert sources[k..][|sources[k..]| - 1] == sources[|sources| - 1];
    assert Shows(render, epoch, sources[k..], OmitNotices(sources, k));
  }

  lemma LongLastIsNotShort(render: Renderer, epoch: nat, sources: seq<InstructionSource>)
    requires Showing(render) && sources != [] && |sources[|sources| - 1].content| > MAX_CONTEXT_BYTES + 1
    ensures !Short(CutMessage(render, epoch, sources, |sources[|sources| - 1].content| - 1))
  {
    var last := sources[|sources| - 1];
    var cut := last.(content := last.content[..|last.content| - 1]);
    var ds := OmitNotices(sources, |sources| - 1) + [InstructionDiagnostic(last.path, TRUNCATED)];
    assert Shows(render, epoch, [cut], ds);
  }

  lemma LongLastIsCut(render: Renderer, epoch: nat, sources: seq<InstructionSource>)
    requires Showing(render) && sources != [] && |sources[|sources| - 1].content| > MAX_CONTEXT_BYTES + 1
    ensures !KeepsLast(render, epoch, sources)
  {
    LongLastIsSearched(render, epoch, sources);
    LongLastIsNotShort(render, epoch, sources);
  }
}
