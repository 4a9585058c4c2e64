/** The text of an instruction message: a JSON payload of changes, sources and sorted diagnostics between
    a fixed opening and closing, and how its size depends on what it shows. */
module InstructionText {
  import opened Domain
  import opened Meter
  import opened Ordering
  import opened SnapshotRender

  /** The fixed pieces of the message and the encoding of its parts. */
  datatype Json = Json(
    opening: nat -> string,
    changes: seq<InstructionChange> -> string,
    sourceHead: (string, string, string) -> string,
    escape: char -> string,
    sourceTail: string,
    sourcesTail: string,
    diagnosticsHead: string,
    diagnostic: InstructionDiagnostic -> string,
    diagnosticsTail: string,
    comma: string,
    closing: string)

  function Escaped(json: Json, content: string): string {
    if content == "" then "" else json.escape(content[0]) + Escaped(json, content[1..])
  }

  function SourceText(json: Json, s: InstructionSource): string {
    json.sourceHead(s.path, s.scope, s.digest) + Escaped(json, s.content) + json.sourceTail
  }

  function SourcesText(json: Json, sources: seq<InstructionSource>): string {
    if sources == [] then ""
    else if |sources| == 1 then SourceText(json, sources[0])
    else SourceText(json, sources[0]) + json.comma + SourcesText(json, sources[1..])
  }

  function DiagnosticKey(d: InstructionDiagnostic): Key {
    Key(0, d.path + ['\0'] + d.failureClass)
  }

  function Joined(json: Json, ds: seq<InstructionDiagnostic>): string {
    if ds == [] then ""
    else if |ds| == 1 then json.diagnostic(ds[0])
    else json.diagnostic(ds[0]) + json.comma + Joined(json, ds[1..])
  }

  /** Diagnostics sorted by path and class; none at all when there are none. */
  function DiagnosticsText(json: Json, ds: seq<InstructionDiagnostic>): string {
    if ds == [] then "" else json.diagnosticsHead + Joined(json, Sort(DiagnosticKey, ds)) + json.diagnosticsTail
  }

  function Text(json: Json, epoch: nat, changes: seq<InstructionChange>, sources: seq<InstructionSource>,
                ds: seq<InstructionDiagnostic>): string
  {
    json.opening(epoch) + json.changes(changes) + SourcesText(json, sources) + json.sourcesTail
    + DiagnosticsText(json, ds) + json.closing
  }

  /** The renderer once the changes and the first diagnostics are settled. */
  function RendererOf(json: Json, changes: seq<InstructionChange>, initial: seq<InstructionDiagnostic>): Renderer {
    (epoch: nat, sources: seq<InstructionSource>, ds: seq<InstructionDiagnostic>) =>
      Text(json, epoch, changes, sources, initial + ds)
  }

  // ------------------------------------------------------------ sizes

  lemma TextBytes(json: Json, epoch: nat, changes: seq<InstructionChange>, sources: seq<InstructionSource>,
                  ds: seq<InstructionDiagnostic>)
    ensures ByteLength(Text(json, epoch, changes, sources, ds)) ==
            ByteLength(json.opening(epoch) + json.changes(changes)) + ByteLength(SourcesText(json, sources))
            + ByteLength(json.sourcesTail) + ByteLength(DiagnosticsText(json, ds)) + ByteLength(json.closing)
  {
    var a, b, c, d := json.opening(epoch) + json.changes(changes), SourcesText(json, sources), json.sourcesTail,
      DiagnosticsText(json, ds);
    ByteLengthAdditive(a, b);
    ByteLengthAdditive(a + b, c);
    ByteLengthAdditive(a + b + c, d);
    ByteLengthAdditive(a + b + c + d, json.closing);
  }

  lemma SourceBytes(json: Json, s: InstructionSource)
    ensures ByteLength(SourceText(json, s)) ==
            ByteLength(json.sourceHead(s.path, s.scope, s.digest)) + ByteLength(Escaped(json, s.content))
              + ByteLength(json.sourceTail)
  {
    ByteLengthAdditive(json.sourceHead(s.path, s.scope, s.digest), Escaped(json, s.content));
    ByteLengthAdditive(json.sourceHead(s.path, s.scope, s.digest) + Escaped(json, s.content), json.sourceTail);
  }

  lemma {:induction false} EscapedSplits(json: Json, a: string, b: string)
    ensures Escaped(json, a + b) == Escaped(json, a) + Escaped(json, b)
  {
    if a == "" {
      assert a + b == b;
    } else {
      assert (a + b)[1..] == a[1..] + b;
      EscapedSplits(json, a[1..], b);
    }
  }

  /** A longer beginning of a content never takes fewer bytes. */
  lemma EscapedGrows(json: Json, content: string, i: nat, j: nat)
    requires i <= j <= |content|
    ensures ByteLength(Escaped(json, content[..i])) <= ByteLength(Escaped(json, content[..j]))
  {
    assert content[..j] == content[..i] + content[i..j];
    EscapedSplits(json, content[..i], content[i..j]);
    ByteLengthAdditive(Escaped(json, content[..i]), Escaped(json, content[i..j]));
  }

  /** The encoding spends at least a byte on every character. */
  ghost predicate Wide(json: Json) {
    forall c :: ByteLength(json.escape(c)) >= 1
  }

  lemma {:induction false} EscapedShows(json: Json, content: string)
    requires Wide(json)
    ensures ByteLength(Escaped(json, content)) >= |content|
  {
    if content != "" {
      EscapedShows(json, content[1..]);
      ByteLengthAdditive(json.escape(content[0]), Escaped(json, content[1..]));
    }
  }

  // diagnostics

  function SumBytes(json: Json, ds: seq<InstructionDiagnostic>): nat {
    if ds == [] then 0 else ByteLength(json.diagnostic(ds[0])) + SumBytes(json, ds[1..])
  }

  function Commas(json: Json, n: nat): nat {
    if n <= 1 then 0 else ByteLength(json.comma) + Commas(json, n - 1)
  }

  lemma {:induction false} JoinedBytes(json: Json, ds: seq<InstructionDiagnostic>)
    ensures ByteLength(Joined(json, ds)) == SumBytes(json, ds) + Commas(json, |ds|)
  {
    if |ds| > 1 {
      JoinedBytes(json, ds[1..]);
      ByteLengthAdditive(json.diagnostic(ds[0]), json.comma);
      ByteLengthAdditive(json.diagnostic(ds[0]) + json.comma, Joined(json, ds[1..]));
    } else if |ds| == 1 {
      assert ds[1..] == [];
    }
  }

  lemma {:induction false} InsertBytes(json: Json, x: InstructionDiagnostic, ds: seq<InstructionDiagnostic>)
    ensures SumBytes(json, Insert(DiagnosticKey, x, ds)) == ByteLength(json.diagnostic(x)) + SumBytes(json, ds)
  {
    var all := Insert(DiagnosticKey, x, ds);
    if ds == [] || AtMost(DiagnosticKey(x), DiagnosticKey(ds[0])) {
      assert all[1..] == ds;
    } else {
      InsertBytes(json, x, ds[1..]);
      assert all[1..] == Insert(DiagnosticKey, x, ds[1..]);
    }
  }

  lemma {:induction false} SortBytes(json: Json, ds: seq<InstructionDiagnostic>)
    ensures SumBytes(json, Sort(DiagnosticKey, ds)) == SumBytes(json, ds)
  {
    if ds != [] {
      SortBytes(json, ds[1..]);
      InsertBytes(json, ds[0], Sort(DiagnosticKey, ds[1..]));
    }
  }

  lemma {:induction false} SumBytesAppend(json: Json, ds: seq<InstructionDiagnostic>, x: InstructionDiagnostic)
    ensures SumBytes(json, ds + [x]) == SumBytes(json, ds) + ByteLength(json.diagnostic(x))
  {
    if ds != [] {
      assert (ds + [x])[1..] == ds[1..] + [x];
      SumBytesAppend(json, ds[1..], x);
    } else {
      assert [x][1..] == [] && [] + [x] == [x];
    }
  }

  lemma DiagnosticsBytes(json: Json, ds: seq<InstructionDiagnostic>)
    requires ds != []
    ensures ByteLength(DiagnosticsText(json, ds)) ==
            ByteLength(json.diagnosticsHead) + SumBytes(json, ds) + Commas(json, |ds|)
              + ByteLength(json.diagnosticsTail)
  {
    var joined := Joined(json, Sort(DiagnosticKey, ds));
    ByteLengthAdditive(json.diagnosticsHead, joined);
    ByteLengthAdditive(json.diagnosticsHead + joined, json.diagnosticsTail);
    JoinedBytes(json, Sort(DiagnosticKey, ds));
    SortBytes(json, ds);
    SortSorts(DiagnosticKey, ds);
  }

  /** One more diagnostic never makes the message shorter. */
  lemma DiagnosticsGrow(json: Json, ds: seq<InstructionDiagnostic>, x: InstructionDiagnostic)
    ensures ByteLength(DiagnosticsText(json, ds)) <= ByteLength(DiagnosticsText(json, ds + [x]))
  {
    if ds != [] {
      DiagnosticsBytes(json, ds);
      DiagnosticsBytes(json, ds + [x]);
      SumBytesAppend(json, ds, x);
    }
  }

  // ------------------------------------------------------------ the message grows with what it shows

  lemma OneSourceBytes(json: Json, epoch: nat, changes: seq<InstructionChange>, s: InstructionSource,
                       t: InstructionSource, ds: seq<InstructionDiagnostic>, es: seq<InstructionDiagnostic>)
    requires s.path == t.path && s.scope == t.scope && s.digest == t.digest
    requires ByteLength(Escaped(json, s.content)) <= ByteLength(Escaped(json, t.content))
    requires ByteLength(DiagnosticsText(json, ds)) <= ByteLength(DiagnosticsText(json, es))
    ensures ByteLength(Text(json, epoch, changes, [s], ds)) <= ByteLength(Text(json, epoch, changes, [t], es))
  {
    TextBytes(json, epoch, changes, [s], ds);
    TextBytes(json, epoch, changes, [t], es);
    SourceBytes(json, s);
    SourceBytes(json, t);
  }

  /** JSON messages grow with the content of the last source, and with each diagnostic. */
  lemma JsonGrows(json: Json, changes: seq<InstructionChange>, initial: seq<InstructionDiagnostic>, epoch: nat,
                  sources: seq<InstructionSource>)
    ensures Growing(RendererOf(json, changes, initial), epoch, sources)
  {
    if sources != [] {
      var render, last := RendererOf(json, changes, initial), sources[|sources| - 1];
      var notices := OmitNotices(sources, |sources| - 1);
      var ds := initial + (notices + [InstructionDiagnostic(last.path, TRUNCATED)]);
      forall i, j | 0 <= i <= j <= |last.content|
        ensures ByteLength(CutMessage(render, epoch, sources, i)) <= ByteLength(CutMessage(render, epoch, sources, j))
      {
        EscapedGrows(json, last.content, i, j);
        OneSourceBytes(json, epoch, changes, last.(content := last.content[..i]), last.(content := last.content[..j]),
                       ds, ds);
      }
      if NeedsSearch(render, epoch, sources) {
        SearchMeansLongLast(render, epoch, sources);
        assert last.content[..|last.content|] == last.content;
        assert ds == (initial + notices) + [InstructionDiagnostic(last.path, TRUNCATED)];
        DiagnosticsGrow(json, initial + notices, InstructionDiagnostic(last.path, TRUNCATED));
        OneSourceBytes(json, epoch, changes, last, last, initial + notices, ds);
      }
    }
  }

  /** A message shows at least as many bytes as its last source has characters. */
  lemma {:induction false} SourcesShow(json: Json, sources: seq<InstructionSource>)
    requires Wide(json) && sources != []
    ensures ByteLength(SourcesText(json, sources)) >= |sources[|sources| - 1].content|
  {
    if |sources| == 1 {
      SourceBytes(json, sources[0]);
      EscapedShows(json, sources[0].content);
    } else {
      SourcesShow(json, sources[1..]);
      ByteLengthAdditive(SourceText(json, sources[0]) + json.comma, SourcesText(json, sources[1..]));
    }
  }

  lemma TextShows(json: Json, epoch: nat, changes: seq<InstructionChange>, sources: seq<InstructionSource>,
                  ds: seq<InstructionDiagnostic>)
    requires Wide(json) && sources != []
    ensures ByteLength(Text(json, epoch, changes, sources, ds)) >= |sources[|sources| - 1].content|
  {
    TextBytes(json, epoch, changes, sources, ds);
    SourcesShow(json, sources);
  }

  lemma JsonShows(json: Json, changes: seq<InstructionChange>, initial: seq<InstructionDiagnostic>)
    requires Wide(json)
    ensures Showing(RendererOf(json, changes, initial))
  {
    forall epoch: nat, sources: seq<InstructionSource>, ds: seq<InstructionDiagnostic> | sources != []
      ensures Shows(RendererOf(json, changes, initial), epoch, sources, ds)
    {
      TextShows(json, epoch, changes, sources, initial + ds);
    }
  }

  // ------------------------------------------------------------ a batch

  /** The changes without their contents. */
  function Blanked(changes: seq<InstructionChange>): (blank: seq<InstructionChange>)
    ensures |blank| == |changes|
    ensures forall i :: 0 <= i < |changes| ==> blank[i] == changes[i].(content := "")
  {
    seq(|changes|, i requires 0 <= i < |changes| => changes[i].(content := ""))
  }

  /** The message of a batch: whole if it is short, else with blanked changes and fitted sources. */
  function BoundedText(json: Json, epoch: nat, changes: seq<InstructionChange>, sources: seq<InstructionSource>,
                       ds: seq<InstructionDiagnostic>): Option<string>
  {
    var whole := Text(json, epoch, changes, sources, ds);
    if Short(whole) then Some(whole) else BoundedMessage(RendererOf(json, Blanked(changes), ds), epoch, sources)
  }

  function LeftSources(json: Json, epoch: nat, changes: seq<InstructionChange>, sources: seq<InstructionSource>,
                       ds: seq<InstructionDiagnostic>): seq<InstructionSource>
  {
    if Short(Text(json, epoch, changes, sources, ds)) then sources
       else Left(RendererOf(json, Blanked(changes), ds), epoch, sources)
  }

  /** Render within the limit, writing through the caller's slices: change contents are blanked and the
      last source may be left cut. */
  method RenderBounded(json: Json, epoch: nat, changes: array<InstructionChange>, sources: array<InstructionSource>,
                       ds: seq<InstructionDiagnostic>)
    returns (message: Option<string>)
    modifies changes, sources
    ensures message == BoundedText(json, epoch, old(changes[..]), old(sources[..]), ds)
    ensures sources[..] == LeftSources(json, epoch, old(changes[..]), old(sources[..]), ds)
    ensures changes[..] == if Short(Text(json, epoch, old(changes[..]), old(sources[..]), ds)) then old(changes[..])
            else Blanked(old(changes[..]))
  {
    var whole := Text(json, epoch, changes[..], sources[..], ds);
    if Short(whole) {
      return Some(whole);
    }
    BlankContents(changes);
    message := FitSources(RendererOf(json, changes[..], ds), epoch, sources);
  }

  method BlankContents(changes: array<InstructionChange>)
    modifies changes
    ensures changes[..] == Blanked(old(changes[..]))
  {
    for i := 0 to changes.Length
      invariant forall j :: 0 <= j < i ==> changes[j] == old(changes[j]).(content := "")
      invariant forall j :: i <= j < changes.Length ==> changes[j] == old(changes[j])
    {
      changes[i] := changes[i].(content := "");
    }
  }

  /** A snapshot has no changes and no diagnostics of its own. */
  lemma SnapshotText(json: Json, epoch: nat, sources: seq<InstructionSource>)
    ensures BoundedText(json, epoch, [], sources, []) == BoundedMessage(RendererOf(json, [], []), epoch, sources)
    ensures LeftSources(json, epoch, [], sources, []) == Left(RendererOf(json, [], []), epoch, sources)
  {
    assert Blanked([]) == [];
    if Short(Text(json, epoch, [], sources, [])) {
      assert [] + OmitNotices(sources, 0) == [];
      assert sources[0..] == sources;
    }
  }
}
