/** Shrinking an oversized tool result to a marked excerpt of its head and tail.

    `ProjectedText` specifies the excerpt by trying every size from the largest down;
    `ProjectToolResult` finds the same one by binary search. That needs a frame to grow with its
    excerpt although marker lines inside the excerpt are escaped, which is what is proved here. */
module ToolResult {
  import opened Domain
  import opened Meter

  const MARKER_TITLE := "[tool result projected"
  const MARKER_AUTHOR := " by Open Code Harness]"
  const OPEN_MARKER := MARKER_TITLE + MARKER_AUTHOR
  const CLOSE_MARKER := "[end projected tool result]"

  function Min(a: nat, b: nat): nat {
    if a < b then a else b
  }

  function Max(a: nat, b: nat): nat {
    if a > b then a else b
  }

  function MaxProjectedTokens(protectedTail: nat): nat {
    Min(2048, Max(256, protectedTail / 2))
  }

  function EstimateText(text: string): nat {
    PER_MESSAGE_FRAMING + TextTokens(text)
  }

  // ------------------------------------------------------------ escaping

  predicate StartsWith(text: string, word: string) {
    word == "" || (text != "" && text[0] == word[0] && StartsWith(text[1..], word[1..]))
  }

  /** Put a backslash in front of every occurrence of `marker`, left to right. */
  function Escape(text: string, marker: string): string
    requires marker != ""
    decreases |text|
  {
    if text == "" then ""
    else if StartsWith(text, marker) then
      StartsWithLength(text, marker);
      ['\\'] + marker + Escape(text[|marker|..], marker)
    else [text[0]] + Escape(text[1..], marker)
  }

  /** The number of places where `word` occurs. */
  function Occurrences(text: string, word: string): nat {
    if text == "" then 0 else (if StartsWith(text, word) then 1 else 0) + Occurrences(text[1..], word)
  }

  /** A word without brackets or backslashes. */
  predicate Plain(word: string) {
    forall i :: 0 <= i < |word| ==> word[i] != '[' && word[i] != '\\'
  }

  /** A bracket followed by plain text. */
  predicate IsMarker(marker: string) {
    marker != "" && marker[0] == '[' && Plain(marker[1..])
  }

  lemma {:induction false} StartsWithLength(text: string, word: string)
    requires StartsWith(text, word)
    ensures |word| <= |text| && text[..|word|] == word
  {
    if word != "" {
      StartsWithLength(text[1..], word[1..]);
      assert text[..|word|] == [text[0]] + text[1..][..|word| - 1];
    }
  }

  /** A marker cannot begin inside plain text. */
  lemma {:induction false} PlainHoldsNone(plain: string, rest: string, marker: string)
    requires Plain(plain) && IsMarker(marker)
    ensures Occurrences(plain + rest, marker) == Occurrences(rest, marker)
  {
    if plain == "" {
      assert plain + rest == rest;
    } else {
      assert (plain + rest)[1..] == plain[1..] + rest;
      PlainHoldsNone(plain[1..], rest, marker);
    }
  }

  /** Behind a marker only its own start counts. */
  lemma MarkerCounts(marker: string, rest: string, word: string)
    requires IsMarker(marker) && IsMarker(word)
    ensures Occurrences(marker + rest, word) == Occurrences(rest, word) + if StartsWith(marker + rest, word) then 1
            else 0
  {
    assert (marker + rest)[1..] == marker[1..] + rest;
    PlainHoldsNone(marker[1..], rest, word);
  }

  lemma SplitMarker(text: string, marker: string)
    requires StartsWith(text, marker)
    ensures |marker| <= |text| && text == marker + text[|marker|..]
  {
    StartsWithLength(text, marker);
  }

  /** Escaping costs exactly one byte for every occurrence. */
  lemma {:induction false} EscapeCost(text: string, marker: string)
    requires IsMarker(marker)
    ensures ByteLength(Escape(text, marker)) == ByteLength(text) + Occurrences(text, marker)
    decreases |text|
  {
    if text == "" {
    } else if StartsWith(text, marker) {
      SplitMarker(text, marker);
      var rest := text[|marker|..];
      EscapeCost(rest, marker);
      MarkerCounts(marker, rest, marker);
      ByteLengthAdditive(['\\'] + marker, Escape(rest, marker));
      ByteLengthAdditive(['\\'], marker);
      ByteLengthAdditive(marker, rest);
    } else {
      EscapeCost(text[1..], marker);
      assert ([text[0]] + Escape(text[1..], marker))[1..] == Escape(text[1..], marker);
    }
  }

  /** Escaping a marker neither makes nor breaks a plain beginning. */
  lemma {:induction false} EscapeKeepsPlainStart(text: string, marker: string, word: string)
    requires IsMarker(marker) && Plain(word)
    ensures StartsWith(Escape(text, marker), word) <==> StartsWith(text, word)
    decreases |word|
  {
    if word == "" || text == "" {
    } else if StartsWith(text, marker) {
      assert Escape(text, marker)[0] == '\\';
    } else {
      assert Escape(text, marker)[1..] == Escape(text[1..], marker);
      EscapeKeepsPlainStart(text[1..], marker, word[1..]);
    }
  }

  /** Escaping one marker leaves the occurrences of another as they were. */
  lemma {:induction false} EscapeKeepsOthers(text: string, marker: string, other: string)
    requires IsMarker(marker) && IsMarker(other) && Distinct(marker, other)
    ensures Occurrences(Escape(text, marker), other) == Occurrences(text, other)
    decreases |text|
  {
    if text == "" {
    } else if StartsWith(text, marker) {
      SplitMarker(text, marker);
      var rest := text[|marker|..];
      EscapeKeepsOthers(rest, marker, other);
      assert Escape(text, marker)[1..] == marker + Escape(rest, marker);
      MarkerCounts(marker, rest, other);
      MarkerCounts(marker, Escape(rest, marker), other);
      NotBoth(marker, rest, other);
      NotBoth(marker, Escape(rest, marker), other);
    } else {
      EscapeKeepsOthers(text[1..], marker, other);
      assert Escape(text, marker)[1..] == Escape(text[1..], marker);
      EscapeKeepsPlainStart(text[1..], marker, other[1..]);
    }
  }

  /** Two markers that part ways right after the bracket. */
  predicate Distinct(a: string, b: string) {
    |a| > 1 && |b| > 1 && a[1] != b[1]
  }

  lemma NotBoth(marker: string, rest: string, other: string)
    requires IsMarker(marker) && IsMarker(other) && Distinct(marker, other)
    ensures !StartsWith(marker + rest, other)
  {
    assert (marker + rest)[1..][0] == marker[1];
    assert other[1..][0] == other[1];
  }

  /** The cost of an excerpt: its bytes and one more for each marker in it. */
  function EscapedBytes(text: string): nat {
    ByteLength(text) + Occurrences(text, OPEN_MARKER) + Occurrences(text, CLOSE_MARKER)
  }

  function EscapeDelimiters(text: string): string {
    Escape(Escape(text, OPEN_MARKER), CLOSE_MARKER)
  }

  lemma MarkersAreWell()
    ensures IsMarker(OPEN_MARKER) && IsMarker(CLOSE_MARKER) && Distinct(OPEN_MARKER, CLOSE_MARKER)
  {
    OpenIsMarker();
    CloseIsMarker();
    MarkersDiffer();
  }

  lemma OpenIsMarker()
    ensures IsMarker(OPEN_MARKER)
  {
    TitleIsMarker();
    AuthorIsPlain();
    assert OPEN_MARKER[1..] == MARKER_TITLE[1..] + MARKER_AUTHOR;
  }

  lemma TitleIsMarker()
    ensures IsMarker(MARKER_TITLE)
  {
  }

  lemma AuthorIsPlain()
    ensures Plain(MARKER_AUTHOR)
  {
  }

  lemma CloseIsMarker()
    ensures IsMarker(CLOSE_MARKER)
  {
  }

  lemma MarkersDiffer()
    ensures Distinct(OPEN_MARKER, CLOSE_MARKER)
  {
    assert OPEN_MARKER[1] == 't' && CLOSE_MARKER[1] == 'e';
  }

  lemma EscapeDelimitersCost(text: string)
    ensures ByteLength(EscapeDelimiters(text)) == EscapedBytes(text)
  {
    MarkersAreWell();
    EscapeCost(text, OPEN_MARKER);
    EscapeCost(Escape(text, OPEN_MARKER), CLOSE_MARKER);
    EscapeKeepsOthers(text, OPEN_MARKER, CLOSE_MARKER);
  }

  // ------------------------------------------------------------ excerpts grow with their size

  lemma {:induction false} LongerStillStarts(a: string, b: string, word: string)
    requires StartsWith(a, word)
    ensures StartsWith(a + b, word)
  {
    if word != "" {
      assert (a + b)[1..] == a[1..] + b;
      LongerStillStarts(a[1..], b, word[1..]);
    }
  }

  lemma {:induction false} LongerHasMore(a: string, b: string, word: string)
    ensures Occurrences(a, word) <= Occurrences(a + b, word)
    ensures Occurrences(b, word) <= Occurrences(a + b, word)
  {
    if a == "" {
      assert a + b == b;
    } else {
      assert (a + b)[1..] == a[1..] + b;
      LongerHasMore(a[1..], b, word);
      if StartsWith(a, word) {
        LongerStillStarts(a, b, word);
      }
    }
  }

  lemma LongerCostsMore(a: string, b: string)
    ensures EscapedBytes(a) <= EscapedBytes(a + b) && EscapedBytes(b) <= EscapedBytes(a + b)
  {
    ByteLengthAdditive(a, b);
    LongerHasMore(a, b, OPEN_MARKER);
    LongerHasMore(a, b, CLOSE_MARKER);
  }

  /** Three quarters of the budget, rounded up, but never more than there is. */
  function HeadCount(length: nat, budget: nat): nat {
    Min((budget * 3 + 3) / 4, length)
  }

  function TailCount(length: nat, budget: nat): (tail: int)
    requires budget <= length
  {
    var rest := budget - HeadCount(length, budget);
    if rest > length - HeadCount(length, budget) then length - HeadCount(length, budget) else rest
  }

  /** The two excerpts are disjoint, use up the budget exactly, and each grows with it. */
  lemma SplitIsExact(length: nat, small: nat, large: nat)
    requires small <= large <= length
    ensures 0 <= TailCount(length, small)
    ensures HeadCount(length, small) + TailCount(length, small) == small
    ensures HeadCount(length, small) <= HeadCount(length, large) && TailCount(length, small) <= TailCount(length, large)
  {
    assert (small * 3 + 3) / 4 <= small && (large * 3 + 3) / 4 <= large;
  }

  function Head(content: string, budget: nat): string {
    content[..HeadCount(|content|, budget)]
  }

  function Tail(content: string, budget: nat): string
    requires budget <= |content|
  {
    SplitIsExact(|content|, budget, budget);
    content[|content| - TailCount(|content|, budget)..]
  }

  const MIDDLE := "\ncontent_tail:\n"
  const FOOTER := "\n" + CLOSE_MARKER

  /** The framed excerpt; `header` is the opening marker and the metadata lines. */
  function Frame(header: string, content: string, budget: nat): string
    requires budget <= |content|
  {
    header + EscapeDelimiters(Head(content, budget)) + MIDDLE + EscapeDelimiters(Tail(content, budget)) + FOOTER
  }

  lemma FrameBytes(header: string, content: string, budget: nat)
    requires budget <= |content|
    ensures ByteLength(Frame(header, content, budget)) ==
            ByteLength(header) + EscapedBytes(Head(content, budget)) + ByteLength(MIDDLE)
            + EscapedBytes(Tail(content, budget)) + ByteLength(FOOTER)
  {
    var head, tail := EscapeDelimiters(Head(content, budget)), EscapeDelimiters(Tail(content, budget));
    EscapeDelimitersCost(Head(content, budget));
    EscapeDelimitersCost(Tail(content, budget));
    ByteLengthAdditive(header, head);
    ByteLengthAdditive(header + head, MIDDLE);
    ByteLengthAdditive(header + head + MIDDLE, tail);
    ByteLengthAdditive(header + head + MIDDLE + tail, FOOTER);
  }

  /** A larger excerpt never makes a cheaper frame. */
  lemma FrameGrows(header: string, content: string, small: nat, large: nat)
    requires small <= large <= |content|
    ensures EstimateText(Frame(header, content, small)) <= EstimateText(Frame(header, content, large))
  {
    SplitIsExact(|content|, small, large);
    var head, tail := Head(content, large), Tail(content, large);
    assert head == Head(content, small) + head[|Head(content, small)|..];
    LongerCostsMore(Head(content, small), head[|Head(content, small)|..]);
    SplitIsExact(|content|, large, large);
    assert tail == tail[..|tail| - |Tail(content, small)|] + Tail(content, small);
    LongerCostsMore(tail[..|tail| - |Tail(content, small)|], Tail(content, small));
    FrameBytes(header, content, small);
    FrameBytes(header, content, large);
  }

  // ------------------------------------------------------------ projection

  datatype Projected = Verbatim | Excerpt(text: string) | TooLarge

  /** The largest number up to `bound` that passes, if any. */
  function LargestFit(fits: nat -> bool, bound: nat): Option<nat> {
    if fits(bound) then Some(bound) else if bound == 0 then None else LargestFit(fits, bound - 1)
  }

  /** Whether the frame of an excerpt of this size is cheap enough. */
  function FitsWithin(header: string, content: string, maxTokens: nat): nat -> bool {
    (budget: nat) => budget <= |content| && EstimateText(Frame(header, content, budget)) <= maxTokens
  }

  /** The result verbatim, or the largest excerpt that fits, or the empty one within the hard limit. */
  function ProjectedText(header: string, content: string, maxTokens: nat, hardInput: nat): Projected {
    if EstimateText(content) <= maxTokens then Verbatim
    else match LargestFit(FitsWithin(header, content, maxTokens), |content|)
      case Some(budget) => if budget <= |content| then Excerpt(Frame(header, content, budget)) else TooLarge
      case None => if EstimateText(Frame(header, content, 0)) > hardInput then TooLarge
        else Excerpt(Frame(header, content, 0))
  }

  lemma {:induction false} LargestFitIs(fits: nat -> bool, bound: nat, k: nat)
    requires k <= bound && fits(k) && forall j :: k < j <= bound ==> !fits(j)
    ensures LargestFit(fits, bound) == Some(k)
  {
    if k < bound {
      LargestFitIs(fits, bound - 1, k);
    }
  }

  lemma {:induction false} NoFit(fits: nat -> bool, bound: nat)
    requires forall j :: 0 <= j <= bound ==> !fits(j)
    ensures LargestFit(fits, bound) == None
  {
    if bound > 0 {
      NoFit(fits, bound - 1);
    }
  }

  /** What fits, fits at every smaller size. */
  ghost predicate Downward(fits: nat -> bool, bound: nat) {
    forall small, large :: 0 <= small <= large <= bound && fits(large) ==> fits(small)
  }

  lemma FitsDownward(header: string, content: string, maxTokens: nat)
    ensures Downward(FitsWithin(header, content, maxTokens), |content|)
  {
    var fits := FitsWithin(header, content, maxTokens);
    forall small, large | 0 <= small <= large <= |content| && fits(large)
      ensures fits(small)
    {
      FrameGrows(header, content, small, large);
    }
  }

  /** The same by binary search over the size of the excerpt. */
  method ProjectToolResult(header: string, content: string, maxTokens: nat, hardInput: nat) returns (r: Projected)
    ensures r == ProjectedText(header, content, maxTokens, hardInput)
  {
    if EstimateText(content) <= maxTokens {
      return Verbatim;
    }
    FitsDownward(header, content, maxTokens);
    var budget := SearchLargest(FitsWithin(header, content, maxTokens), |content|);
    if budget.Some? {
      return Excerpt(Frame(header, content, budget.value));
    }
    var empty := Frame(header, content, 0);
    if EstimateText(empty) > hardInput {
      return TooLarge;
    }
    r := Excerpt(empty);
  }

  method SearchLargest(fits: nat -> bool, bound: nat) returns (best: Option<nat>)
    requires Downward(fits, bound)
    ensures best == LargestFit(fits, bound)
    ensures best.Some? ==> best.value <= bound
  {
    var low, high := 0, bound;
    best := None;
    while low <= high
      invariant 0 <= low <= high + 1 <= bound + 1
      invariant best == if low == 0 then None else Some(low - 1)
      invariant low > 0 ==> fits(low - 1)
      invariant high < bound ==> !fits(high + 1)
      decreases high - low
    {
      var mid := (low + high) / 2;
      if fits(mid) {
        best, low := Some(mid), mid + 1;
      } else {
        high := mid - 1;
      }
    }
    SearchEnds(fits, bound, low);
  }

  lemma SearchEnds(fits: nat -> bool, bound: nat, low: nat)
    requires Downward(fits, bound) && low <= bound + 1
    requires low > 0 ==> fits(low - 1)
    requires low <= bound ==> !fits(low)
    ensures LargestFit(fits, bound) == if low == 0 then None else Some(low - 1)
  {
    if low == 0 {
      NoFit(fits, bound);
    } else {
      LargestFitIs(fits, bound, low - 1);
    }
  }

  /** What a projection leaves costs at most the cap, unless not even the empty frame does. */
  lemma {:induction false} ProjectionIsBounded(header: string, content: string, maxTokens: nat, hardInput: nat)
    ensures match ProjectedText(header, content, maxTokens, hardInput)
            case Verbatim => EstimateText(content) <= maxTokens
            case Excerpt(text) => EstimateText(text) <= maxTokens
                                  || (text == Frame(header, content, 0) && EstimateText(text) <= hardInput)
            case TooLarge => EstimateText(Frame(header, content, 0)) > Max(maxTokens, hardInput)
  {
    LargestFitFits(FitsWithin(header, content, maxTokens), |content|);
  }

  lemma {:induction false} LargestFitFits(fits: nat -> bool, bound: nat)
    ensures match LargestFit(fits, bound)
            case Some(k) => k <= bound && fits(k)
            case None => !fits(0)
  {
    if !fits(bound) && bound > 0 {
      LargestFitFits(fits, bound - 1);
    }
  }
}
