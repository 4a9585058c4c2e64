/** Reading a whole stream page by page at a pinned head.

    A store is any function from the number of the call and the request to a reply, so every
    claim holds for stores that change their mind between calls. */
module ReadStream {
  import opened Domain
  import opened Session

  datatype ReadRequest = ReadRequest(after: nat, limit: nat, head: Option<nat>)

  datatype Page = Page(records: seq<Record>, head: nat, nextAfter: nat, end: bool)

  datatype ReadError = Canceled | StoreFailed | ContractViolation | InvalidRequest | NoSuchSession

  type Reader = (nat, ReadRequest) -> Result<Page, ReadError>

  const PAGE_LIMIT: nat := 256

  /** A record that may stand at `sequence` of the session's stream. */
  predicate Fits(record: Record, sessionID: string, sequence: nat, sound: Record -> bool) {
    record.sessionID == sessionID && record.sequence == sequence && sound(record)
  }

  /** The records are sequences `after + 1`, `after + 2`, ... of the session. */
  predicate Numbered(records: seq<Record>, after: nat, sessionID: string, sound: Record -> bool) {
    forall i :: 0 <= i < |records| ==> Fits(records[i], sessionID, after + i + 1, sound)
  }

  /** A page that continues the stream after `cursor` towards its own head. */
  predicate PageWell(page: Page, cursor: nat, limit: nat, sessionID: string, sound: Record -> bool) {
    && |page.records| <= limit && cursor + |page.records| <= page.head
    && Numbered(page.records, cursor, sessionID, sound)
    && page.nextAfter == cursor + |page.records| && page.end == (page.nextAfter == page.head)
  }

  lemma NumberedAppend(a: seq<Record>, b: seq<Record>, sessionID: string, sound: Record -> bool)
    requires Numbered(a, 0, sessionID, sound) && Numbered(b, |a|, sessionID, sound)
    ensures Numbered(a + b, 0, sessionID, sound)
  {
  }

  /** The record checks of one page, in order. */
  method CheckPage(page: Page, cursor: nat, limit: nat, sessionID: string, sound: Record -> bool) returns (ok: bool)
    ensures ok <==> PageWell(page, cursor, limit, sessionID, sound)
  {
    if page.head < cursor || |page.records| > limit {
      return false;
    }
    var next := cursor;
    for i := 0 to |page.records|
      invariant next == cursor + i <= page.head
      invariant forall j :: 0 <= j < i ==> Fits(page.records[j], sessionID, cursor + j + 1, sound)
    {
      var record := page.records[i];
      if record.sessionID != sessionID || record.sequence != cursor + i + 1 || record.sequence > page.head
         || !sound(record) {
        return false;
      }
      next := record.sequence;
    }
    ok := page.nextAfter == next && page.end == (next == page.head);
  }

  /** Pages that do not end the stream move the cursor on, but never past `bound`. */
  ghost predicate Advancing(read: Reader, limit: nat, bound: nat) {
    forall n: nat, after: nat, head: Option<nat> :: MovesOn(read(n, ReadRequest(after, limit, head)), after, bound)
  }

  predicate MovesOn(reply: Result<Page, ReadError>, after: nat, bound: nat) {
    reply.Ok? && !reply.value.end ==> after < reply.value.nextAfter <= bound
  }

  /** A store whose pages are slices of one log, each making progress. A cursor beyond the log is
      refused or answered with an empty last page. */
  ghost predicate Serves(read: Reader, log: seq<Record>, limit: nat) {
    && Advancing(read, limit, |log|)
    && forall n: nat, after: nat, head: Option<nat> :: (head == None || head == Some(|log|)) ==>
         Replies(read(n, ReadRequest(after, limit, head)), log, after, limit)
  }

  /** A store that answers requests pinned to the end of one log with slices of it, whatever it has
      taken in since. */
  ghost predicate ServesPinned(read: Reader, log: seq<Record>, limit: nat) {
    && (exists bound: nat :: Advancing(read, limit, bound))
    && forall n: nat, after: nat :: Replies(read(n, ReadRequest(after, limit, Some(|log|))), log, after, limit)
  }

  predicate Replies(reply: Result<Page, ReadError>, log: seq<Record>, after: nat, limit: nat) {
    if after <= |log| then ServesPage(reply, log, after, limit)
    else reply.Ok? ==> reply.value.records == [] && reply.value.head == |log| && reply.value.end
  }

  predicate ServesPage(reply: Result<Page, ReadError>, log: seq<Record>, after: nat, limit: nat)
    requires after <= |log|
  {
    && reply.Ok? && reply.value.head == |log| && |reply.value.records| <= limit
    && after + |reply.value.records| == reply.value.nextAfter <= |log|
    && reply.value.records == log[after..reply.value.nextAfter]
    && reply.value.end == (reply.value.nextAfter == |log|)
    && (after < |log| ==> reply.value.records != [])
  }

  /** One step of the pinned loop: the next page, held to the pinned head. */
  method NextPage(read: Reader, sound: Record -> bool, sessionID: string, limit: nat, cursor: nat, pinned: Option<nat>,
                  n: nat)
    returns (r: Result<Page, ReadError>)
    ensures r.Ok? ==>
              && r == read(n, ReadRequest(cursor, limit, pinned))
              && PageWell(r.value, cursor, limit, sessionID, sound)
    ensures r.Ok? ==> (pinned.Some? ==> r.value.head == pinned.value)
    ensures var reply := read(n, ReadRequest(cursor, limit, pinned));
            && reply.Ok? && (pinned.Some? ==> reply.value.head == pinned.value)
            && PageWell(reply.value, cursor, limit, sessionID, sound) ==>
              r == reply
  {
    r := read(n, ReadRequest(cursor, limit, pinned));
    if r.Err? {
      return;
    }
    if pinned.Some? && r.value.head != pinned.value {
      return Err(ContractViolation);
    }
    var ok := CheckPage(r.value, cursor, limit, sessionID, sound);
    if !ok {
      return Err(ContractViolation);
    }
  }

  lemma ServedPageIsWell(reply: Result<Page, ReadError>, log: seq<Record>, after: nat, limit: nat, sessionID: string,
                         sound: Record -> bool)
    requires after <= |log| && ServesPage(reply, log, after, limit) && Numbered(log, 0, sessionID, sound)
    ensures PageWell(reply.value, after, limit, sessionID, sound)
    ensures log[..after] + reply.value.records == log[..reply.value.nextAfter]
  {
    var page := reply.value;
    forall i | 0 <= i < |page.records|
      ensures Fits(page.records[i], sessionID, after + i + 1, sound)
    {
      assert page.records[i] == log[after + i];
    }
  }

  /** The head the first page pins. */
  function FirstHead(read: Reader, limit: nat): Option<nat> {
    var first := read(0, ReadRequest(0, limit, None));
    if first.Ok? then Some(first.value.head) else None
  }

  /** Before call `n` the cursor is below the pinned head, or nothing is pinned yet. */
  ghost predicate PinnedAt(read: Reader, limit: nat, n: nat, head: Option<nat>, cursor: nat) {
    if n == 0 then head == None && cursor == 0
    else head.Some? && cursor < head.value && FirstHead(read, limit) == head
  }

  /** What was read so far is a prefix of the log, and the pinned head its length. */
  ghost predicate Reads(log: seq<Record>, seen: seq<Record>, head: Option<nat>) {
    |seen| <= |log| && seen == log[..|seen|] && (head.Some? ==> head.value == |log|)
  }

  ghost predicate Served(read: Reader, log: seq<Record>, limit: nat, sessionID: string, sound: Record -> bool) {
    Serves(read, log, limit) && Numbered(log, 0, sessionID, sound)
  }

  /** One served page continues the prefix. */
  lemma ServedPageContinues(read: Reader, log: seq<Record>, limit: nat, sessionID: string, sound: Record -> bool,
                            n: nat, head: Option<nat>, seen: seq<Record>)
    requires Served(read, log, limit, sessionID, sound) && Reads(log, seen, head)
    ensures var reply := read(n, ReadRequest(|seen|, limit, head));
            && reply.Ok? && PageWell(reply.value, |seen|, limit, sessionID, sound)
            && (head.Some? ==> reply.value.head == head.value)
            && Reads(log, seen + reply.value.records, Some(reply.value.head))
            && reply.value.nextAfter == |seen| + |reply.value.records|
            && (reply.value.end <==> |seen| + |reply.value.records| == |log|)
            && (!reply.value.end ==> reply.value.records != [])
  {
    var reply := read(n, ReadRequest(|seen|, limit, head));
    assert Replies(reply, log, |seen|, limit);
    ServedPageIsWell(reply, log, |seen|, limit, sessionID, sound);
  }

  /** Against any store a successful read is exactly sequences 1 to the head the first page pinned;
      a store that slices one log is read back as that log, whatever its page sizes. */
  method ReadWholeStreamPinned(read: Reader, sound: Record -> bool, sessionID: string, limit: nat,
                               canceled: nat -> bool, ghost log: seq<Record>)
    returns (r: Result<seq<Record>, ReadError>)
    ensures limit == 0 || limit > PAGE_LIMIT || sessionID == "" ==> r.Err?
    ensures r.Ok? ==> FirstHead(read, limit) == Some(|r.value|) && Numbered(r.value, 0, sessionID, sound)
    ensures Served(read, log, limit, sessionID, sound) && r.Ok? ==> r.value == log
    ensures Served(read, log, limit, sessionID, sound) && r.Err? ==>
              if limit == 0 || limit > PAGE_LIMIT || sessionID == "" then r.error == Canceled
                 || r.error == InvalidRequest
              else r.error == Canceled && exists n: nat :: n <= 2 * |log| + 2 && canceled(n)
  {
    if canceled(0) {
      return Err(Canceled);
    }
    if limit == 0 || limit > PAGE_LIMIT || sessionID == "" {
      return Err(InvalidRequest);
    }
    var all: seq<Record>, head: Option<nat>, n: nat := [], None, 0;
    ghost var served := Served(read, log, limit, sessionID, sound);
    while true
      invariant PinnedAt(read, limit, n, head, |all|) && Numbered(all, 0, sessionID, sound)
      invariant served ==> Reads(log, all, head) && n <= |all|
      decreases if n == 0 then 1 else 0, if head.Some? then head.value - |all| else 0
    {
      if canceled(2 * n + 1) {
        return Err(Canceled);
      }
      if served {
        ServedPageContinues(read, log, limit, sessionID, sound, n, head, all);
      }
      var page := NextPage(read, sound, sessionID, limit, |all|, head, n);
      if page.Err? {
        return Err(page.error);
      }
      if canceled(2 * n + 2) {
        return Err(Canceled);
      }
      NumberedAppend(all, page.value.records, sessionID, sound);
      if page.value.end {
        return Ok(all + page.value.records);
      }
      if page.value.records == [] {
        return Err(ContractViolation);
      }
      all, head, n := all + page.value.records, Some(page.value.head), n + 1;
    }
  }

  /** Fold one page into the aggregate. */
  method ApplyPage(state: State, records: seq<Record>) returns (r: Result<State, Code>)
    ensures r == ReplayFrom(state, records)
  {
    var next := state;
    for i := 0 to |records|
      invariant ReplayFrom(next, records[i..]) == ReplayFrom(state, records)
    {
      assert records[i..][1..] == records[i + 1..];
      var applied := Apply(next, records[i]);
      if applied.Err? {
        return applied;
      }
      next := applied.value;
    }
    r := Ok(next);
  }

  /** What a finished replay says of the session. */
  function Loaded(state: State, sessionID: string): Result<State, ReadError> {
    if !state.Exists() then Err(NoSuchSession)
    else if state.id != sessionID then Err(ContractViolation)
    else Ok(state)
  }

  /** What loading a log that is served whole comes to. */
  function LoadedLog(log: seq<Record>, sessionID: string): Result<State, ReadError> {
    if Replay(log).Ok? then Loaded(Replay(log).value, sessionID) else Err(ContractViolation)
  }

  /** Replaying page by page is the fold over the whole read, without ever holding it: `seen` is
      what the pages carried. Against a store that slices one log the answer is that of replaying
      the log, whatever the page sizes. */
  method LoadCompactSessionPinned(read: Reader, sound: Record -> bool, sessionID: string, canceled: nat -> bool,
                                  ghost log: seq<Record>)
    returns (r: Result<State, ReadError>, ghost seen: seq<Record>)
    ensures r.Ok? ==> Numbered(seen, 0, sessionID, sound) && Replay(seen) == Ok(r.value) && r.value.id == sessionID
    ensures r.Ok? ==> FirstHead(read, PAGE_LIMIT) == Some(|seen|)
    ensures Served(read, log, PAGE_LIMIT, sessionID, sound) && sessionID != "" && r != Err(Canceled) ==>
              r == LoadedLog(log, sessionID)
    ensures Served(read, log, PAGE_LIMIT, sessionID, sound) && r == Err(Canceled) ==>
              exists n: nat :: n <= 2 * |log| + 2 && canceled(n)
  {
    seen := [];
    if canceled(0) {
      return Err(Canceled), seen;
    }
    if sessionID == "" {
      return Err(InvalidRequest), seen;
    }
    var state := PRISTINE;
    var cursor: nat, head: Option<nat>, n: nat := 0, None, 0;
    ghost var served := Served(read, log, PAGE_LIMIT, sessionID, sound);
    while true
      invariant cursor == |seen| && Replay(seen) == Ok(state)
      invariant PinnedAt(read, PAGE_LIMIT, n, head, cursor) && Numbered(seen, 0, sessionID, sound)
      invariant served ==> Reads(log, seen, head) && n <= |seen|
      decreases if n == 0 then 1 else 0, if head.Some? then head.value - cursor else 0
    {
      if canceled(2 * n + 1) {
        return Err(Canceled), seen;
      }
      if served {
        ServedPageContinues(read, log, PAGE_LIMIT, sessionID, sound, n, head, seen);
      }
      var page := NextPage(read, sound, sessionID, PAGE_LIMIT, cursor, head, n);
      if page.Err? {
        return Err(page.error), seen;
      }
      if canceled(2 * n + 2) {
        return Err(Canceled), seen;
      }
      var applied := ApplyPage(state, page.value.records);
      ReplayMore(seen, page.value.records, state);
      if served {
        PrefixReplays(log, page.value.nextAfter);
      }
      if applied.Err? {
        return Err(ContractViolation), seen;
      }
      NumberedAppend(seen, page.value.records, sessionID, sound);
      state, seen := applied.value, seen + page.value.records;
      if page.value.end {
        return Loaded(state, sessionID), seen;
      }
      if page.value.records == [] {
        return Err(ContractViolation), seen;
      }
      cursor, head, n := page.value.nextAfter, Some(page.value.head), n + 1;
    }
  }

  lemma ReplayMore(seen: seq<Record>, records: seq<Record>, state: State)
    requires Replay(seen) == Ok(state)
    ensures Replay(seen + records) == ReplayFrom(state, records)
  {
    ReplaySplits(PRISTINE, seen, records);
  }

  /** A log replays only if each of its prefixes does. */
  lemma PrefixReplays(log: seq<Record>, k: nat)
    requires k <= |log|
    ensures Replay(log[..k]).Err? ==> Replay(log).Err?
    ensures k == |log| ==> log[..k] == log
  {
    assert log == log[..k] + log[k..];
    ReplaySplits(PRISTINE, log[..k], log[k..]);
  }

  // ------------------------------------------------------------ a store over one log

  /** The reader of the in-memory store: at most `limit` records up to the pinned head. */
  function SliceReader(log: seq<Record>): Reader {
    (n: nat, q: ReadRequest) =>
      var head := if q.head.Some? then q.head.value else |log|;
      if q.limit == 0 || q.limit > PAGE_LIMIT || q.after > head || head > |log| then Err(StoreFailed)
      else
        var end := if q.after + q.limit > head then head else q.after + q.limit;
        Ok(Page(log[q.after..end], head, end, end == head))
  }

  /** A stream that has grown still answers requests pinned to an earlier head from there. */
  lemma GrownReaderServesPinned(stream: seq<Record>, log: seq<Record>, limit: nat)
    requires 0 < limit <= PAGE_LIMIT && log <= stream
    ensures ServesPinned(SliceReader(stream), log, limit)
  {
    SliceReaderServes(stream, limit);
    forall n: nat, after: nat
      ensures Replies(SliceReader(stream)(n, ReadRequest(after, limit, Some(|log|))), log, after, limit)
    {
      var end := if after + limit > |log| then |log| else after + limit;
      assert after <= end ==> stream[after..end] == log[after..end];
    }
  }

  /** It serves its log at every page size it allows. */
  lemma SliceReaderServes(log: seq<Record>, limit: nat)
    requires 0 < limit <= PAGE_LIMIT
    ensures Serves(SliceReader(log), log, limit)
  {
  }
}
