/** The event store seen by context preparation, in every run of transactions. */
module StoreViews {
  import opened Domain
  import opened AppendStore
  import opened AppendProtocol
  import opened ReadStream
  import opened Orchestrator

  lemma RecordsGrow(a: seq<Stored>, b: seq<Stored>)
    requires a <= b
    ensures Records(a) <= Records(b)
  {
  }

  /** Whatever is committed between the first scan, a second one and the reads of a bracket: in every
      reachable store the in-memory reader serves whole logs to the scans and keeps both readable at
      their heads. */
  lemma ReachableViewsServe(w: World, between: seq<AppendRequest>, after: seq<AppendRequest>, sessionID: string,
                            limit: nat)
    requires Valid(w) && 0 < limit <= PAGE_LIMIT
    ensures var log := Records(w.Stream(sessionID));
            var later := Records(Settle(w, between).Stream(sessionID));
            var end := Records(Settle(w, between + after).Stream(sessionID));
            ViewsServe(Views(SliceReader(log), SliceReader(later), SliceReader(end)), limit, log, later)
  {
    var w', w'' := Settle(w, between), Settle(w, between + after);
    var log, later, end := Records(w.Stream(sessionID)), Records(w'.Stream(sessionID)), Records(w''.Stream(sessionID));
    RunKeepsValid(w, between);
    StreamIsContiguous(w, sessionID);
    StreamIsContiguous(w', sessionID);
    SettleSplits(w, between, after);
    RunOnlyGrows(w, between, sessionID, "");
    RunOnlyGrows(w', after, sessionID, "");
    RecordsGrow(w.Stream(sessionID), w'.Stream(sessionID));
    RecordsGrow(w'.Stream(sessionID), w''.Stream(sessionID));
    SliceReaderServes(log, limit);
    SliceReaderServes(later, limit);
    GrownReaderServesPinned(end, log, limit);
    GrownReaderServesPinned(end, later, limit);
  }
}
