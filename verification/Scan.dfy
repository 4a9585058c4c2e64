/** The pinned scan: read everything after a sequence, then project and digest it once. */
module Scan {
  import opened Domain
  import opened Projector
  import opened ReadStream
  import opened SourceDigest
  import Loop = ProjectorLoop

  datatype ScanResult = ScanResult(units: seq<Unit>, chain: Chain, head: nat)

  datatype ScanFault = Unreadable(cause: ReadError) | HeadMismatch | Unprojectable(fault: Fault) | Undigestable

  /** The records of a log after a sequence. */
  function Rest(log: seq<Record>, after: nat): seq<Record> {
    if after <= |log| then log[after..] else []
  }

  /** All records of some pages, in order. */
  function Joined(pages: seq<Page>): seq<Record> {
    if pages == [] then [] else Joined(pages[..|pages| - 1]) + pages[|pages| - 1].records
  }

  ghost predicate AllAt(pages: seq<Page>, head: nat) {
    forall i :: 0 <= i < |pages| ==> pages[i].head == head
  }

  /** Where the scan stands against a served log. */
  ghost predicate ScannedTo(log: seq<Record>, after: nat, cursor: nat, records: seq<Record>, head: Option<nat>) {
    && (head == None || head == Some(|log|))
    && (if after <= |log| then after <= cursor <= |log| && records == log[after..cursor]
        else cursor == after && records == [])
  }

  lemma ScanContinues(log: seq<Record>, after: nat, cursor: nat, records: seq<Record>, head: Option<nat>,
                      reply: Result<Page, ReadError>, limit: nat)
    requires ScannedTo(log, after, cursor, records, head) && Replies(reply, log, cursor, limit) && reply.Ok?
    ensures reply.value.head == |log|
    ensures reply.value.end ==> records + reply.value.records == Rest(log, after)
    ensures !reply.value.end ==> ScannedTo(log, after, reply.value.nextAfter, records + reply.value.records,
                                           Some(|log|))
  {
    if after <= |log| {
      assert records + reply.value.records == log[after..reply.value.nextAfter];
      assert log[after..|log|] == log[after..];
    }
  }

  lemma JoinOne(pages: seq<Page>, page: Page)
    ensures Joined(pages + [page]) == Joined(pages) + page.records
  {
    assert (pages + [page])[..|pages|] == pages;
  }

  /** Collect the pages after `after`. Whatever the store, they all carry the head the first one pins;
      a store that slices one log is read to its end. */
  method ReadAfter(read: Reader, limit: nat, after: nat, ghost bound: nat, ghost log: seq<Record>)
    returns (r: Result<(seq<Record>, nat), ScanFault>, ghost pages: seq<Page>)
    requires Advancing(read, limit, bound)
    ensures r.Ok? ==> pages != [] && AllAt(pages, r.value.1) && r.value.0 == Joined(pages)
    ensures Serves(read, log, limit) && r.Ok? ==> r.value == (Rest(log, after), |log|)
    ensures Serves(read, log, limit) && after <= |log| ==> r.Ok?
  {
    var records: seq<Record>, cursor: nat, head: Option<nat>, n: nat := [], after, None, 0;
    pages := [];
    while true
      invariant records == Joined(pages)
      invariant if head.None? then pages == [] else pages != [] && AllAt(pages, head.value)
      invariant Serves(read, log, limit) ==> ScannedTo(log, after, cursor, records, head)
      decreases bound - cursor
    {
      var page := read(n, ReadRequest(cursor, limit, head));
      assert MovesOn(page, cursor, bound);
      assert Serves(read, log, limit) ==> Replies(page, log, cursor, limit);
      if page.Err? {
        return Err(Unreadable(page.error)), pages;
      }
      if Serves(read, log, limit) {
        ScanContinues(log, after, cursor, records, head, page, limit);
      }
      if head.Some? && page.value.head != head.value {
        return Err(HeadMismatch), pages;
      }
      JoinOne(pages, page.value);
      head, pages := Some(page.value.head), pages + [page.value];
      records := records + page.value.records;
      if page.value.end {
        return Ok((records, head.value)), pages;
      }
      cursor, n := page.value.nextAfter, n + 1;
    }
  }

  /** What projecting and digesting records comes to. */
  function Scanned(hash: HashStep, seed: Digest, records: seq<Record>, head: nat): Result<ScanResult, ScanFault> {
    match Project(records)
    case Err(fault) => Err(Unprojectable(fault))
    case Ok(p) =>
      match ChainOver(hash, Chain(seed, 0), records)
      case None => Err(Undigestable)
      case Some(chain) => Ok(ScanResult(p.units, chain, head))
  }

  /** Whatever the store, a scan projects and digests exactly the records of pages at one pinned head;
      against a store that slices one log these are the records after `after`. */
  method Scan(read: Reader, limit: nat, hash: HashStep, seed: Digest, after: nat, ghost bound: nat,
              ghost log: seq<Record>)
    returns (r: Result<ScanResult, ScanFault>, ghost pages: seq<Page>)
    requires Advancing(read, limit, bound)
    ensures r.Ok? ==> AllAt(pages, r.value.head) && r == Scanned(hash, seed, Joined(pages), r.value.head)
    ensures Serves(read, log, limit) && r.Ok? ==> r == Scanned(hash, seed, Rest(log, after), |log|)
    ensures Serves(read, log, limit) && after <= |log| ==> r == Scanned(hash, seed, Rest(log, after), |log|)
  {
    var found;
    found, pages := ReadAfter(read, limit, after, bound, log);
    if found.Err? {
      return Err(found.error), pages;
    }
    var records, head := found.value.0, found.value.1;
    var units := Loop.ProjectSourceEvents(records);
    if units.Err? {
      return Err(Unprojectable(units.error)), pages;
    }
    var chain := ExtendSourceDigestOverRecords(hash, seed, records);
    if chain.None? {
      return Err(Undigestable), pages;
    }
    r := Ok(ScanResult(units.value, chain.value, head));
  }
}
