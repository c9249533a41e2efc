/** Paging through the audit journal, newest entry first, in bounded scans. */
module JournalPaging {
  import opened Text
  import Seqs

  /** A ledger entry. Ids are ordered as the ledger's own ids are; an entry that cannot be
      decoded has no record. */
  datatype Entry = Entry(id: nat, record: Option<Record>)

  datatype Record = Record(attempt: bool, requestID: string, status: string)

  /** Entries in the order they were appended, with growing ids. */
  ghost predicate Ledger(log: seq<Entry>) {
    forall i, j :: 0 <= i < j < |log| ==> log[i].id < log[j].id
  }

  /** Is the entry below the cursor? No cursor means the whole ledger. */
  predicate Under(e: Entry, cursor: Option<nat>) { cursor.None? || e.id < cursor.value }

  /** The entries below a cursor, newest first. */
  function Newest(log: seq<Entry>, cursor: Option<nat>): (r: seq<Entry>)
    ensures |r| <= |log|
  {
    if log == [] then []
    else
      var last, rest := log[|log| - 1], log[..|log| - 1];
      if Under(last, cursor) then [last] + Newest(rest, cursor) else Newest(rest, cursor)
  }

  /** A reverse range read: the newest `n` entries below a cursor. */
  function RevRange(log: seq<Entry>, cursor: Option<nat>, n: nat): seq<Entry> {
    var rows := Newest(log, cursor);
    if n < |rows| then rows[..n] else rows
  }

  /** Is the entry a row of the list? Upstream attempts are shown with their request. */
  predicate Row(e: Entry, matches: Record -> bool) {
    e.record.Some? && !e.record.value.attempt && matches(e.record.value)
  }

  function Rows(entries: seq<Entry>, matches: Record -> bool): seq<Entry> {
    if entries == [] then []
    else Rows(entries[..|entries| - 1], matches) + if Row(entries[|entries| - 1], matches) then [entries[|entries| - 1]] else []
  }

  /** The page size a query asks for, when it asks for a number. */
  function PageLimit(asked: Option<int>): (limit: nat)
    ensures 1 <= limit <= 500
  {
    if asked.None? then 100
    else if asked.value < 1 then 1
    else if asked.value > 500 then 500
    else asked.value
  }

  // ---- one page ----

  /** A page is right if its rows, and the rows below its cursor, are the rows there are. */
  ghost predicate PageRight(rows: seq<Entry>, matches: Record -> bool, shown: seq<Entry>, read: nat) {
    read <= |rows| && shown == Rows(rows[..read], matches)
  }

  /** A page is as long as it can be: it ends with its last row when it is full, and with
      the scan when it is not. A page that is not full has a cursor exactly if the scan was
      used up. */
  ghost predicate PageFull(scan: seq<Entry>, limit: nat, scanCap: nat, records: seq<Entry>, read: nat, cursor: Option<nat>) {
    && |records| <= limit
    && (|records| == limit ==> cursor.Some? && records != [] && cursor.value == records[|records| - 1].id)
    && (|records| < limit ==> read == |scan| && (cursor.Some? <==> |scan| == scanCap))
  }

  /** Reads one page of a scan. `read` entries of the scan are done with. */
  method ReadPage(entries: seq<Entry>, limit: nat, scanCap: nat, matches: Record -> bool)
    returns (records: seq<Entry>, cursor: Option<nat>, ghost read: nat)
    requires 0 < limit && |entries| <= scanCap && 0 < scanCap
    ensures records == FirstOf(Rows(entries, matches), limit)
    ensures cursor == if |records| == limit then Some(records[limit - 1].id)
      else if |entries| == scanCap then Some(entries[|entries| - 1].id) else None
    ensures PageFull(entries, limit, scanCap, records, read, cursor)
    ensures PageRight(entries, matches, records, read)
    ensures cursor.Some? ==> read > 0 && cursor.value == entries[read - 1].id
    ensures cursor.None? ==> read == |entries| < scanCap
  {
    records := [];
    var k := 0;
    while k < |entries| && |records| < limit
      invariant 0 <= k <= |entries| && |records| <= limit
      invariant records == Rows(entries[..k], matches)
      invariant |records| == limit ==> k > 0 && records[|records| - 1] == entries[k - 1]
    {
      assert entries[..k + 1][..k] == entries[..k];
      if Row(entries[k], matches) {
        records := records + [entries[k]];
      }
      k := k + 1;
    }
    if |records| >= limit {
      cursor, read := Some(records[|records| - 1].id), k;
    } else if |entries| >= scanCap && |entries| > 0 {
      cursor, read := Some(entries[|entries| - 1].id), |entries|;
    } else {
      cursor, read := None, |entries|;
    }
    FirstRows(entries, limit, scanCap, matches, records, read, cursor);
  }

  // ---- the ledger below a cursor ----

  lemma {:induction false} NewestOrdered(log: seq<Entry>, cursor: Option<nat>)
    requires Ledger(log)
    ensures forall i, j :: 0 <= i < j < |Newest(log, cursor)| ==> Newest(log, cursor)[i].id > Newest(log, cursor)[j].id
    ensures forall e :: e in Newest(log, cursor) <==> e in log && Under(e, cursor)
  {
    if log != [] {
      var last, rest := log[|log| - 1], log[..|log| - 1];
      NewestOrdered(rest, cursor);
      assert log == rest + [last];
      forall e | e in Newest(rest, cursor)
        ensures e.id < last.id
      {
        assert e in rest;
      }
    }
  }

  /** Newer entries above the cursor do not show below it. */
  lemma {:induction false} GrowthAbove(log: seq<Entry>, longer: seq<Entry>, c: nat)
    requires Ledger(longer) && log <= longer && (forall i :: |log| <= i < |longer| ==> longer[i].id >= c)
    ensures Newest(longer, Some(c)) == Newest(log, Some(c))
    decreases |longer|
  {
    if |log| < |longer| {
      GrowthAbove(log, longer[..|longer| - 1], c);
    } else {
      assert log == longer;
    }
  }

  lemma {:induction false} NewestIn(log: seq<Entry>, cursor: Option<nat>, k: nat)
    requires k < |Newest(log, cursor)|
    ensures Newest(log, cursor)[k] in log
  {
    var last, rest := log[|log| - 1], log[..|log| - 1];
    if !Under(last, cursor) {
      NewestIn(rest, cursor, k);
    } else if k > 0 {
      NewestIn(rest, cursor, k - 1);
    }
  }

  lemma LastIsNewest(log: seq<Entry>, e: Entry)
    requires Ledger(log) && log != [] && e in log[..|log| - 1]
    ensures e.id < log[|log| - 1].id
  {
  }

  /** Below an entry of the list is what comes after it in the list. */
  lemma {:induction false} BelowEntry(log: seq<Entry>, cursor: Option<nat>, k: nat)
    requires Ledger(log) && k < |Newest(log, cursor)|
    ensures Newest(log, Some(Newest(log, cursor)[k].id)) == Newest(log, cursor)[k + 1..]
  {
    var last, rest := log[|log| - 1], log[..|log| - 1];
    var below := Newest(rest, cursor);
    if !Under(last, cursor) {
      BelowEntry(rest, cursor, k);
      NewestIn(rest, cursor, k);
      LastIsNewest(log, below[k]);
    } else if k > 0 {
      BelowEntry(rest, cursor, k - 1);
      NewestIn(rest, cursor, k - 1);
      LastIsNewest(log, below[k - 1]);
      assert ([last] + below)[k + 1..] == below[k..];
    } else {
      AllUnder(rest, cursor, last.id);
      assert ([last] + below)[1..] == below;
    }
  }

  /** A cursor above everything selects everything. */
  lemma {:induction false} AllUnder(log: seq<Entry>, cursor: Option<nat>, c: nat)
    requires Ledger(log) && (forall e :: e in log ==> e.id < c && Under(e, cursor))
    ensures Newest(log, Some(c)) == Newest(log, cursor)
  {
    if log != [] {
      AllUnder(log[..|log| - 1], cursor, c);
      assert log[|log| - 1] in log;
    }
  }

  lemma {:induction false} RowsSplit(a: seq<Entry>, b: seq<Entry>, matches: Record -> bool)
    ensures Rows(a + b, matches) == Rows(a, matches) + Rows(b, matches)
  {
    if b == [] {
      assert a + b == a;
    } else {
      var most, last := b[..|b| - 1], b[|b| - 1];
      RowsSplit(a, most, matches);
      assert (a + b)[..|a + b| - 1] == a + most;
      Seqs.Assoc(Rows(a, matches), Rows(most, matches), if Row(last, matches) then [last] else []);
    }
  }

  // ---- following the cursor ----

  /** The ledger as it stands at each page: it only grows at its new end. */
  ghost predicate Growing(ledgers: nat -> seq<Entry>) {
    && (forall n: nat :: Ledger(ledgers(n)))
    && (forall n: nat :: ledgers(n) <= ledgers(n + 1))
  }

  lemma {:induction false} GrownFrom(ledgers: nat -> seq<Entry>, n: nat)
    requires Growing(ledgers)
    ensures ledgers(0) <= ledgers(n)
  {
    if n > 0 { GrownFrom(ledgers, n - 1); }
  }

  /** A cursor that the first page or a later one gave out: everything that was appended
      after the first page is above it. */
  ghost predicate Settled(first: seq<Entry>, cursor: Option<nat>) {
    cursor.Some? && exists e :: e in first && e.id == cursor.value
  }

  lemma SeenTheSame(ledgers: nat -> seq<Entry>, n: nat, cursor: Option<nat>)
    requires Growing(ledgers) && (n == 0 || Settled(ledgers(0), cursor))
    ensures Newest(ledgers(n), cursor) == Newest(ledgers(0), cursor)
  {
    if n > 0 {
      GrownFrom(ledgers, n);
      var log, longer := ledgers(0), ledgers(n);
      var e :| e in log && e.id == cursor.value;
      var i :| 0 <= i < |log| && log[i] == e;
      assert longer[i] == e;
      assert Ledger(longer);
      GrowthAbove(log, longer, cursor.value);
    }
  }

  lemma PageMoves(log: seq<Entry>, cursor: Option<nat>, n: nat, read: nat)
    requires Ledger(log) && 0 < read <= |RevRange(log, cursor, n)|
    ensures read <= |Newest(log, cursor)| && RevRange(log, cursor, n)[..read] == Newest(log, cursor)[..read]
    ensures RevRange(log, cursor, n)[read - 1] == Newest(log, cursor)[read - 1] && Newest(log, cursor)[read - 1] in log
    ensures Newest(log, Some(Newest(log, cursor)[read - 1].id)) == Newest(log, cursor)[read..]
  {
    BelowEntry(log, cursor, read - 1);
    NewestIn(log, cursor, read - 1);
  }

  /** What one page lists and what is below its cursor are the rows that were left. */
  lemma PageStep(log: seq<Entry>, cursor: Option<nat>, scanCap: nat, matches: Record -> bool, records: seq<Entry>, next: Option<nat>, read: nat)
    requires Ledger(log) && PageRight(RevRange(log, cursor, scanCap), matches, records, read)
    requires next.Some? ==> read > 0 && next.value == RevRange(log, cursor, scanCap)[read - 1].id
    requires next.None? ==> read == |RevRange(log, cursor, scanCap)| < scanCap
    ensures Rows(Newest(log, cursor), matches) == records + if next.Some? then Rows(Newest(log, next), matches) else []
    ensures next.Some? ==> Settled(log, next) && |Newest(log, next)| < |Newest(log, cursor)|
  {
    var rows := Newest(log, cursor);
    if next.Some? {
      PageMoves(log, cursor, scanCap, read);
      RowsCut(rows, read, matches);
    } else {
      assert rows[..read] == rows && records + [] == records;
    }
  }

  lemma RowsCut(rows: seq<Entry>, read: nat, matches: Record -> bool)
    requires read <= |rows|
    ensures Rows(rows, matches) == Rows(rows[..read], matches) + Rows(rows[read..], matches)
  {
    RowsSplit(rows[..read], rows[read..], matches);
    assert rows == rows[..read] + rows[read..];
  }

  /** Follows the cursor from the first page until there is none. This ends, and it lists
      exactly the rows the ledger held at the first page, newest first and each once,
      whatever was appended in between. */
  method Walk(ledgers: nat -> seq<Entry>, start: Option<nat>, limit: nat, matches: Record -> bool) returns (all: seq<Entry>)
    requires Growing(ledgers) && 1 <= limit <= 500
    ensures all == Rows(Newest(ledgers(0), start), matches)
  {
    ghost var log := ledgers(0);
    all := [];
    var cursor, page := start, 0;
    while true
      invariant page == 0 || Settled(log, cursor)
      invariant all + Rows(Newest(log, cursor), matches) == Rows(Newest(log, start), matches)
      decreases |Newest(log, cursor)|
    {
      var records, next := NextPage(ledgers, page, cursor, limit, matches);
      Seqs.Assoc(all, records, if next.Some? then Rows(Newest(log, next), matches) else []);
      all := all + records;
      if next.None? {
        assert all + [] == all;
        return;
      }
      cursor, page := next, page + 1;
    }
  }

  /** One page of the walk. It scans the newest `6 * limit` entries below the cursor; of
      these it shows the first `limit` rows, or all if there are fewer. */
  method NextPage(ledgers: nat -> seq<Entry>, page: nat, cursor: Option<nat>, limit: nat, matches: Record -> bool)
    returns (records: seq<Entry>, next: Option<nat>)
    requires Growing(ledgers) && 1 <= limit && (page == 0 || Settled(ledgers(0), cursor))
    ensures records == FirstOf(Rows(RevRange(ledgers(0), cursor, 6 * limit), matches), limit)
    ensures |records| == limit ==> next == Some(records[limit - 1].id)
    ensures |records| < limit ==> (next.Some? <==> |Newest(ledgers(0), cursor)| >= 6 * limit)
    ensures |records| < limit && next.Some? ==> next.value == Newest(ledgers(0), cursor)[6 * limit - 1].id
    ensures Rows(Newest(ledgers(0), cursor), matches) == records + if next.Some? then Rows(Newest(ledgers(0), next), matches) else []
    ensures next.Some? ==> Settled(ledgers(0), next) && |Newest(ledgers(0), next)| < |Newest(ledgers(0), cursor)|
  {
    SeenTheSame(ledgers, page, cursor);
    var scan := RevRange(ledgers(page), cursor, 6 * limit);
    ghost var read;
    records, next, read := ReadPage(scan, limit, 6 * limit, matches);
    PageStep(ledgers(0), cursor, 6 * limit, matches, records, next, read);
    PageShown(Newest(ledgers(0), cursor), limit, matches, scan, records, read, next);
  }

  /** What a page shows of the entries below the cursor. */
  lemma PageShown(below: seq<Entry>, limit: nat, matches: Record -> bool, scan: seq<Entry>, records: seq<Entry>, read: nat, next: Option<nat>)
    requires limit > 0 && scan == (if 6 * limit < |below| then below[..6 * limit] else below)
    requires PageFull(scan, limit, 6 * limit, records, read, next) && PageRight(scan, matches, records, read)
    requires next.Some? ==> read > 0 && next.value == scan[read - 1].id
    ensures records == FirstOf(Rows(scan, matches), limit)
    ensures |records| == limit ==> next == Some(records[limit - 1].id)
    ensures |records| < limit ==> (next.Some? <==> |below| >= 6 * limit)
    ensures |records| < limit && next.Some? ==> next.value == below[6 * limit - 1].id
  {
    FirstRows(scan, limit, 6 * limit, matches, records, read, next);
  }

  function FirstOf(rows: seq<Entry>, n: nat): seq<Entry> { if n <= |rows| then rows[..n] else rows }

  lemma FirstRows(scan: seq<Entry>, limit: nat, scanCap: nat, matches: Record -> bool, records: seq<Entry>, read: nat, cursor: Option<nat>)
    requires PageFull(scan, limit, scanCap, records, read, cursor) && PageRight(scan, matches, records, read)
    ensures records == FirstOf(Rows(scan, matches), limit)
  {
    RowsCut(scan, read, matches);
    if |records| < limit {
      assert scan[..read] == scan;
    }
  }

  /** What is listed is exactly what matches, in order and without repetition. */
  lemma RowsExact(log: seq<Entry>, start: Option<nat>, matches: Record -> bool)
    requires Ledger(log)
    ensures forall e :: e in Rows(Newest(log, start), matches) <==> e in log && Under(e, start) && Row(e, matches)
    ensures forall i, j :: 0 <= i < j < |Rows(Newest(log, start), matches)| ==>
      Rows(Newest(log, start), matches)[i].id > Rows(Newest(log, start), matches)[j].id
  {
    NewestOrdered(log, start);
    RowsOrdered(Newest(log, start), matches);
  }

  lemma {:induction false} RowsOrdered(rows: seq<Entry>, matches: Record -> bool)
    requires forall i, j :: 0 <= i < j < |rows| ==> rows[i].id > rows[j].id
    ensures forall i, j :: 0 <= i < j < |Rows(rows, matches)| ==> Rows(rows, matches)[i].id > Rows(rows, matches)[j].id
    ensures forall e :: e in Rows(rows, matches) <==> e in rows && Row(e, matches)
  {
    if rows != [] {
      var most, last := rows[..|rows| - 1], rows[|rows| - 1];
      RowsOrdered(most, matches);
      assert rows == most + [last];
      forall e | e in Rows(most, matches)
        ensures e.id > last.id
      {
        assert e in most;
      }
    }
  }
}
