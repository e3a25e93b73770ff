/**
 Cursor pages over the provider events of a mission log, ordered by time and log position
 (app/services/provider_resolution_history.py:287-407).
 */
module HistoryPages {
  import opened Wrappers
  import opened Sorting
  import opened EventPayloads

  /** What the provider history shows of an event besides its place. */
  datatype Content = Content(kind: PayloadKind, payload: Payload)

  /** A log event; only provider events have a content that is shown. */
  datatype LogEvent = LogEvent(sequence: nat, timestamp: int, content: Option<Content>) {
    predicate IsProvider() {
      content.Some?
    }
  }

  type Log = seq<LogEvent>

  /** `(event.timestamp, event_index)` with the event. */
  type Row = Keyed<LogEvent>

  datatype Cursor = Cursor(missionId: nat, occurredAt: int, eventIndex: int)

  predicate Follows(x: Row, cursor: Option<Cursor>) {
    cursor.None? || x.major > cursor.value.occurredAt || (x.major == cursor.value.occurredAt && x.minor > cursor.value.eventIndex)
  }

  /** The provider events of the first `n` log entries, each with its position. */
  function ProviderRows(log: Log, n: nat): seq<Row>
    requires n <= |log|
  {
    if n == 0 then []
    else if log[n - 1].IsProvider() then ProviderRows(log, n - 1) + [Keyed(log[n - 1].timestamp, n - 1, log[n - 1])]
    else ProviderRows(log, n - 1)
  }

  function Rows(log: Log): seq<Row> {
    ProviderRows(log, |log|)
  }

  function Ordered(log: Log): seq<Row> {
    StableSort(Rows(log))
  }

  function After(rows: seq<Row>, cursor: Option<Cursor>): seq<Row> {
    if rows == [] then []
    else if Follows(rows[0], cursor) then [rows[0]] + After(rows[1..], cursor)
    else After(rows[1..], cursor)
  }

  datatype Page = Page(items: seq<Row>, hasMore: bool, next: Option<Cursor>)

  datatype HistoryError = ForeignCursor

  function Take<T>(s: seq<T>, n: nat): (r: seq<T>)
  {
    if |s| <= n then s else s[..n]
  }

  /** The page made of what follows the cursor. */
  function PageFrom(missionId: nat, rest: seq<Row>, limit: nat): Page
    requires limit >= 1
  {
    var items := Take(rest, limit);
    if |rest| > limit then
      Page(items, true, Some(Cursor(missionId, items[|items| - 1].major, items[|items| - 1].minor)))
    else Page(items, false, None)
  }

  /** `GetMissionProviderResolutionHistory.execute` on the canonical log. */
  function ReadPage(missionId: nat, log: Log, cursor: Option<Cursor>, limit: nat): (r: Result<Page, HistoryError>)
    requires limit >= 1
    ensures r == Failure(ForeignCursor) <==> cursor.Some? && cursor.value.missionId != missionId
    ensures r.Success? && r.value.next.Some? ==> r.value.next.value.missionId == missionId
  {
    if cursor.Some? && cursor.value.missionId != missionId then Failure(ForeignCursor)
    else Success(PageFrom(missionId, After(Ordered(log), cursor), limit))
  }

  // ------------------------------------------------------------- rows of a log

  function RowAt(log: Log, i: nat): Row
    requires i < |log|
  {
    Keyed(log[i].timestamp, i, log[i])
  }

  ghost predicate IsRowOf(x: Row, log: Log) {
    0 <= x.minor < |log| && log[x.minor].IsProvider() && x == RowAt(log, x.minor)
  }

  lemma {:induction false} RowsAre(log: Log, n: nat, x: Row)
    requires n <= |log|
    ensures x in ProviderRows(log, n) <==> IsRowOf(x, log) && x.minor < n
  {
    if n > 0 {
      RowsAre(log, n - 1, x);
    }
  }

  lemma OrderedRows(log: Log, x: Row)
    ensures x in Ordered(log) <==> IsRowOf(x, log)
  {
    SortHasSameItems(Rows(log), x);
    RowsAre(log, |log|, x);
  }

  /** No two rows have the same place, whatever their timestamps. */
  ghost predicate Strict(rows: seq<Row>) {
    forall i, j :: 0 <= i < j < |rows| ==> StrictlyBefore(rows[i], rows[j])
  }

  ghost predicate DistinctPlaces(rows: seq<Row>) {
    forall i, j :: 0 <= i < j < |rows| ==> rows[i].minor != rows[j].minor
  }

  lemma {:induction false} RowsDistinct(log: Log, n: nat)
    requires n <= |log|
    ensures DistinctPlaces(ProviderRows(log, n))
  {
    if n > 0 {
      RowsDistinct(log, n - 1);
      var earlier := ProviderRows(log, n - 1);
      forall k | 0 <= k < |earlier|
        ensures earlier[k].minor < n - 1
      {
        RowsAre(log, n - 1, earlier[k]);
      }
    }
  }

  /** A sorted arrangement of rows with distinct places is strictly ordered. */
  lemma SortedIsStrict(rows: seq<Row>)
    requires DistinctPlaces(rows)
    ensures Strict(StableSort(rows))
  {
    var s := StableSort(rows);
    SortIsSorted(rows);
    forall i, j | 0 <= i < j < |s|
      ensures StrictlyBefore(s[i], s[j])
    {
      assert NotAfter(s[i], s[j]);
      if s[i].minor == s[j].minor {
        SamePlaceTwice(rows, s, i, j);
      }
    }
  }

  lemma SamePlaceTwice(rows: seq<Row>, s: seq<Row>, i: nat, j: nat)
    requires DistinctPlaces(rows) && multiset(s) == multiset(rows) && i < j < |s|
    ensures s[i].minor != s[j].minor
  {
    if s[i].minor == s[j].minor {
      assert s[i] in multiset(rows) && s[j] in multiset(rows);
      assert s[i] == s[j];
      assert s == s[..i] + [s[i]] + s[i + 1..j] + [s[j]] + s[j + 1..];
      assert multiset(s)[s[i]] >= 2;
      OnlyOnce(rows, s[i]);
      assert false;
    }
  }

  lemma {:induction false} OnlyOnce(rows: seq<Row>, x: Row)
    requires DistinctPlaces(rows)
    ensures multiset(rows)[x] <= 1
  {
    if rows != [] {
      assert rows == [rows[0]] + rows[1..];
      OnlyOnce(rows[1..], x);
      if rows[0] == x {
        assert x !in rows[1..];
      }
    }
  }

  lemma OrderedIsStrict(log: Log)
    ensures Strict(Ordered(log))
  {
    RowsDistinct(log, |log|);
    SortedIsStrict(Rows(log));
  }

  // --------------------------------------------------------------- one page

  /** In a strictly ordered list the cursor cuts a suffix off. */
  lemma {:induction false} AfterIsSuffix(rows: seq<Row>, cursor: Option<Cursor>) returns (k: nat)
    requires Strict(rows)
    ensures k <= |rows| && After(rows, cursor) == rows[k..]
    ensures forall i :: 0 <= i < |rows| ==> (Follows(rows[i], cursor) <==> i >= k)
  {
    if rows == [] {
      k := 0;
    } else if Follows(rows[0], cursor) {
      var rest := rows[1..];
      var m := AfterIsSuffix(rest, cursor);
      forall i | 0 <= i < |rest|
        ensures Follows(rest[i], cursor)
      {
        assert StrictlyBefore(rows[0], rest[i]);
      }
      assert rest[m..] == rest;
      k := 0;
    } else {
      var m := AfterIsSuffix(rows[1..], cursor);
      k := m + 1;
    }
  }

  lemma PageFromShows(missionId: nat, rest: seq<Row>, limit: nat)
    requires limit >= 1 && Strict(rest)
    ensures var p := PageFrom(missionId, rest, limit);
            && Strict(p.items) && |p.items| <= limit
            && (forall x :: x in p.items ==> x in rest)
            && (forall x :: x in rest && x !in p.items ==> p.hasMore && Follows(x, p.next))
  {
    var p := PageFrom(missionId, rest, limit);
    forall x | x in rest && x !in p.items
      ensures p.hasMore && Follows(x, p.next)
    {
      var i :| 0 <= i < |rest| && rest[i] == x;
      assert forall k :: 0 <= k < |p.items| ==> rest[k] == p.items[k] && p.items[k] in p.items;
      assert StrictlyBefore(rest[|p.items| - 1], rest[i]);
    }
  }

  /** The rows behind the cursor, in order. */
  lemma RestIs(log: Log, cursor: Option<Cursor>)
    ensures Strict(After(Ordered(log), cursor))
    ensures forall x :: x in After(Ordered(log), cursor) <==> IsRowOf(x, log) && Follows(x, cursor)
  {
    hide StableSort, IsRowOf;
    var rows := Ordered(log);
    OrderedIsStrict(log);
    var k := AfterIsSuffix(rows, cursor);
    forall x
      ensures x in rows[k..] <==> IsRowOf(x, log) && Follows(x, cursor)
    {
      OrderedRows(log, x);
      assert x in rows <==> exists i :: 0 <= i < |rows| && rows[i] == x;
      assert forall i :: k <= i < |rows| ==> rows[i] == rows[k..][i - k];
    }
  }

  /**
   A page shows, in strict order, rows that follow the cursor; a row that follows it and is not shown follows
   the next cursor, and there is a next cursor exactly when something was left out.
   */
  lemma PageShows(missionId: nat, log: Log, cursor: Option<Cursor>, limit: nat, p: Page)
    requires limit >= 1 && ReadPage(missionId, log, cursor, limit) == Success(p)
    ensures Strict(p.items) && |p.items| <= limit
    ensures forall x :: x in p.items ==> IsRowOf(x, log) && Follows(x, cursor)
    ensures forall x :: IsRowOf(x, log) && Follows(x, cursor) && x !in p.items ==> p.hasMore && Follows(x, p.next)
    ensures p.hasMore <==> p.next.Some?
    ensures p.hasMore ==>
              && |p.items| == limit && p.next.value.missionId == missionId
              && p.next.value.occurredAt == p.items[limit - 1].major && p.next.value.eventIndex == p.items[limit - 1].minor
  {
    hide Ordered, After, IsRowOf, Strict;
    RestIs(log, cursor);
    PageFromShows(missionId, After(Ordered(log), cursor), limit);
  }

  // ----------------------------------------------------- walking a growing log

  /** Pages read one after the other by following `next_cursor`, while the log is appended to in between. */
  ghost predicate IsWalk(missionId: nat, logs: seq<Log>, limits: seq<nat>, pages: seq<Page>) {
    && |logs| == |pages| == |limits|
    && (forall i :: 0 < i < |logs| ==> logs[i - 1] <= logs[i])
    && (forall i :: 0 <= i < |pages| ==> ReadsAt(missionId, logs, limits, pages, i))
    && (forall i :: 0 <= i < |pages| - 1 ==> pages[i].hasMore)
  }

  /** The `i`-th page is read from the log of its time with the cursor of the page before it. */
  ghost predicate ReadsAt(missionId: nat, logs: seq<Log>, limits: seq<nat>, pages: seq<Page>, i: nat)
    requires i < |pages| && |logs| == |pages| == |limits|
  {
    limits[i] >= 1 && ReadPage(missionId, logs[i], CursorOf(pages, i), limits[i]) == Success(pages[i])
  }

  lemma WalkAt(missionId: nat, logs: seq<Log>, limits: seq<nat>, pages: seq<Page>, i: nat)
    requires IsWalk(missionId, logs, limits, pages) && i < |pages|
    ensures |logs| == |pages| == |limits| && limits[i] >= 1
    ensures ReadPage(missionId, logs[i], CursorOf(pages, i), limits[i]) == Success(pages[i])
    ensures i > 0 ==> logs[i - 1] <= logs[i] && pages[i - 1].hasMore && CursorOf(pages, i) == pages[i - 1].next
  {
    hide ReadPage;
    assert ReadsAt(missionId, logs, limits, pages, i);
  }

  /** The cursor the `i`-th page is read with. */
  function CursorOf(pages: seq<Page>, i: nat): Option<Cursor>
    requires i <= |pages|
  {
    if i == 0 then None else pages[i - 1].next
  }

  lemma {:induction false} LogsGrow(missionId: nat, logs: seq<Log>, limits: seq<nat>, pages: seq<Page>, i: nat)
    requires IsWalk(missionId, logs, limits, pages) && i < |pages|
    ensures logs[0] <= logs[i]
  {
    hide IsWalk, ReadPage;
    WalkAt(missionId, logs, limits, pages, i);
    if i > 0 {
      LogsGrow(missionId, logs, limits, pages, i - 1);
    }
  }

  lemma GrownRow(before: Log, after: Log, x: Row)
    requires before <= after && IsRowOf(x, before)
    ensures IsRowOf(x, after)
  {
  }

  lemma LastIsLast(items: seq<Row>, x: Row)
    requires Strict(items) && x in items
    ensures x == items[|items| - 1] || StrictlyBefore(x, items[|items| - 1])
  {
  }

  /** Everything shown later comes strictly after everything shown earlier. */
  lemma {:induction false} LaterPagesFollow(missionId: nat, logs: seq<Log>, limits: seq<nat>, pages: seq<Page>, i: nat, j: nat, x: Row, y: Row)
    requires IsWalk(missionId, logs, limits, pages) && i < j < |pages| && x in pages[i].items && y in pages[j].items
    ensures StrictlyBefore(x, y)
    decreases j
  {
    hide ReadPage, IsRowOf, IsWalk, CursorOf;
    WalkAt(missionId, logs, limits, pages, j);
    WalkAt(missionId, logs, limits, pages, j - 1);
    PageShows(missionId, logs[j], CursorOf(pages, j), limits[j], pages[j]);
    PageShows(missionId, logs[j - 1], CursorOf(pages, j - 1), limits[j - 1], pages[j - 1]);
    var last := pages[j - 1].items[limits[j - 1] - 1];
    assert StrictlyBefore(last, y);
    if i < j - 1 {
      LaterPagesFollow(missionId, logs, limits, pages, i, j - 1, x, last);
    } else {
      LastIsLast(pages[i].items, x);
    }
  }

  lemma FirstCursor(pages: seq<Page>)
    ensures CursorOf(pages, 0).None?
    ensures forall x :: Follows(x, None)
  {
  }

  /** A row of the first log that no page up to the `i`-th showed still lies ahead of the cursor. */
  lemma {:induction false} StillAhead(missionId: nat, logs: seq<Log>, limits: seq<nat>, pages: seq<Page>, i: nat, x: Row)
    requires IsWalk(missionId, logs, limits, pages) && i < |pages| && IsRowOf(x, logs[0])
    requires forall k :: 0 <= k <= i ==> x !in pages[k].items
    ensures pages[i].hasMore && Follows(x, pages[i].next)
  {
    hide ReadPage, IsRowOf, IsWalk, CursorOf;
    WalkAt(missionId, logs, limits, pages, i);
    if i > 0 {
      StillAhead(missionId, logs, limits, pages, i - 1, x);
    } else {
      FirstCursor(pages);
    }
    LogsGrow(missionId, logs, limits, pages, i);
    GrownRow(logs[0], logs[i], x);
    PageShows(missionId, logs[i], CursorOf(pages, i), limits[i], pages[i]);
  }

  /**
   Walking to the final page while the log grows: every provider event of the initial log is shown on exactly one
   page, and no event is shown twice, with whatever timestamps.
   */
  lemma WalkIsExactlyOnce(missionId: nat, logs: seq<Log>, limits: seq<nat>, pages: seq<Page>)
    requires IsWalk(missionId, logs, limits, pages) && pages != [] && !pages[|pages| - 1].hasMore
    ensures forall x :: IsRowOf(x, logs[0]) ==> exists i :: 0 <= i < |pages| && x in pages[i].items
    ensures forall i, j :: 0 <= i < j < |pages| ==> forall x :: x in pages[i].items ==> x !in pages[j].items
    ensures forall i :: 0 <= i < |pages| ==> Strict(pages[i].items)
  {
    hide ReadPage, IsRowOf, IsWalk, CursorOf, Strict;
    WalkAt(missionId, logs, limits, pages, 0);
    forall x | IsRowOf(x, logs[0])
      ensures exists i :: 0 <= i < |pages| && x in pages[i].items
    {
      if forall i :: 0 <= i < |pages| ==> x !in pages[i].items {
        StillAhead(missionId, logs, limits, pages, |pages| - 1, x);
      }
    }
    forall i, j | 0 <= i < j < |pages|
      ensures forall x :: x in pages[i].items ==> x !in pages[j].items
    {
      forall x | x in pages[i].items && x in pages[j].items
        ensures false
      {
        LaterPagesFollow(missionId, logs, limits, pages, i, j, x, x);
      }
    }
    forall i | 0 <= i < |pages|
      ensures Strict(pages[i].items)
    {
      WalkAt(missionId, logs, limits, pages, i);
      PageShows(missionId, logs[i], CursorOf(pages, i), limits[i], pages[i]);
    }
  }

  // -------------------------------------------------------- walking a fixed log

  function Shown(pages: seq<Page>): seq<Row> {
    if pages == [] then [] else Shown(pages[..|pages| - 1]) + pages[|pages| - 1].items
  }

  /** On a fixed log the first pages show a prefix of the sorted provider events, and the next cursor points at its end. */
  lemma {:induction false} FixedPrefix(missionId: nat, log: Log, limits: seq<nat>, pages: seq<Page>, logs: seq<Log>)
    requires IsWalk(missionId, logs, limits, pages) && pages != [] && forall i :: 0 <= i < |logs| ==> logs[i] == log
    ensures |Shown(pages)| <= |Ordered(log)| && Shown(pages) == Ordered(log)[..|Shown(pages)|]
    ensures |Shown(pages)| >= |pages| - 1
    ensures pages[|pages| - 1].hasMore <==> |Shown(pages)| < |Ordered(log)|
    ensures pages[|pages| - 1].hasMore ==>
              && |Shown(pages)| >= |pages|
              && pages[|pages| - 1].next == Some(CursorAtRow(missionId, Ordered(log)[|Shown(pages)| - 1]))
    decreases |pages|
  {
    hide Ordered, IsWalk, PageFrom;
    var n := |pages| - 1;
    WalkShape(missionId, limits, pages, logs);
    if n == 0 {
      FirstPage(missionId, log, limits, pages, logs);
      NextPage(missionId, Ordered(log), 0, limits[0], pages[0]);
    } else {
      var earlier := pages[..n];
      WalkPrefix(missionId, limits, pages, logs, n);
      FixedPrefix(missionId, log, limits[..n], earlier, logs[..n]);
      LastPage(missionId, log, limits, pages, logs, |Shown(earlier)|);
      NextPage(missionId, Ordered(log), |Shown(earlier)|, limits[n], pages[n]);
    }
  }

  lemma WalkShape(missionId: nat, limits: seq<nat>, pages: seq<Page>, logs: seq<Log>)
    requires IsWalk(missionId, logs, limits, pages)
    ensures |logs| == |pages| == |limits|
  {
    hide ReadPage;
  }

  lemma WalkPrefix(missionId: nat, limits: seq<nat>, pages: seq<Page>, logs: seq<Log>, n: nat)
    requires IsWalk(missionId, logs, limits, pages) && 0 < n < |pages|
    ensures IsWalk(missionId, logs[..n], limits[..n], pages[..n]) && pages[n - 1].hasMore
  {
    hide ReadPage;
    forall i | 0 <= i < n
      ensures ReadsAt(missionId, logs[..n], limits[..n], pages[..n], i)
    {
      assert ReadsAt(missionId, logs, limits, pages, i);
      assert CursorOf(pages[..n], i) == CursorOf(pages, i);
    }
  }

  lemma FirstPage(missionId: nat, log: Log, limits: seq<nat>, pages: seq<Page>, logs: seq<Log>)
    requires IsWalk(missionId, logs, limits, pages) && pages != [] && logs[0] == log
    ensures limits[0] >= 1 && pages[0] == PageFrom(missionId, Ordered(log)[0..], limits[0])
  {
    hide Ordered, PageFrom;
    SuffixAfter(missionId, log, 0, None);
    assert ReadsAt(missionId, logs, limits, pages, 0);
  }

  lemma LastPage(missionId: nat, log: Log, limits: seq<nat>, pages: seq<Page>, logs: seq<Log>, done: nat)
    requires IsWalk(missionId, logs, limits, pages) && |pages| >= 2 && logs[|pages| - 1] == log
    requires 0 < done <= |Ordered(log)| && pages[|pages| - 2].next == Some(CursorAtRow(missionId, Ordered(log)[done - 1]))
    ensures var n := |pages| - 1; limits[n] >= 1 && pages[n] == PageFrom(missionId, Ordered(log)[done..], limits[n])
  {
    hide Ordered, PageFrom;
    var n := |pages| - 1;
    assert ReadsAt(missionId, logs, limits, pages, n);
    SuffixAfter(missionId, log, done, CursorOf(pages, n));
  }

  /** A page continues the rows shown so far; more is to come exactly when rows are left. */
  lemma NextPage(missionId: nat, rows: seq<Row>, done: nat, limit: nat, p: Page)
    requires limit >= 1 && done <= |rows| && p == PageFrom(missionId, rows[done..], limit)
    ensures done + |p.items| <= |rows| && rows[..done] + p.items == rows[..done + |p.items|]
    ensures p.hasMore <==> done + |p.items| < |rows|
    ensures p.hasMore ==> |p.items| >= 1 && p.next == Some(CursorAtRow(missionId, rows[done + |p.items| - 1]))
  {
  }

  function CursorAtRow(missionId: nat, x: Row): Cursor {
    Cursor(missionId, x.major, x.minor)
  }

  /** Where the last row before position `done` points. */
  function CursorTo(missionId: nat, rows: seq<Row>, done: nat): Option<Cursor>
    requires done <= |rows|
  {
    if done == 0 then None else Some(CursorAtRow(missionId, rows[done - 1]))
  }

  /** Following the cursor of the row before position `done` continues at `done`. */
  lemma StrictSuffix(missionId: nat, rows: seq<Row>, done: nat)
    requires Strict(rows) && done <= |rows|
    ensures After(rows, CursorTo(missionId, rows, done)) == rows[done..]
  {
    var cursor := CursorTo(missionId, rows, done);
    var k := AfterIsSuffix(rows, cursor);
    forall i | 0 <= i < |rows|
      ensures Follows(rows[i], cursor) <==> i >= done
    {
      assert i < done - 1 ==> StrictlyBefore(rows[i], rows[done - 1]);
      assert i > done - 1 && done > 0 ==> StrictlyBefore(rows[done - 1], rows[i]);
    }
    assert k < |rows| ==> Follows(rows[k], cursor);
    assert done < |rows| ==> Follows(rows[done], cursor);
  }

  lemma SuffixAfter(missionId: nat, log: Log, done: nat, cursor: Option<Cursor>)
    requires done <= |Ordered(log)|
    requires cursor == CursorTo(missionId, Ordered(log), done)
    ensures After(Ordered(log), cursor) == Ordered(log)[done..]
  {
    hide StableSort;
    OrderedIsStrict(log);
    StrictSuffix(missionId, Ordered(log), done);
  }

  /** On a fixed log the concatenated pages are the sorted provider events, and at most one page per event plus one is read. */
  lemma FixedWalk(missionId: nat, log: Log, limits: seq<nat>, pages: seq<Page>, logs: seq<Log>)
    requires IsWalk(missionId, logs, limits, pages) && pages != [] && forall i :: 0 <= i < |logs| ==> logs[i] == log
    ensures |pages| <= |Ordered(log)| + 1
    ensures !pages[|pages| - 1].hasMore <==> Shown(pages) == Ordered(log)
  {
    FixedPrefix(missionId, log, limits, pages, logs);
  }
}
