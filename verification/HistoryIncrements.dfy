/**
 Reading what is new since a sequence number, and waiting for it
 (app/services/provider_resolution_history.py:409-519, app/services/mission_event_history.py:80-190).
 */
module HistoryIncrements {
  import opened Wrappers
  import opened Sorting
  import opened HistoryPages

  datatype Scope = EveryEvent | ProviderEvents

  predicate InScope(e: LogEvent, scope: Scope) {
    scope == EveryEvent || e.IsProvider()
  }

  /** The events of the scope after a sequence number, in log order. */
  function Since(log: Log, since: nat, scope: Scope): seq<LogEvent> {
    if log == [] then []
    else
      var earlier := Since(log[..|log| - 1], since, scope);
      var e := log[|log| - 1];
      if e.sequence > since && InScope(e, scope) then earlier + [e] else earlier
  }

  datatype Increment = Increment(since: nat, latest: nat, hasMore: bool, items: seq<LogEvent>)

  /** The increment made of the events found: a simple filter-then-take. */
  function IncrementOf(found: seq<LogEvent>, since: nat, limit: nat): Increment
    requires limit >= 1
  {
    var items := Take(found, limit);
    Increment(since, if items == [] then since else items[|items| - 1].sequence, |found| > limit, items)
  }

  lemma {:induction false} SincePrefix(log: Log, n: nat, since: nat, scope: Scope)
    requires n <= |log|
    ensures Since(log[..n], since, scope) <= Since(log, since, scope)
    decreases |log|
  {
    if n == |log| {
      assert log[..n] == log;
    } else {
      assert log[..|log| - 1][..n] == log[..n];
      SincePrefix(log[..|log| - 1], n, since, scope);
    }
  }

  /** The early-exit loop over the log answers no more than it needs and finds what filter-then-take finds. */
  method ReadIncrement(log: Log, since: nat, limit: nat) returns (r: Increment)
    requires limit >= 1
    ensures r == IncrementOf(Since(log, since, ProviderEvents), since, limit)
  {
    var candidates: seq<LogEvent> := [];
    var i := 0;
    while i < |log|
      invariant 0 <= i <= |log|
      invariant candidates == Since(log[..i], since, ProviderEvents) && |candidates| <= limit
    {
      var e := log[i];
      i := i + 1;
      assert log[..i][..i - 1] == log[..i - 1];
      if e.sequence <= since || !e.IsProvider() {
        continue;
      }
      candidates := candidates + [e];
      if |candidates| == limit + 1 {
        break;
      }
    }
    SincePrefix(log, i, since, ProviderEvents);
    assert i == |log| ==> log[..i] == log;
    var items := Take(candidates, limit);
    r := Increment(since, if items == [] then since else items[|items| - 1].sequence, |candidates| > limit, items);
    assert Take(Since(log, since, ProviderEvents), limit) == items;
  }

  // ------------------------------------------- following latest_sequence

  /** A log whose sequence numbers increase, as every accepted log's do. */
  ghost predicate Increasing(log: Log) {
    && (forall i, j :: 0 <= i < j < |log| ==> log[i].sequence < log[j].sequence)
    && (forall i :: 0 <= i < |log| ==> log[i].sequence >= 1)
  }

  lemma {:induction false} SinceMembers(log: Log, since: nat, scope: Scope, e: LogEvent)
    ensures e in Since(log, since, scope) <==> e in log && e.sequence > since && InScope(e, scope)
  {
    if log != [] {
      SinceMembers(log[..|log| - 1], since, scope, e);
      assert log == log[..|log| - 1] + [log[|log| - 1]];
    }
  }

  lemma LastIsLatest(log: Log, e: LogEvent)
    requires Increasing(log) && log != [] && e in log[..|log| - 1]
    ensures e.sequence < log[|log| - 1].sequence
  {
  }

  lemma EarlierIncreases(log: Log)
    requires Increasing(log) && log != []
    ensures Increasing(log[..|log| - 1]) && log[|log| - 1].sequence >= 1
    ensures forall e :: e in log[..|log| - 1] ==> e.sequence <= log[|log| - 1].sequence
  {
  }

  /** Reading on from the sequence of the k-th event of a scope finds exactly the events behind it. */
  lemma {:induction false} SinceCuts(log: Log, since: nat, k: nat, scope: Scope)
    requires Increasing(log) && 0 < k <= |Since(log, since, scope)|
    ensures Since(log, Since(log, since, scope)[k - 1].sequence, scope) == Since(log, since, scope)[k..]
    decreases |log|
  {
    hide Increasing;
    if log != [] {
      var earlier, e := log[..|log| - 1], log[|log| - 1];
      EarlierIncreases(log);
      var before := Since(earlier, since, scope);
      if k <= |before| {
        SinceCuts(earlier, since, k, scope);
        SinceMembers(earlier, since, scope, before[k - 1]);
        LastIsLatest(log, before[k - 1]);
        assert Since(log, since, scope)[k - 1] == before[k - 1];
      } else {
        assert Since(log, since, scope) == before + [e];
        NothingSince(earlier, e.sequence, scope);
      }
    }
  }

  /** The items of an increment are strictly increasing and later than its start, so its own validator accepts it. */
  lemma {:induction false} IncrementIsValid(log: Log, since: nat, limit: nat, scope: Scope)
    requires Increasing(log) && limit >= 1
    ensures var r := IncrementOf(Since(log, since, scope), since, limit);
            && r.latest >= since
            && (forall i, j :: 0 <= i < j < |r.items| ==> r.items[i].sequence < r.items[j].sequence)
            && (forall i :: 0 <= i < |r.items| ==> since < r.items[i].sequence <= r.latest)
            && (r.items == [] ==> r.latest == since && !r.hasMore)
  {
    hide Since, Increasing;
    var found := Since(log, since, scope);
    FoundIncreases(log, since, scope);
    forall i | 0 <= i < |found|
      ensures found[i].sequence > since
    {
      SinceMembers(log, since, scope, found[i]);
    }
  }

  lemma {:induction false} FoundIncreases(log: Log, since: nat, scope: Scope)
    requires Increasing(log)
    ensures forall i, j :: 0 <= i < j < |Since(log, since, scope)| ==>
              Since(log, since, scope)[i].sequence < Since(log, since, scope)[j].sequence
  {
    hide Increasing;
    if log != [] {
      EarlierIncreases(log);
      var before := Since(log[..|log| - 1], since, scope);
      FoundIncreases(log[..|log| - 1], since, scope);
      forall i | 0 <= i < |before|
        ensures before[i].sequence < log[|log| - 1].sequence
      {
        SinceMembers(log[..|log| - 1], since, scope, before[i]);
        LastIsLatest(log, before[i]);
      }
    }
  }

  lemma {:induction false} NothingSince(log: Log, since: nat, scope: Scope)
    requires forall e :: e in log ==> e.sequence <= since
    ensures Since(log, since, scope) == []
  {
    if log != [] {
      assert log[|log| - 1] in log;
      NothingSince(log[..|log| - 1], since, scope);
    }
  }

  /** Increments read one after the other, each from the latest sequence of the one before, while the log grows. */
  ghost predicate IsFollowing(logs: seq<Log>, limits: seq<nat>, answers: seq<Increment>, scope: Scope) {
    && |logs| == |limits| == |answers|
    && (forall i :: 0 <= i < |logs| ==> Increasing(logs[i]))
    && (forall i :: 0 < i < |logs| ==> logs[i - 1] <= logs[i])
    && (forall i :: 0 <= i < |answers| ==> AnswersAt(logs, limits, answers, scope, i))
  }

  /** The `i`-th answer is read from the log of its time, from the latest sequence of the answer before it. */
  ghost predicate AnswersAt(logs: seq<Log>, limits: seq<nat>, answers: seq<Increment>, scope: Scope, i: nat)
    requires i < |answers| && |logs| == |limits| == |answers|
  {
    limits[i] >= 1
    && answers[i] == IncrementOf(Since(logs[i], LatestBefore(answers, i), scope), LatestBefore(answers, i), limits[i])
  }

  function LatestBefore(answers: seq<Increment>, i: nat): nat
    requires i <= |answers|
  {
    if i == 0 then 0 else answers[i - 1].latest
  }

  function ReadSoFar(answers: seq<Increment>): seq<LogEvent> {
    if answers == [] then [] else ReadSoFar(answers[..|answers| - 1]) + answers[|answers| - 1].items
  }

  /**
   What has been read is always exactly a prefix of the scope's events in the log, in order, without gap or repeat;
   an increment with nothing behind it completes that prefix.
   */
  lemma {:induction false} FollowingReadsEverything(logs: seq<Log>, limits: seq<nat>, answers: seq<Increment>, scope: Scope)
    requires IsFollowing(logs, limits, answers, scope) && answers != []
    ensures ReadSoFar(answers) <= Since(logs[|logs| - 1], 0, scope)
    ensures answers[|answers| - 1].latest == LastSequence(ReadSoFar(answers))
    ensures !answers[|answers| - 1].hasMore <==> ReadSoFar(answers) == Since(logs[|logs| - 1], 0, scope)
    decreases |answers|
  {
    hide Since, Increasing, IncrementOf, ReadSoFar, IsFollowing, LatestBefore;
    var n := |answers| - 1;
    LastAnswer(logs, limits, answers, scope);
    ReadOneMore(answers);
    if n == 0 {
      OneMoreRead(logs[0], [], answers[0], limits[0], scope);
    } else {
      FollowingPrefix(logs, limits, answers, scope);
      FollowingReadsEverything(logs[..n], limits[..n], answers[..n], scope);
      GrowsSince(logs[n - 1], logs[n], scope);
      OneMoreRead(logs[n], ReadSoFar(answers[..n]), answers[n], limits[n], scope);
    }
  }

  lemma LastAnswer(logs: seq<Log>, limits: seq<nat>, answers: seq<Increment>, scope: Scope)
    requires IsFollowing(logs, limits, answers, scope) && answers != []
    ensures |logs| == |limits| == |answers|
    ensures var n := |answers| - 1;
            && Increasing(logs[n]) && limits[n] >= 1
            && (n > 0 ==> logs[n - 1] <= logs[n])
            && (var latest := if n == 0 then 0 else answers[n - 1].latest;
                answers[n] == IncrementOf(Since(logs[n], latest, scope), latest, limits[n]))
  {
    hide Since, Increasing, IncrementOf;
    var n := |answers| - 1;
    assert AnswersAt(logs, limits, answers, scope, n);
  }

  lemma ReadOneMore(answers: seq<Increment>)
    requires answers != []
    ensures ReadSoFar(answers) == ReadSoFar(answers[..|answers| - 1]) + answers[|answers| - 1].items
    ensures |answers| == 1 ==> ReadSoFar(answers) == [] + answers[0].items
  {
  }

  lemma FollowingPrefix(logs: seq<Log>, limits: seq<nat>, answers: seq<Increment>, scope: Scope)
    requires IsFollowing(logs, limits, answers, scope) && |answers| >= 2
    ensures var n := |answers| - 1; IsFollowing(logs[..n], limits[..n], answers[..n], scope)
  {
    hide Since, Increasing, IncrementOf;
    var n := |answers| - 1;
    forall i | 0 <= i < n
      ensures AnswersAt(logs[..n], limits[..n], answers[..n], scope, i)
    {
      assert AnswersAt(logs, limits, answers, scope, i);
      assert LatestBefore(answers[..n], i) == LatestBefore(answers, i);
    }
  }

  lemma GrowsSince(before: Log, after: Log, scope: Scope)
    requires before <= after
    ensures Since(before, 0, scope) <= Since(after, 0, scope)
  {
    SincePrefix(after, |before|, 0, scope);
    assert after[..|before|] == before;
  }

  function LastSequence(s: seq<LogEvent>): nat {
    if s == [] then 0 else s[|s| - 1].sequence
  }

  lemma OneMoreRead(log: Log, done: seq<LogEvent>, read: Increment, limit: nat, scope: Scope)
    requires Increasing(log) && limit >= 1 && done <= Since(log, 0, scope)
    requires read == IncrementOf(Since(log, LastSequence(done), scope), LastSequence(done), limit)
    ensures done + read.items <= Since(log, 0, scope)
    ensures read.latest == LastSequence(done + read.items)
    ensures !read.hasMore <==> done + read.items == Since(log, 0, scope)
  {
    hide Since, Increasing, LastSequence;
    var all := Since(log, 0, scope);
    BehindDone(log, done, scope);
    assert done == all[..|done|];
    PrefixTake(all, |done|, limit);
    LatestIs(done, read.items);
  }

  lemma BehindDone(log: Log, done: seq<LogEvent>, scope: Scope)
    requires Increasing(log) && done <= Since(log, 0, scope)
    ensures Since(log, LastSequence(done), scope) == Since(log, 0, scope)[|done|..]
  {
    hide Since, Increasing;
    if done != [] {
      assert done[|done| - 1] == Since(log, 0, scope)[|done| - 1];
      SinceCuts(log, 0, |done|, scope);
    }
  }

  lemma LatestIs(done: seq<LogEvent>, items: seq<LogEvent>)
    ensures LastSequence(done + items) == if items == [] then LastSequence(done) else items[|items| - 1].sequence
  {
    assert items == [] ==> done + items == done;
  }

  lemma PrefixTake(all: seq<LogEvent>, k: nat, limit: nat)
    requires k <= |all|
    ensures all[..k] + Take(all[k..], limit) <= all
    ensures |all[k..]| <= limit <==> all[..k] + Take(all[k..], limit) == all
    ensures Take(all[k..], limit) == [] && limit >= 1 ==> k == |all|
  {
    assert all == all[..k] + all[k..];
    if |all[k..]| > limit {
      assert all[..k] + all[k..][..limit] == all[..k + limit];
    }
  }

  // --------------------------------------------------------- the projections

  /** A provider projection holds the rows of the log, in whatever order they were inserted. */
  ghost predicate Projects(rows: seq<Row>, log: Log) {
    multiset(rows) == multiset(Rows(log))
  }

  /** Sorting any arrangement of the projection gives the canonical order. */
  lemma ProjectionOrder(rows: seq<Row>, log: Log)
    requires Projects(rows, log)
    ensures StableSort(rows) == Ordered(log)
  {
    RowsDistinct(log, |log|);
    SortedIsStrict(Rows(log));
    ArrangementIsStrict(rows, log);
    SortIsSorted(rows);
    StrictIsUnique(StableSort(rows), Ordered(log));
  }

  lemma ArrangementIsStrict(rows: seq<Row>, log: Log)
    requires Projects(rows, log)
    ensures Strict(StableSort(rows))
  {
    RowsDistinct(log, |log|);
    var s := StableSort(rows);
    SortIsSorted(rows);
    forall i, j | 0 <= i < j < |s|
      ensures StrictlyBefore(s[i], s[j])
    {
      assert NotAfter(s[i], s[j]);
      SamePlaceTwice(Rows(log), s, i, j);
    }
  }

  /** A strictly ordered sequence is determined by its items. */
  lemma {:induction false} StrictIsUnique(s: seq<Row>, t: seq<Row>)
    requires Strict(s) && Strict(t) && multiset(s) == multiset(t)
    ensures s == t
  {
    if s == [] {
      assert |multiset(t)| == 0;
    } else {
      FirstIsFirst(s, t);
      assert s == [s[0]] + s[1..] && t == [t[0]] + t[1..];
      assert multiset(s[1..]) == multiset(s) - multiset{s[0]};
      assert multiset(t[1..]) == multiset(t) - multiset{t[0]};
      StrictIsUnique(s[1..], t[1..]);
    }
  }

  lemma FirstIsFirst(s: seq<Row>, t: seq<Row>)
    requires Strict(s) && Strict(t) && multiset(s) == multiset(t) && s != []
    ensures t != [] && s[0] == t[0]
  {
    assert s[0] in multiset(t);
    assert t[0] in multiset(s);
    FirstOrBefore(t, s[0]);
    FirstOrBefore(s, t[0]);
  }

  lemma FirstOrBefore(s: seq<Row>, x: Row)
    requires Strict(s) && x in s
    ensures s[0] == x || StrictlyBefore(s[0], x)
  {
  }

  /** `list_page` of the projection reader: rows after the cursor in key order, at most `fetch` of them. */
  function ListPage(rows: seq<Row>, cursor: Option<Cursor>, fetch: nat): seq<Row> {
    Take(After(StableSort(rows), cursor), fetch)
  }

  /** `_read_projection_page`. */
  function ReadProjectionPage(missionId: nat, rows: seq<Row>, cursor: Option<Cursor>, limit: nat): Result<Page, HistoryError>
    requires limit >= 1
  {
    if cursor.Some? && cursor.value.missionId != missionId then Failure(ForeignCursor)
    else Success(PageFrom(missionId, ListPage(rows, cursor, limit + 1), limit))
  }

  /** The projection path answers what the canonical path answers. */
  lemma ProjectionPageIsCanonical(missionId: nat, log: Log, rows: seq<Row>, cursor: Option<Cursor>, limit: nat)
    requires limit >= 1 && Projects(rows, log)
    ensures ReadProjectionPage(missionId, rows, cursor, limit) == ReadPage(missionId, log, cursor, limit)
  {
    hide After, StableSort, Projects, Rows;
    ProjectionOrder(rows, log);
    TakeTake(After(Ordered(log), cursor), limit);
  }

  lemma TakeTake<T>(rest: seq<T>, limit: nat)
    ensures Take(Take(rest, limit + 1), limit) == Take(rest, limit)
    ensures |Take(rest, limit + 1)| > limit <==> |rest| > limit
  {
  }

  /** `list_since` of the projection reader: rows by sequence, at most `fetch` of them. */
  function ListSince(rows: seq<LogEvent>, since: nat, scope: Scope, fetch: nat): seq<LogEvent> {
    Take(Since(rows, since, scope), fetch)
  }

  /** A projection that holds the scope's events in sequence order answers increments as the log does. */
  lemma ProjectionIncrementIsCanonical(log: Log, rows: seq<LogEvent>, since: nat, scope: Scope, limit: nat)
    requires limit >= 1 && Increasing(log) && rows == Since(log, 0, scope)
    ensures IncrementOf(ListSince(rows, since, scope, limit + 1), since, limit) == IncrementOf(Since(log, since, scope), since, limit)
  {
    hide Since, Increasing, Take;
    SinceTwice(log, since, scope);
    TakeTake(Since(log, since, scope), limit);
  }

  lemma {:induction false} SinceTwice(log: Log, since: nat, scope: Scope)
    requires Increasing(log)
    ensures Since(Since(log, 0, scope), since, scope) == Since(log, since, scope)
  {
    if log != [] {
      var earlier := log[..|log| - 1];
      SinceTwice(earlier, since, scope);
      var all := Since(log, 0, scope);
      if all != Since(earlier, 0, scope) {
        assert all[..|all| - 1] == Since(earlier, 0, scope);
      }
    }
  }

  // ------------------------------------------------------------ the long poll

  /** A clock that never runs backwards, in microseconds; a sleep takes at least as long as asked. */
  class Waiter {
    var now: int
    /** When each sleep began and was due to end. */
    ghost var sleeps: seq<(int, int)>

    constructor (start: int)
      ensures now == start && sleeps == []
    {
      now, sleeps := start, [];
    }

    method Monotonic() returns (t: int)
      modifies this`now
      ensures old(now) <= t == now
    {
      var passed: int :| passed >= 0;
      now := now + passed;
      t := now;
    }

    method Sleep(delay: nat)
      modifies this
      ensures now >= old(now) + delay && sleeps == old(sleeps) + [(old(now), old(now) + delay)]
    {
      var late: int :| late >= 0;
      sleeps := sleeps + [(now, now + delay)];
      now := now + delay + late;
    }
  }

  datatype PollError = MissionNotFound

  /** How many poll intervals it takes to cover the wait. */
  function Intervals(wait: int, interval: int): int
    requires interval > 0
  {
    if wait <= 0 then 0 else (wait + interval - 1) / interval
  }

  /** What `slept` whole intervals cover. */
  function Covered(slept: nat, interval: int): int {
    slept * interval
  }

  lemma StillWithin(slept: nat, wait: int, interval: int)
    requires interval > 0 && Covered(slept, interval) < wait
    ensures slept + 1 <= Intervals(wait, interval)
    ensures Covered(slept + 1, interval) == Covered(slept, interval) + interval
  {
    assert (wait + interval - 1) / interval >= slept + 1 by {
      assert (slept + 1) * interval <= wait + interval - 1;
      DivAtLeast(wait + interval - 1, interval, slept + 1);
    }
  }

  lemma DivAtLeast(x: int, d: int, q: int)
    requires d > 0 && q * d <= x
    ensures x / d >= q
  {
    assert (x / d + 1 - q) * d == x / d * d + d - q * d;
    assert x / d * d + x % d == x;
    assert (x / d + 1 - q) * d > 0;
  }

  /** Every sleep began at or after `start` and was due to end by `deadline`. */
  ghost predicate SleptWithin(sleeps: seq<(int, int)>, start: int, deadline: int) {
    forall k :: 0 <= k < |sleeps| ==> start <= sleeps[k].0 <= sleeps[k].1 <= deadline
  }

  lemma SleptOnce(sleeps: seq<(int, int)>, began: int, ends: int, start: int, deadline: int)
    requires SleptWithin(sleeps, start, deadline) && start <= began <= ends <= deadline
    ensures SleptWithin(sleeps + [(began, ends)], start, deadline)
  {
  }

  /**
   The waiting reader over a log that may grow between reads: `logs(k)` is what the k-th read finds, None for a
   mission that is gone.  It returns the first increment that is not empty, or an empty one once the wait is over;
   it reads at most one time more than the wait has intervals and is never asleep past the deadline, which lies
   `wait` after the clock reading `start` that no sleep precedes.
   */
  method WaitForIncrement(logs: nat -> Option<Log>, since: nat, limit: nat, scope: Scope,
                          wait: int, interval: int, waiter: Waiter)
    returns (r: Result<Increment, PollError>,
             ghost readCount: nat, ghost start: int, ghost deadline: int, ghost slumber: seq<(int, int)>)
    requires limit >= 1 && interval > 0
    modifies waiter
    ensures readCount >= 1 && readCount <= Intervals(wait, interval) + 1
    ensures deadline == start + wait && old(waiter.now) <= start <= waiter.now
    ensures r == match logs(readCount - 1) {
                   case None => Failure(MissionNotFound)
                   case Some(log) => Success(IncrementOf(Since(log, since, scope), since, limit))
                 }
    ensures forall k: nat :: k < readCount - 1 ==> logs(k).Some? && Since(logs(k).value, since, scope) == []
    ensures r.Success? && r.value.items == [] ==> wait <= 0 || waiter.now >= deadline
    ensures waiter.sleeps == old(waiter.sleeps) + slumber && SleptWithin(slumber, start, deadline)
  {
    hide Since, IncrementOf;
    readCount, slumber := 1, [];
    start := waiter.now;
    deadline := start + wait;
    assert forall s, d :: SleptWithin([], s, d);
    hide SleptWithin;
    r := ReadOnce(logs(0), since, limit, scope);
    if r.Failure? || r.value.items != [] || wait <= 0 {
      return;
    }
    var first := waiter.Monotonic();
    var until := first + wait;
    start, deadline := first, until;
    var slept: nat := 0;
    assert Covered(0, interval) == 0;
    hide Covered, Intervals;
    while true
      invariant readCount == slept + 1 && Covered(slept, interval) < wait
      invariant waiter.now >= start + Covered(slept, interval)
      invariant forall k: nat :: k < readCount ==> logs(k).Some? && Since(logs(k).value, since, scope) == []
      invariant waiter.sleeps == old(waiter.sleeps) + slumber && SleptWithin(slumber, start, deadline)
      decreases Intervals(wait, interval) - slept
    {
      StillWithin(slept, wait, interval);
      var current := waiter.Monotonic();
      var remaining := until - current;
      if remaining <= 0 {
        readCount := readCount + 1;
        r := ReadOnce(logs(slept + 1), since, limit, scope);
        return;
      }
      var delay := if interval < remaining then interval else remaining;
      SleptOnce(slumber, current, current + delay, start, deadline);
      slumber := slumber + [(current, current + delay)];
      waiter.Sleep(delay);
      slept := slept + 1;
      readCount := readCount + 1;
      r := ReadOnce(logs(slept), since, limit, scope);
      if r.Failure? || r.value.items != [] {
        return;
      }
      current := waiter.Monotonic();
      if current >= until {
        return;
      }
    }
  }

  method ReadOnce(log: Option<Log>, since: nat, limit: nat, scope: Scope) returns (r: Result<Increment, PollError>)
    requires limit >= 1
    ensures r == match log {
                   case None => Failure(MissionNotFound)
                   case Some(found) => Success(IncrementOf(Since(found, since, scope), since, limit))
                 }
    ensures r.Success? && r.value.items == [] ==> log.Some? && Since(log.value, since, scope) == []
  {
    if log.None? {
      return Failure(MissionNotFound);
    }
    match scope
    case ProviderEvents =>
      var increment := ReadIncrement(log.value, since, limit);
      return Success(increment);
    case EveryEvent =>
      return Success(IncrementOf(Since(log.value, since, EveryEvent), since, limit));
  }
}
