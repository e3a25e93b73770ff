/**
 The batch operations of `InMemoryMissionRepository` on all missions at once: claim_due, expire_due and
 recover_stale_processing (app/storage/memory.py).  A dictionary is its keys in insertion order together
 with a map.
 */
module MissionBatches {
  import opened Wrappers
  import opened Sorting
  import opened MissionDomain
  import opened MissionSteps
  import opened MissionInvariants

  datatype Repo = Repo(order: seq<MissionId>, entries: map<MissionId, Entry>)

  ghost predicate RepoOk(r: Repo) {
    && (forall id :: id in r.order <==> id in r.entries)
    && (forall i, j :: 0 <= i < j < |r.order| ==> r.order[i] != r.order[j])
    && (forall id :: id in r.entries ==> EntryOk(r.entries[id]) && r.entries[id].mission.id == id)
  }

  /** What a batch looks for. */
  datatype Query =
    | DueAt(now: Time)
    | ExpiryDueAt(now: Time)
    | StaleAt(now: Time, claimTimeout: Time)

  /** The sort key of a mission the query selects. */
  function KeyOf(m: Mission, q: Query): Option<Time> {
    match q
    case DueAt(now) => if Due(m, now) then m.scheduledAt else None
    case ExpiryDueAt(now) => if ExpiryDue(m, now) then m.expiresAt else None
    case StaleAt(now, claimTimeout) => if Stale(m, now, claimTimeout) then m.claimedAt else None
  }

  /** What the batch does to one selected mission. */
  function Act(e: Entry, q: Query, st: Stamps): Entry {
    match q
    case DueAt(now) => Claim(e, now)
    case ExpiryDueAt(now) => e.(mission := Expire(e.mission, now, st))
    case StaleAt(now, _) => Recover(e, now, st)
  }

  /** The selected missions, in insertion order. */
  function Candidates(order: seq<MissionId>, entries: map<MissionId, Entry>, q: Query): seq<Keyed<MissionId>> {
    if order == [] then []
    else
      var rest := Candidates(order[1..], entries, q);
      if order[0] in entries && KeyOf(entries[order[0]].mission, q).Some? then
        [Keyed(KeyOf(entries[order[0]].mission, q).value, 0, order[0])] + rest
      else rest
  }

  function Ranked(r: Repo, q: Query): seq<Keyed<MissionId>> {
    StableSort(Candidates(r.order, r.entries, q))
  }

  function First(s: seq<Keyed<MissionId>>, limit: nat): seq<Keyed<MissionId>> {
    if |s| <= limit then s else s[..limit]
  }

  function Values(s: seq<Keyed<MissionId>>): seq<MissionId> {
    seq(|s|, i requires 0 <= i < |s| => s[i].value)
  }

  function Picked(r: Repo, q: Query, limit: nat): seq<MissionId> {
    Values(First(Ranked(r, q), limit))
  }

  type AllStamps = MissionId -> Stamps

  /** The repository after one batch. */
  function Batch(r: Repo, q: Query, limit: nat, st: AllStamps): Repo {
    var picked := Picked(r, q, limit);
    r.(entries := map id | id in r.entries ::
         if id in picked then Act(r.entries[id], q, st(id)) else r.entries[id])
  }

  // -------------------------------------------------------------- candidates

  lemma {:induction false} CandidatesFrom(order: seq<MissionId>, entries: map<MissionId, Entry>, q: Query, c: Keyed<MissionId>)
    requires c in Candidates(order, entries, q)
    ensures c.value in order && c.value in entries && c.minor == 0
    ensures KeyOf(entries[c.value].mission, q) == Some(c.major)
  {
    if order[0] in entries && KeyOf(entries[order[0]].mission, q).Some? {
      if c != Candidates(order, entries, q)[0] {
        assert c in Candidates(order[1..], entries, q);
        CandidatesFrom(order[1..], entries, q, c);
      }
    } else {
      CandidatesFrom(order[1..], entries, q, c);
    }
  }

  lemma {:induction false} CandidateFound(order: seq<MissionId>, entries: map<MissionId, Entry>, q: Query, id: MissionId)
    requires id in order && id in entries && KeyOf(entries[id].mission, q).Some?
    ensures Keyed(KeyOf(entries[id].mission, q).value, 0, id) in Candidates(order, entries, q)
  {
    if order[0] != id {
      assert id in order[1..];
      CandidateFound(order[1..], entries, q, id);
    }
  }

  ghost predicate DistinctValues(s: seq<Keyed<MissionId>>) {
    forall i, j :: 0 <= i < j < |s| ==> s[i].value != s[j].value
  }

  lemma {:induction false} CandidatesDistinct(order: seq<MissionId>, entries: map<MissionId, Entry>, q: Query)
    requires forall i, j :: 0 <= i < j < |order| ==> order[i] != order[j]
    ensures DistinctValues(Candidates(order, entries, q))
  {
    if order != [] {
      CandidatesDistinct(order[1..], entries, q);
      var rest := Candidates(order[1..], entries, q);
      forall k | 0 <= k < |rest|
        ensures rest[k].value != order[0]
      {
        CandidatesFrom(order[1..], entries, q, rest[k]);
      }
    }
  }

  /** Sorting keeps the values distinct. */
  lemma RankedDistinct(r: Repo, q: Query)
    requires RepoOk(r)
    ensures DistinctValues(Ranked(r, q))
  {
    var c, s := Candidates(r.order, r.entries, q), Ranked(r, q);
    CandidatesDistinct(r.order, r.entries, q);
    forall i, j | 0 <= i < j < |s|
      ensures s[i].value != s[j].value
    {
      if s[i].value == s[j].value {
        SortHasSameItems(c, s[i]);
        SortHasSameItems(c, s[j]);
        CandidatesFrom(r.order, r.entries, q, s[i]);
        CandidatesFrom(r.order, r.entries, q, s[j]);
        assert s[i] == s[j];
        TwiceInMultiset(s, i, j);
        OnceInDistinct(c, s[i]);
        assert false;
      }
    }
  }

  lemma TwiceInMultiset(s: seq<Keyed<MissionId>>, i: nat, j: nat)
    requires i < j < |s| && s[i] == s[j]
    ensures multiset(s)[s[i]] >= 2
  {
    assert s == s[..i] + [s[i]] + s[i + 1..j] + [s[j]] + s[j + 1..];
  }

  lemma {:induction false} OnceInDistinct(s: seq<Keyed<MissionId>>, x: Keyed<MissionId>)
    requires DistinctValues(s)
    ensures multiset(s)[x] <= 1
  {
    if s != [] {
      assert s == [s[0]] + s[1..];
      OnceInDistinct(s[1..], x);
      if s[0] == x {
        assert x !in s[1..];
      }
    }
  }

  // ------------------------------------------------------------- one batch

  /** Acting on a selected mission keeps it sound and takes it out of the query. */
  lemma ActOk(e: Entry, q: Query, st: Stamps)
    requires EntryOk(e) && KeyOf(e.mission, q).Some?
    ensures var r := Act(e, q, st);
            EntryOk(r) && r.mission.id == e.mission.id && KeyOf(r.mission, q).None? && LedgerGrows(e.attempts, r.attempts)
  {
    match q
    case DueAt(now) => ClaimOk(e, now);
    case ExpiryDueAt(now) =>
      ExpireOk(e, now, st);
      SameLedger(e);
    case StaleAt(now, _) => RecoverOk(e, now, st);
  }

  lemma SameLedger(e: Entry)
    ensures LedgerGrows(e.attempts, e.attempts)
  {
  }

  lemma PickedMatches(r: Repo, q: Query, limit: nat, id: MissionId)
    requires RepoOk(r) && id in Picked(r, q, limit)
    ensures id in r.entries && KeyOf(r.entries[id].mission, q).Some?
  {
    var s := First(Ranked(r, q), limit);
    var i :| 0 <= i < |s| && s[i].value == id;
    assert s[i] in Ranked(r, q);
    SortHasSameItems(Candidates(r.order, r.entries, q), s[i]);
    CandidatesFrom(r.order, r.entries, q, s[i]);
  }

  /** A batch keeps every mission sound; what it did not pick is untouched. */
  lemma BatchOk(r: Repo, q: Query, limit: nat, st: AllStamps)
    requires RepoOk(r)
    ensures RepoOk(Batch(r, q, limit, st))
    ensures forall id :: id in r.entries ==>
              Batch(r, q, limit, st).entries[id]
              == if id in Picked(r, q, limit) then Act(r.entries[id], q, st(id)) else r.entries[id]
  {
    hide EntryOk, Picked, Act;
    forall id | id in r.entries
      ensures EntryOk(Batch(r, q, limit, st).entries[id]) && Batch(r, q, limit, st).entries[id].mission.id == id
    {
      if id in Picked(r, q, limit) {
        PickedMatches(r, q, limit, id);
        ActOk(r.entries[id], q, st(id));
      }
    }
  }

  lemma KnownIsListed(r: Repo, id: MissionId)
    requires RepoOk(r) && id in r.entries
    ensures id in r.order
  {
    hide EntryOk;
  }

  /** Earliest first: a picked mission is never later than one left behind by the same batch. */
  lemma EarliestFirst(r: Repo, q: Query, limit: nat, id: MissionId, other: MissionId)
    requires RepoOk(r) && id in Picked(r, q, limit)
    requires other in r.entries && KeyOf(r.entries[other].mission, q).Some? && other !in Picked(r, q, limit)
    ensures id in r.entries && KeyOf(r.entries[id].mission, q).Some?
    ensures KeyOf(r.entries[id].mission, q).value <= KeyOf(r.entries[other].mission, q).value
    ensures |Picked(r, q, limit)| == limit
  {
    hide EntryOk, Candidates, KeyOf, RepoOk, StableSort;
    PickedMatches(r, q, limit, id);
    var c, s := Candidates(r.order, r.entries, q), Ranked(r, q);
    var left := Keyed(KeyOf(r.entries[other].mission, q).value, 0, other);
    SameOrder(r);
    KnownIsListed(r, other);
    CandidateFound(r.order, r.entries, q, other);
    SortHasSameItems(c, left);
    var j :| 0 <= j < |s| && s[j] == left;
    var i :| 0 <= i < |First(s, limit)| && First(s, limit)[i].value == id;
    assert forall k :: 0 <= k < |First(s, limit)| ==> Picked(r, q, limit)[k] == s[k].value;
    assert j >= |First(s, limit)|;
    assert s[i] in s;
    SortHasSameItems(c, s[i]);
    CandidatesFrom(r.order, r.entries, q, s[i]);
    SortIsSorted(c);
    assert NotAfter(s[i], s[j]);
  }

  /** A mission that matches is left behind only by a full batch. */
  lemma LeftByFullBatch(r: Repo, q: Query, limit: nat, other: MissionId)
    requires RepoOk(r) && other in r.entries && KeyOf(r.entries[other].mission, q).Some?
    ensures other in Picked(r, q, limit) || |Picked(r, q, limit)| == limit
  {
    hide EntryOk, Candidates, KeyOf, StableSort;
    var s := Ranked(r, q);
    var left := Keyed(KeyOf(r.entries[other].mission, q).value, 0, other);
    SameOrder(r);
    KnownIsListed(r, other);
    CandidateFound(r.order, r.entries, q, other);
    SortHasSameItems(Candidates(r.order, r.entries, q), left);
    var j :| 0 <= j < |s| && s[j] == left;
    if |s| <= limit {
      assert Picked(r, q, limit)[j] == other;
    }
  }

  /** The picked missions come in the order of their keys, each once. */
  lemma PickedInOrder(r: Repo, q: Query, limit: nat, i: nat, j: nat)
    requires RepoOk(r) && i < j < |Picked(r, q, limit)|
    ensures Picked(r, q, limit)[i] != Picked(r, q, limit)[j]
    ensures forall k :: k in {i, j} ==>
              && Picked(r, q, limit)[k] in r.entries && KeyOf(r.entries[Picked(r, q, limit)[k]].mission, q).Some?
    ensures KeyOf(r.entries[Picked(r, q, limit)[i]].mission, q).value <= KeyOf(r.entries[Picked(r, q, limit)[j]].mission, q).value
  {
    hide EntryOk, Candidates, KeyOf, RepoOk, StableSort;
    var c, s := Candidates(r.order, r.entries, q), Ranked(r, q);
    RankedDistinct(r, q);
    SortIsSorted(c);
    assert NotAfter(s[i], s[j]);
    assert s[i] in s && s[j] in s;
    SortHasSameItems(c, s[i]);
    SortHasSameItems(c, s[j]);
    CandidatesFrom(r.order, r.entries, q, s[i]);
    CandidatesFrom(r.order, r.entries, q, s[j]);
  }

  // ------------------------------------------- what the three batches promise

  /** Each of `taken` once, the others as they were. */
  ghost predicate OnlyTaken(r: Repo, limit: nat, taken: seq<MissionId>, after: Repo) {
    && |taken| <= limit
    && (forall i, j :: 0 <= i < j < |taken| ==> taken[i] != taken[j])
    && (forall id :: id in taken ==> id in r.entries)
    && after.order == r.order && after.entries.Keys == r.entries.Keys
    && (forall id :: id in r.entries && id !in taken ==> after.entries[id] == r.entries[id])
  }

  /**
   `claim_due`: what it takes was waiting, its time had come, its deadline had not, and it had attempts left; every such
   mission is taken, unless the batch is full of missions that are no later; and what is taken is being processed.
   */
  ghost predicate ClaimsWhatIsDue(r: Repo, now: Time, limit: nat, taken: seq<MissionId>, after: Repo) {
    && OnlyTaken(r, limit, taken, after)
    && (forall id :: id in taken ==>
          var m := r.entries[id].mission;
          && m.status == Waiting && m.scheduledAt.Some? && m.scheduledAt.value <= now
          && (m.expiresAt.None? || now < m.expiresAt.value) && m.executionAttempts < m.maxExecutionAttempts)
    && (forall id :: id in r.entries && id !in taken ==>
          var m := r.entries[id].mission;
          m.status == Waiting && m.scheduledAt.Some? && m.scheduledAt.value <= now
          && (m.expiresAt.None? || now < m.expiresAt.value) && m.executionAttempts < m.maxExecutionAttempts ==>
            && |taken| == limit
            && forall other :: other in taken ==> r.entries[other].mission.scheduledAt.value <= m.scheduledAt.value)
    && (forall i, j :: 0 <= i < j < |taken| ==>
          r.entries[taken[i]].mission.scheduledAt.value <= r.entries[taken[j]].mission.scheduledAt.value)
    && (forall id :: id in taken ==>
          var m, attempts := r.entries[id].mission, r.entries[id].attempts;
          && after.entries[id].mission == m.(status := Processing, claimedAt := Some(now),
                                             executionAttempts := m.executionAttempts + 1,
                                             trail := m.trail + [Visit(Processing, ByClaim)])
          && after.entries[id].attempts ==
             attempts + [Attempt(m.executionAttempts + 1, AttemptProcessing, now, None, None, None)])
  }

  /** `expire_due`: the same for missions that have not started and whose deadline has come. */
  ghost predicate ExpiresWhatIsOver(r: Repo, now: Time, limit: nat, taken: seq<MissionId>, after: Repo) {
    && OnlyTaken(r, limit, taken, after)
    && (forall id :: id in taken ==>
          var m := r.entries[id].mission;
          m.status in {Created, Waiting, Paused} && m.expiresAt.Some? && m.expiresAt.value <= now)
    && (forall id :: id in r.entries && id !in taken ==>
          var m := r.entries[id].mission;
          m.status in {Created, Waiting, Paused} && m.expiresAt.Some? && m.expiresAt.value <= now ==>
            && |taken| == limit
            && forall other :: other in taken ==> r.entries[other].mission.expiresAt.value <= m.expiresAt.value)
    && (forall i, j :: 0 <= i < j < |taken| ==>
          r.entries[taken[i]].mission.expiresAt.value <= r.entries[taken[j]].mission.expiresAt.value)
    && (forall id :: id in taken ==> ExpiredAs(r.entries[id], after.entries[id], now))
  }

  ghost predicate ExpiredAs(before: Entry, e: Entry, now: Time) {
    var m := before.mission;
    && e.attempts == before.attempts
    && |e.mission.log| == |m.log| + 1 && m.log <= e.mission.log
    && e.mission.log[|m.log|].kind == MissionExpired && e.mission.log[|m.log|].timestamp == now
    && e.mission == m.(status := Expired, claimedAt := None, trail := m.trail + [Visit(Expired, ByTable)],
                       log := e.mission.log, lastEventSequence := m.lastEventSequence + 1)
  }

  /**
   `recover_stale_processing`: the same for missions claimed at least the timeout ago.  One without attempts left fails,
   any other waits again, and its open attempt is closed.
   */
  ghost predicate RecoversWhatIsStale(r: Repo, now: Time, claimTimeout: Time, limit: nat, taken: seq<MissionId>, after: Repo) {
    && OnlyTaken(r, limit, taken, after)
    && (forall id :: id in taken ==>
          var m := r.entries[id].mission;
          m.status == Processing && m.claimedAt.Some? && m.claimedAt.value + claimTimeout <= now)
    && (forall id :: id in r.entries && id !in taken ==>
          var m := r.entries[id].mission;
          m.status == Processing && m.claimedAt.Some? && m.claimedAt.value + claimTimeout <= now ==>
            && |taken| == limit
            && forall other :: other in taken ==> r.entries[other].mission.claimedAt.value <= m.claimedAt.value)
    && (forall i, j :: 0 <= i < j < |taken| ==>
          r.entries[taken[i]].mission.claimedAt.value <= r.entries[taken[j]].mission.claimedAt.value)
    && (forall id :: id in taken ==> Recovered(r.entries[id], after.entries[id], now))
  }

  ghost predicate Recovered(before: Entry, e: Entry, now: Time) {
    var m, n := before.mission, |before.attempts|;
    var target := if m.executionAttempts >= m.maxExecutionAttempts then Failed else Waiting;
    && |e.mission.log| == |m.log| + 1 && m.log <= e.mission.log
    && e.mission.log[|m.log|].kind == ClaimRecovered(target == Failed) && e.mission.log[|m.log|].timestamp == now
    && e.mission == m.(status := target, claimedAt := None, trail := m.trail + [Visit(target, ByRecovery)],
                       log := e.mission.log, lastEventSequence := m.lastEventSequence + 1)
    && |e.attempts| == n >= 1 && e.attempts[..n - 1] == before.attempts[..n - 1]
    && e.attempts[n - 1] == before.attempts[n - 1].(
         status := if target == Failed then AttemptFailed else AttemptRecovered, finishedAt := Some(now),
         resolvedProviderId := m.resolvedProviderId, reservationId := m.reservationId)
  }

  lemma TakenOnly(r: Repo, q: Query, limit: nat, st: AllStamps)
    requires RepoOk(r)
    ensures OnlyTaken(r, limit, Picked(r, q, limit), Batch(r, q, limit, st))
  {
    hide EntryOk, KeyOf, RepoOk, Act, Ranked;
    var taken := Picked(r, q, limit);
    BatchOk(r, q, limit, st);
    forall i, j | 0 <= i < j < |taken|
      ensures taken[i] != taken[j]
    {
      PickedInOrder(r, q, limit, i, j);
    }
    forall id | id in taken
      ensures id in r.entries
    {
      PickedMatches(r, q, limit, id);
    }
  }

  /** Where the keys are these times, the batch takes them in order and leaves none behind that is earlier. */
  lemma TakenByKey(r: Repo, q: Query, limit: nat)
    requires RepoOk(r)
    ensures var taken := Picked(r, q, limit);
            && (forall id :: id in taken ==> id in r.entries && KeyOf(r.entries[id].mission, q).Some?)
            && (forall id, other :: id in r.entries && id !in taken && KeyOf(r.entries[id].mission, q).Some? && other in taken ==>
                  KeyOf(r.entries[other].mission, q).value <= KeyOf(r.entries[id].mission, q).value)
            && (forall id :: id in r.entries && id !in taken && KeyOf(r.entries[id].mission, q).Some? ==> |taken| == limit)
            && (forall i, j :: 0 <= i < j < |taken| ==>
                  KeyOf(r.entries[taken[i]].mission, q).value <= KeyOf(r.entries[taken[j]].mission, q).value)
  {
    hide EntryOk, KeyOf, RepoOk, Picked;
    var taken := Picked(r, q, limit);
    forall id | id in taken
      ensures id in r.entries && KeyOf(r.entries[id].mission, q).Some?
    {
      PickedMatches(r, q, limit, id);
    }
    forall id | id in r.entries && id !in taken && KeyOf(r.entries[id].mission, q).Some?
      ensures |taken| == limit
      ensures forall other :: other in taken ==> KeyOf(r.entries[other].mission, q).value <= KeyOf(r.entries[id].mission, q).value
    {
      LeftByFullBatch(r, q, limit, id);
      forall other | other in taken
        ensures KeyOf(r.entries[other].mission, q).value <= KeyOf(r.entries[id].mission, q).value
      {
        EarliestFirst(r, q, limit, other, id);
      }
    }
    forall i, j | 0 <= i < j < |taken|
      ensures KeyOf(r.entries[taken[i]].mission, q).value <= KeyOf(r.entries[taken[j]].mission, q).value
    {
      PickedInOrder(r, q, limit, i, j);
    }
  }

  /** The three batches keep these promises. */
  lemma ClaimsKeepPromise(r: Repo, now: Time, limit: nat, st: AllStamps)
    requires RepoOk(r)
    ensures ClaimsWhatIsDue(r, now, limit, Picked(r, DueAt(now), limit), Batch(r, DueAt(now), limit, st))
  {
    hide EntryOk, RepoOk, Picked, OnlyTaken;
    TakenOnly(r, DueAt(now), limit, st);
    TakenByKey(r, DueAt(now), limit);
    BatchOk(r, DueAt(now), limit, st);
  }

  lemma ExpiryKeepsPromise(r: Repo, now: Time, limit: nat, st: AllStamps)
    requires RepoOk(r)
    ensures ExpiresWhatIsOver(r, now, limit, Picked(r, ExpiryDueAt(now), limit), Batch(r, ExpiryDueAt(now), limit, st))
  {
    hide EntryOk, RepoOk, Picked, OnlyTaken, Expire, ExpiredAs;
    TakenOnly(r, ExpiryDueAt(now), limit, st);
    TakenByKey(r, ExpiryDueAt(now), limit);
    BatchOk(r, ExpiryDueAt(now), limit, st);
    forall id | id in Picked(r, ExpiryDueAt(now), limit)
      ensures ExpiredAs(r.entries[id], r.entries[id].(mission := Expire(r.entries[id].mission, now, st(id))), now)
    {
      ExpiredFields(r.entries[id], now, st(id));
    }
  }

  lemma ExpiredFields(e: Entry, now: Time, st: Stamps)
    requires e.mission.status in {Created, Waiting, Paused}
    ensures ExpiredAs(e, e.(mission := Expire(e.mission, now, st)), now)
  {
    hide DrawEventId;
  }

  lemma RecoveryKeepsPromise(r: Repo, now: Time, claimTimeout: Time, limit: nat, st: AllStamps)
    requires RepoOk(r)
    ensures var q := StaleAt(now, claimTimeout);
            RecoversWhatIsStale(r, now, claimTimeout, limit, Picked(r, q, limit), Batch(r, q, limit, st))
  {
    hide EntryOk, RepoOk, Picked, OnlyTaken, Recover, Recovered;
    var q := StaleAt(now, claimTimeout);
    TakenOnly(r, q, limit, st);
    TakenByKey(r, q, limit);
    BatchOk(r, q, limit, st);
    forall id | id in Picked(r, q, limit)
      ensures Recovered(r.entries[id], Recover(r.entries[id], now, st(id)), now)
    {
      SoundAt(r, id);
      RecoveredFields(r.entries[id], now, st(id));
    }
  }

  lemma SoundAt(r: Repo, id: MissionId)
    requires RepoOk(r) && id in r.entries
    ensures EntryOk(r.entries[id])
  {
    hide EntryOk;
  }

  lemma RecoveredFields(e: Entry, now: Time, st: Stamps)
    requires EntryOk(e) && e.mission.status == Processing
    ensures Recovered(e, Recover(e, now, st), now)
  {
    hide DrawEventId, LogOk, TrailOk;
  }

  // --------------------------------------------------------- successive batches

  function ValueSet(s: seq<Keyed<MissionId>>): set<MissionId> {
    set k | k in s :: k.value
  }

  /** What is still selected after the batch: everything the batch did not pick. */
  lemma {:induction false} RemainingCandidates(order: seq<MissionId>, r: Repo, q: Query, limit: nat, st: AllStamps, keep: set<MissionId>)
    requires RepoOk(r) && forall id :: id in order ==> id in r.order
    requires forall id :: id in r.order && KeyOf(r.entries[id].mission, q).Some? ==>
               (id in keep <==> id !in Picked(r, q, limit))
    ensures Candidates(order, Batch(r, q, limit, st).entries, q) == Keep(Candidates(order, r.entries, q), keep)
  {
    hide EntryOk, Picked, Act, KeyOf;
    if order != [] {
      RemainingCandidates(order[1..], r, q, limit, st, keep);
      var id := order[0];
      assert id in r.order;
      BatchOk(r, q, limit, st);
      if id in Picked(r, q, limit) {
        PickedMatches(r, q, limit, id);
        ActOk(r.entries[id], q, st(id));
      }
      if KeyOf(r.entries[id].mission, q).Some? {
        var rest := Candidates(order[1..], r.entries, q);
        var all := [Keyed(KeyOf(r.entries[id].mission, q).value, 0, id)] + rest;
        assert all[1..] == rest;
      }
    }
  }

  lemma {:induction false} KeepNothing(s: seq<Keyed<MissionId>>, keep: set<MissionId>)
    requires forall i :: 0 <= i < |s| ==> s[i].value !in keep
    ensures Keep(s, keep) == []
  {
    if s != [] {
      KeepNothing(s[1..], keep);
    }
  }

  lemma {:induction false} KeepAll(s: seq<Keyed<MissionId>>, keep: set<MissionId>)
    requires forall i :: 0 <= i < |s| ==> s[i].value in keep
    ensures Keep(s, keep) == s
  {
    if s != [] {
      KeepAll(s[1..], keep);
    }
  }

  lemma {:induction false} KeepConcat(a: seq<Keyed<MissionId>>, b: seq<Keyed<MissionId>>, keep: set<MissionId>)
    ensures Keep(a + b, keep) == Keep(a, keep) + Keep(b, keep)
  {
    if a == [] {
      assert a + b == b;
    } else {
      assert (a + b)[1..] == a[1..] + b;
      KeepConcat(a[1..], b, keep);
    }
  }

  /** The values of the tail of a sequence with distinct values are in no other position. */
  lemma TailValues(s: seq<Keyed<MissionId>>, n: nat)
    requires DistinctValues(s) && n <= |s|
    ensures forall i :: 0 <= i < |s| ==> (s[i].value in ValueSet(s[n..]) <==> i >= n)
  {
    forall i | 0 <= i < |s|
      ensures s[i].value in ValueSet(s[n..]) <==> i >= n
    {
      if i >= n {
        assert s[n..][i - n] == s[i];
      }
    }
  }

  lemma KeepTail(s: seq<Keyed<MissionId>>, n: nat)
    requires DistinctValues(s) && n <= |s|
    ensures Keep(s, ValueSet(s[n..])) == s[n..]
  {
    hide ValueSet, DistinctValues;
    var keep := ValueSet(s[n..]);
    TailValues(s, n);
    assert s == s[..n] + s[n..];
    KeepConcat(s[..n], s[n..], keep);
    KeepNothing(s[..n], keep);
    forall i | 0 <= i < |s[n..]|
      ensures s[n..][i].value in keep
    {
      assert s[n..][i] == s[n + i];
    }
    KeepAll(s[n..], keep);
  }

  /** After a batch the ranking is the old one without the missions that were picked. */
  lemma BatchAdvances(r: Repo, q: Query, limit: nat, st: AllStamps)
    requires RepoOk(r)
    ensures Ranked(Batch(r, q, limit, st), q) == Ranked(r, q)[|First(Ranked(r, q), limit)|..]
  {
    hide EntryOk, Act, RepoOk, Candidates, Picked, ValueSet, StableSort, Keep, DistinctValues, KeyOf;
    var s := Ranked(r, q);
    var n := |First(s, limit)|;
    var keep := ValueSet(s[n..]);
    RankedDistinct(r, q);
    SameOrder(r);
    forall id | id in r.order && KeyOf(r.entries[id].mission, q).Some?
      ensures id in keep <==> id !in Picked(r, q, limit)
    {
      KeptExactly(r, q, limit, id);
    }
    RemainingCandidates(r.order, r, q, limit, st, keep);
    SortKeepCommute(Candidates(r.order, r.entries, q), keep);
    KeepTail(s, n);
  }

  lemma SameOrder(r: Repo)
    requires RepoOk(r)
    ensures forall id :: id in r.order ==> id in r.entries
  {
  }

  lemma KeptExactly(r: Repo, q: Query, limit: nat, id: MissionId)
    requires RepoOk(r) && DistinctValues(Ranked(r, q)) && id in r.order && KeyOf(r.entries[id].mission, q).Some?
    ensures id in ValueSet(Ranked(r, q)[|First(Ranked(r, q), limit)|..]) <==> id !in Picked(r, q, limit)
  {
    hide EntryOk, KeyOf, ValueSet, StableSort, Candidates, DistinctValues;
    var s := Ranked(r, q);
    var n := |First(s, limit)|;
    var k := Keyed(KeyOf(r.entries[id].mission, q).value, 0, id);
    CandidateFound(r.order, r.entries, q, id);
    SortHasSameItems(Candidates(r.order, r.entries, q), k);
    var i :| 0 <= i < |s| && s[i] == k;
    TailValues(s, n);
    PickedAt(r, q, limit, i);
  }

  lemma PickedAt(r: Repo, q: Query, limit: nat, i: nat)
    requires i < |Ranked(r, q)| && DistinctValues(Ranked(r, q))
    ensures Ranked(r, q)[i].value in Picked(r, q, limit) <==> i < |First(Ranked(r, q), limit)|
  {
    var s := Ranked(r, q);
    var n := |First(s, limit)|;
    if i < n {
      assert Picked(r, q, limit)[i] == s[i].value;
    } else {
      forall j | 0 <= j < n
        ensures Picked(r, q, limit)[j] != s[i].value
      {
        assert s[j].value != s[i].value;
      }
    }
  }

  /** Successive batches of the given sizes at one time, and everything they picked, in order. */
  function Batches(r: Repo, q: Query, limits: seq<nat>, st: AllStamps): (Repo, seq<MissionId>)
    decreases |limits|
  {
    if limits == [] then (r, [])
    else
      var after := Batch(r, q, limits[0], st);
      var (last, more) := Batches(after, q, limits[1..], st);
      (last, Picked(r, q, limits[0]) + more)
  }

  function Total(limits: seq<nat>): nat {
    if limits == [] then 0 else limits[0] + Total(limits[1..])
  }

  /**
   Successive batches at one time pick exactly the first Total(limits) missions of the initial ranking:
   the batches are disjoint, earliest first, and once their sizes add up they have drained every mission selected.
   */
  lemma {:induction false} BatchesDrain(r: Repo, q: Query, limits: seq<nat>, st: AllStamps)
    requires RepoOk(r)
    ensures var (last, picked) := Batches(r, q, limits, st);
            && RepoOk(last)
            && picked == Values(First(Ranked(r, q), Total(limits)))
            && Ranked(last, q) == Ranked(r, q)[|First(Ranked(r, q), Total(limits))|..]
            && (Total(limits) >= |Ranked(r, q)| ==> Ranked(last, q) == [])
    decreases |limits|
  {
    hide EntryOk, Act, Batch, Ranked, RepoOk, Values, First;
    NothingTaken(Ranked(r, q));
    if limits != [] {
      BatchOk(r, q, limits[0], st);
      var after := Batch(r, q, limits[0], st);
      BatchAdvances(r, q, limits[0], st);
      BatchesDrain(after, q, limits[1..], st);
      FirstThenMore(Ranked(r, q), limits[0], Total(limits[1..]));
    } else {
      assert Ranked(r, q)[0..] == Ranked(r, q);
    }
    AllTaken(Ranked(r, q), Total(limits));
  }

  lemma NothingTaken(s: seq<Keyed<MissionId>>)
    ensures First(s, 0) == [] && Values(First(s, 0)) == []
  {
  }

  lemma AllTaken(s: seq<Keyed<MissionId>>, n: nat)
    ensures n >= |s| ==> s[|First(s, n)|..] == []
  {
  }

  /** Taking `n` and then `m` of the rest is taking `n + m`. */
  lemma FirstThenMore(s: seq<Keyed<MissionId>>, n: nat, m: nat)
    ensures var rest := s[|First(s, n)|..];
            && Values(First(s, n)) + Values(First(rest, m)) == Values(First(s, n + m))
            && rest[|First(rest, m)|..] == s[|First(s, n + m)|..]
  {
  }

  /** Nothing ranked means nothing selected. */
  lemma DrainedMeansNone(r: Repo, q: Query, id: MissionId)
    requires RepoOk(r) && Ranked(r, q) == [] && id in r.entries
    ensures KeyOf(r.entries[id].mission, q).None?
  {
    if KeyOf(r.entries[id].mission, q).Some? {
      CandidateFound(r.order, r.entries, q, id);
    }
  }

  /** Claim batches drain: afterwards no mission is due. */
  lemma ClaimsDrain(r: Repo, now: Time, limits: seq<nat>, st: AllStamps, id: MissionId)
    requires RepoOk(r) && Total(limits) >= |Ranked(r, DueAt(now))| && id in r.entries
    ensures var (last, picked) := Batches(r, DueAt(now), limits, st);
            && id in last.entries && !Due(last.entries[id].mission, now)
            && (forall i, j :: 0 <= i < j < |picked| ==> picked[i] != picked[j])
  {
    hide EntryOk, Act, Batch, Ranked;
    BatchesDrain(r, DueAt(now), limits, st);
    BatchesKeepKeys(r, DueAt(now), limits, st);
    RankedDistinct(r, DueAt(now));
    DrainedMeansNone(Batches(r, DueAt(now), limits, st).0, DueAt(now), id);
  }

  lemma {:induction false} BatchesKeepKeys(r: Repo, q: Query, limits: seq<nat>, st: AllStamps)
    ensures Batches(r, q, limits, st).0.entries.Keys == r.entries.Keys
    decreases |limits|
  {
    hide Picked, Act;
    if limits != [] {
      BatchesKeepKeys(Batch(r, q, limits[0], st), q, limits[1..], st);
    }
  }
}
