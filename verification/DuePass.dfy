/**
 `process_due_missions`: expire, claim, then run each claimed mission and file it
 (app/services/due_mission_processor.py).
 */
module DuePass {
  import opened Wrappers
  import opened MissionDomain
  import opened MissionSteps
  import opened MissionInvariants
  import opened MissionBatches
  import opened Backoff

  // ------------------------------------------------------------ one whole run

  /** What the environment will answer to one run. */
  datatype Answers = Answers(
    resolution: Resolution,
    participantsFound: bool,
    search: SearchAnswer,
    reserve: ReserveAnswer,
    autoConfirm: CallAnswer)

  /** `run_mission` from start to end when nobody else touches the mission meanwhile. */
  function RunWhole(e: Entry, now: Time, allowProcessing: bool, a: Answers, st: Stamps): Segment {
    match StartRun(e, now, allowProcessing, a.resolution, a.participantsFound, st)
    case Suspended(searching, _, provider) => ResumeSearch(searching, e.mission.status == Processing, provider, a, st)
    case ended => ended
  }

  function ResumeSearch(e: Entry, processing: bool, provider: ProviderId, a: Answers, st: Stamps): Segment {
    match AfterSearch(e, processing, provider, a.search, st)
    case Suspended(reserving, _, _) => ResumeReserve(reserving, provider, a, st)
    case ended => ended
  }

  function ResumeReserve(e: Entry, provider: ProviderId, a: Answers, st: Stamps): Segment {
    match AfterReserve(e, provider, a.reserve, st)
    case Suspended(confirming, _, _) => AfterAutoConfirm(confirming, a.autoConfirm, st)
    case ended => ended
  }

  /** The run of a claimed mission, and the list it ends in. */
  function ProcessOne(e: Entry, now: Time, policy: RetryPolicy, a: Answers, st: Stamps): (Entry, Verdict)
    requires policy.Valid()
  {
    match RunWhole(e, now, true, a, st)
    case Raised(raised, error) => AfterDueRaise(raised, error, now, policy, st)
    case ended => AfterDueReturn(ended.entry, now, policy, st)
  }

  /** A mission as `claim_due` at `now` leaves it. */
  ghost predicate ClaimedAt(e: Entry, now: Time) {
    && EntryOk(e) && e.mission.status == Processing && e.mission.executionAttempts >= 1
    && NotPast(e.mission.expiresAt, now)
  }

  /** How a run of a claimed mission ends. */
  ghost predicate ClaimedRun(e: Entry, s: Segment) {
    && EntryKeeps(e, s.entry)
    && (s.Raised? ==> s.entry.mission.status == Processing)
    && (s.Returned? ==> s.entry.mission.status in {RequiresConfirmation, Completed, Failed})
  }

  lemma ClaimedRunFrom(e: Entry, middle: Entry, s: Segment)
    requires EntryKeeps(e, middle) && ClaimedRun(middle, s)
    ensures ClaimedRun(e, s)
  {
    LedgerGrowsTransitive(e.attempts, middle.attempts, s.entry.attempts);
  }

  lemma SegmentKeepsEntry(e: Entry, s: Segment)
    requires SegmentKeeps(e, s)
    ensures EntryKeeps(e, s.entry)
  {
  }

  lemma RunWholeOk(e: Entry, now: Time, a: Answers, st: Stamps)
    requires ClaimedAt(e, now)
    ensures var s := RunWhole(e, now, true, a, st);
            ClaimedRun(e, s) && !s.Suspended?
  {
    hide StartRun, SegmentKeeps, EntryKeeps, ResumeSearch, EntryOk;
    StartRunOk(e, now, true, a.resolution, a.participantsFound, st);
    var s := StartRun(e, now, true, a.resolution, a.participantsFound, st);
    SegmentKeepsEntry(e, s);
    EntryKeepsOk(e, s.entry);
    if s.Suspended? {
      ResumeSearchOk(s.entry, s.provider, a, st);
      ClaimedRunFrom(e, s.entry, ResumeSearch(s.entry, true, s.provider, a, st));
    }
  }

  lemma EntryKeepsOk(e: Entry, r: Entry)
    requires EntryKeeps(e, r)
    ensures EntryOk(r)
  {
  }

  lemma ResumeSearchOk(e: Entry, provider: ProviderId, a: Answers, st: Stamps)
    requires EntryOk(e) && e.mission.status == Processing
    ensures var s := ResumeSearch(e, true, provider, a, st);
            ClaimedRun(e, s) && !s.Suspended?
  {
    hide AfterSearch, SegmentKeeps, EntryKeeps, ResumeReserve, EntryOk;
    AfterSearchOk(e, true, provider, a.search, st);
    var s := AfterSearch(e, true, provider, a.search, st);
    SegmentKeepsEntry(e, s);
    EntryKeepsOk(e, s.entry);
    if s.Suspended? {
      ResumeReserveOk(s.entry, provider, a, st);
      ClaimedRunFrom(e, s.entry, ResumeReserve(s.entry, provider, a, st));
    }
  }

  lemma ResumeReserveOk(e: Entry, provider: ProviderId, a: Answers, st: Stamps)
    requires EntryOk(e) && e.mission.status == Processing
    ensures var s := ResumeReserve(e, provider, a, st);
            ClaimedRun(e, s) && !s.Suspended?
  {
    hide AfterReserve, AfterAutoConfirm, SegmentKeeps, EntryKeeps, EntryOk;
    AfterReserveOk(e, provider, a.reserve, st);
    var s := AfterReserve(e, provider, a.reserve, st);
    SegmentKeepsEntry(e, s);
    EntryKeepsOk(e, s.entry);
    if s.Suspended? {
      AfterAutoConfirmOk(s.entry, a.autoConfirm, st);
      var t := AfterAutoConfirm(s.entry, a.autoConfirm, st);
      SegmentKeepsEntry(s.entry, t);
      EntryKeepsOk(s.entry, t.entry);
      ClaimedRunFrom(e, s.entry, t);
    }
  }

  /** The one way out of the pass by exception: a connection or timeout error on a mission without budget. */
  predicate EscapesPass(e: Entry, now: Time, a: Answers, st: Stamps) {
    var s := RunWhole(e, now, true, a, st);
    s.Raised? && ShouldRetryException(s.error) && e.mission.HasExhaustedAttempts()
  }

  /** One claimed mission ends in exactly the list its final state asks for. */
  lemma ProcessOneOk(e: Entry, now: Time, policy: RetryPolicy, a: Answers, st: Stamps)
    requires policy.Valid() && ClaimedAt(e, now)
    ensures var (r, verdict) := ProcessOne(e, now, policy, a, st);
            && EntryOk(r) && r.mission.id == e.mission.id
            && r.mission.expiresAt == e.mission.expiresAt && r.mission.executionAttempts == e.mission.executionAttempts
            && LedgerGrows(e.attempts, r.attempts)
            && Settled(r.mission, now, verdict)
            && (verdict.Escaped? <==> EscapesPass(e, now, a, st))
  {
    hide EntryOk, LedgerGrows, RunWhole, AfterDueReturn, AfterDueRaise;
    RunWholeOk(e, now, a, st);
    var s := RunWhole(e, now, true, a, st);
    match s
    case Raised(raised, error) =>
      AfterDueRaiseOk(raised, error, now, policy, st);
      var (r, verdict) := AfterDueRaise(raised, error, now, policy, st);
      LedgerGrowsTransitive(e.attempts, raised.attempts, r.attempts);
    case Returned(ended) =>
      AfterDueReturnOk(ended, now, policy, st);
      var (r, verdict) := AfterDueReturn(ended, now, policy, st);
      LedgerGrowsTransitive(e.attempts, ended.attempts, r.attempts);
    case Suspended(_, _, _) =>
  }

  /** What the list a mission was put in says about it. */
  ghost predicate Settled(m: Mission, now: Time, verdict: Verdict) {
    match verdict
    case SucceededVerdict => m.status in {RequiresConfirmation, Completed}
    case FailedVerdict => m.status == Failed
    case RetryVerdict =>
      && m.status == Waiting && !m.HasExhaustedAttempts()
      && m.scheduledAt.Some? && now <= m.scheduledAt.value && NotPast(m.expiresAt, m.scheduledAt.value)
    case Escaped(error) => error == AttemptsExhausted && m.status == Failed && m.HasExhaustedAttempts()
    case NoVerdict => false
  }

  // ----------------------------------------------------------- the whole pass

  datatype PassResult = PassResult(
    succeeded: seq<MissionId>, failed: seq<MissionId>, retried: seq<MissionId>, escaped: Option<(MissionId, Error)>)

  function File(id: MissionId, verdict: Verdict, rest: PassResult): PassResult {
    match verdict
    case SucceededVerdict => rest.(succeeded := [id] + rest.succeeded)
    case FailedVerdict => rest.(failed := [id] + rest.failed)
    case RetryVerdict => rest.(retried := [id] + rest.retried)
    case Escaped(error) => PassResult([], [], [], Some((id, error)))
    case NoVerdict => rest
  }

  type AllAnswers = MissionId -> Answers

  /** The loop over the claimed missions: each one is run and filed until an exception gets out. */
  function Pass(r: Repo, claimed: seq<MissionId>, now: Time, policy: RetryPolicy, a: AllAnswers, st: AllStamps)
    : (Repo, PassResult)
    requires policy.Valid()
    decreases |claimed|
  {
    if claimed == [] || claimed[0] !in r.entries then (r, PassResult([], [], [], None))
    else
      var id := claimed[0];
      var (e, verdict) := ProcessOne(r.entries[id], now, policy, a(id), st(id));
      var after := r.(entries := r.entries[id := e]);
      if verdict.Escaped? then (after, File(id, verdict, PassResult([], [], [], None)))
      else
        var (last, rest) := Pass(after, claimed[1..], now, policy, a, st);
        (last, File(id, verdict, rest))
  }

  ghost predicate Distinct(ids: seq<MissionId>) {
    forall i, j :: 0 <= i < j < |ids| ==> ids[i] != ids[j]
  }

  ghost predicate AllClaimed(r: Repo, claimed: seq<MissionId>, now: Time) {
    && Distinct(claimed)
    && forall i :: 0 <= i < |claimed| ==> claimed[i] in r.entries && ClaimedAt(r.entries[claimed[i]], now)
  }

  function Filed(p: PassResult): seq<MissionId> {
    p.succeeded + p.failed + p.retried
  }

  /** The verdict a list stands for. */
  ghost predicate Honest(r: Repo, p: PassResult, now: Time) {
    && (forall id :: id in p.succeeded ==> id in r.entries && Settled(r.entries[id].mission, now, SucceededVerdict))
    && (forall id :: id in p.failed ==> id in r.entries && Settled(r.entries[id].mission, now, FailedVerdict))
    && (forall id :: id in p.retried ==> id in r.entries && Settled(r.entries[id].mission, now, RetryVerdict))
    && (p.escaped.Some? ==>
          p.escaped.value.0 in r.entries && Settled(r.entries[p.escaped.value.0].mission, now, Escaped(p.escaped.value.1)))
  }

  ghost predicate SomeEscapes(r: Repo, claimed: seq<MissionId>, now: Time, a: AllAnswers, st: AllStamps)
    requires forall i :: 0 <= i < |claimed| ==> claimed[i] in r.entries
  {
    exists i :: 0 <= i < |claimed| && EscapesPass(r.entries[claimed[i]], now, a(claimed[i]), st(claimed[i]))
  }

  /** The missions a pass got through before an exception, if any, ended it. */
  function Reached(r: Repo, claimed: seq<MissionId>, now: Time, a: AllAnswers, st: AllStamps): (n: nat)
    requires forall i :: 0 <= i < |claimed| ==> claimed[i] in r.entries
    ensures n <= |claimed|
    ensures forall i :: 0 <= i < n ==> !EscapesPass(r.entries[claimed[i]], now, a(claimed[i]), st(claimed[i]))
    ensures n < |claimed| ==> EscapesPass(r.entries[claimed[n]], now, a(claimed[n]), st(claimed[n]))
    decreases |claimed|
  {
    if claimed == [] || EscapesPass(r.entries[claimed[0]], now, a(claimed[0]), st(claimed[0])) then 0
    else 1 + Reached(r, claimed[1..], now, a, st)
  }

  lemma {:induction false} ReachedSame(r: Repo, q: Repo, claimed: seq<MissionId>, now: Time, a: AllAnswers, st: AllStamps)
    requires forall i :: 0 <= i < |claimed| ==>
               claimed[i] in r.entries && claimed[i] in q.entries && r.entries[claimed[i]] == q.entries[claimed[i]]
    ensures Reached(r, claimed, now, a, st) == Reached(q, claimed, now, a, st)
    decreases |claimed|
  {
    hide EscapesPass;
    if claimed != [] {
      ReachedSame(r, q, claimed[1..], now, a, st);
    }
  }

  /** What a pass that reached the first `n` claimed missions leaves and reports. */
  ghost predicate Accounted(r: Repo, claimed: seq<MissionId>, now: Time, last: Repo, p: PassResult, n: nat)
    requires n <= |claimed|
  {
    && RepoOk(last) && last.order == r.order
    && multiset(Filed(p)) == multiset(claimed[..n])
    && Honest(last, p, now)
    && (p.escaped.Some? <==> n < |claimed|)
    && (n < |claimed| ==> p.escaped.value.0 == claimed[n])
    && Untouched(r, last, claimed[..if n < |claimed| then n + 1 else n])
  }

  ghost predicate Untouched(r: Repo, last: Repo, except: seq<MissionId>) {
    r.entries.Keys == last.entries.Keys
    && forall id :: id in r.entries && id !in except ==> last.entries[id] == r.entries[id]
  }

  /**
   Every mission reached is in exactly one list, and that list tells the truth about it; nothing else is
   touched; the pass ends early exactly at the first mission that escapes, which stays failed.
   */
  lemma {:induction false} PassOk(r: Repo, claimed: seq<MissionId>, now: Time, policy: RetryPolicy, a: AllAnswers, st: AllStamps)
    requires policy.Valid() && RepoOk(r) && AllClaimed(r, claimed, now)
    ensures var (last, p) := Pass(r, claimed, now, policy, a, st);
            Accounted(r, claimed, now, last, p, Reached(r, claimed, now, a, st))
    decreases |claimed|
  {
    hide EntryOk, ProcessOne, ClaimedAt, EscapesPass, Settled, Accounted, RepoOk, AllClaimed;
    if claimed == [] {
      NothingClaimed(r, now);
    } else {
      var id := claimed[0];
      Head(r, claimed, now);
      ProcessOneOk(r.entries[id], now, policy, a(id), st(id));
      var (e, verdict) := ProcessOne(r.entries[id], now, policy, a(id), st(id));
      var after := r.(entries := r.entries[id := e]);
      AfterHead(r, claimed, now, e);
      if verdict.Escaped? {
        EscapedAtHead(r, claimed, now, after, verdict.error);
      } else {
        PassOk(after, claimed[1..], now, policy, a, st);
        ReachedSame(r, after, claimed[1..], now, a, st);
        var (last, rest) := Pass(after, claimed[1..], now, policy, a, st);
        FiledAtHead(r, claimed, now, after, verdict, last, rest, Reached(r, claimed[1..], now, a, st));
      }
    }
  }

  lemma NothingClaimed(r: Repo, now: Time)
    requires RepoOk(r)
    ensures Accounted(r, [], now, r, PassResult([], [], [], None), 0)
  {
  }

  lemma Head(r: Repo, claimed: seq<MissionId>, now: Time)
    requires RepoOk(r) && AllClaimed(r, claimed, now) && claimed != []
    ensures claimed[0] in r.entries && ClaimedAt(r.entries[claimed[0]], now)
    ensures forall i :: 0 <= i < |claimed| ==> claimed[i] in r.entries
    ensures forall i :: 0 <= i < |claimed[1..]| ==> claimed[1..][i] != claimed[0]
  {
  }

  lemma AfterHead(r: Repo, claimed: seq<MissionId>, now: Time, e: Entry)
    requires RepoOk(r) && AllClaimed(r, claimed, now) && claimed != []
    requires EntryOk(e) && e.mission.id == r.entries[claimed[0]].mission.id
    ensures var after := r.(entries := r.entries[claimed[0] := e]);
            RepoOk(after) && AllClaimed(after, claimed[1..], now)
  {
    hide ClaimedAt, EntryOk;
  }

  lemma EscapedAtHead(r: Repo, claimed: seq<MissionId>, now: Time, after: Repo, error: Error)
    requires claimed != [] && claimed[0] in r.entries
    requires RepoOk(after) && after.order == r.order && Untouched(r, after, [claimed[0]])
    requires Settled(after.entries[claimed[0]].mission, now, Escaped(error))
    ensures Accounted(r, claimed, now, after, PassResult([], [], [], Some((claimed[0], error))), 0)
  {
    hide Settled, EntryOk;
    assert claimed[..1] == [claimed[0]];
  }

  lemma FiledAtHead(r: Repo, claimed: seq<MissionId>, now: Time, after: Repo, verdict: Verdict, last: Repo, rest: PassResult, n: nat)
    requires claimed != [] && claimed[0] in r.entries && claimed[0] !in claimed[1..]
    requires after.order == r.order && Untouched(r, after, [claimed[0]])
    requires n <= |claimed[1..]| && Accounted(after, claimed[1..], now, last, rest, n)
    requires claimed[0] in after.entries && Settled(after.entries[claimed[0]].mission, now, verdict) && !verdict.Escaped?
    ensures Accounted(r, claimed, now, last, File(claimed[0], verdict, rest), n + 1)
  {
    hide EntryOk, RepoOk, Settled, Honest;
    var id := claimed[0];
    var m := if n < |claimed[1..]| then n + 1 else n;
    assert claimed[..n + 1] == [id] + claimed[1..][..n];
    assert claimed[..m + 1] == [id] + claimed[1..][..m];
    assert id !in claimed[1..][..m];
    assert last.entries[id] == after.entries[id];
    FileKeepsAll(id, verdict, rest, after.entries[id].mission, now);
    FileStaysHonest(last, id, verdict, rest, now);
  }

  lemma FileStaysHonest(last: Repo, id: MissionId, verdict: Verdict, rest: PassResult, now: Time)
    requires Honest(last, rest, now) && id in last.entries && Settled(last.entries[id].mission, now, verdict)
    requires verdict in {SucceededVerdict, FailedVerdict, RetryVerdict}
    ensures Honest(last, File(id, verdict, rest), now)
  {
    hide Settled;
  }

  lemma FileKeepsAll(id: MissionId, verdict: Verdict, rest: PassResult, m: Mission, now: Time)
    requires Settled(m, now, verdict) && !verdict.Escaped?
    ensures verdict in {SucceededVerdict, FailedVerdict, RetryVerdict}
    ensures multiset(Filed(File(id, verdict, rest))) == multiset{id} + multiset(Filed(rest))
    ensures File(id, verdict, rest).escaped == rest.escaped
  {
  }

  // ------------------------------------------------------ process_due_missions

  /** What `claim_due` returns is ready to run, and not one of them is at or past its deadline. */
  lemma ClaimedAreReady(r: Repo, now: Time, limit: nat, st: AllStamps)
    requires RepoOk(r)
    ensures var claimed, after := Picked(r, DueAt(now), limit), Batch(r, DueAt(now), limit, st);
            && AllClaimed(after, claimed, now)
            && forall i :: 0 <= i < |claimed| ==>
                 && after.entries[claimed[i]].mission.claimedAt == Some(now)
                 && (after.entries[claimed[i]].mission.expiresAt.None? || after.entries[claimed[i]].mission.expiresAt.value > now)
  {
    hide EntryOk, RepoOk, Picked, Claim;
    var claimed := Picked(r, DueAt(now), limit);
    BatchOk(r, DueAt(now), limit, st);
    ClaimedOnce(r, now, limit);
    forall i | 0 <= i < |claimed|
      ensures claimed[i] in r.entries && ClaimedAt(Batch(r, DueAt(now), limit, st).entries[claimed[i]], now)
      ensures Ready(Batch(r, DueAt(now), limit, st).entries[claimed[i]].mission, now)
    {
      PickedMatches(r, DueAt(now), limit, claimed[i]);
      PickedIsSound(r, claimed[i]);
      ClaimIsReady(r.entries[claimed[i]], now);
    }
  }

  ghost predicate Ready(m: Mission, now: Time) {
    m.claimedAt == Some(now) && (m.expiresAt.None? || m.expiresAt.value > now)
  }

  lemma ClaimIsReady(e: Entry, now: Time)
    requires EntryOk(e) && Due(e.mission, now)
    ensures ClaimedAt(Claim(e, now), now) && Ready(Claim(e, now).mission, now)
  {
    ClaimOk(e, now);
  }

  lemma PickedIsSound(r: Repo, id: MissionId)
    requires RepoOk(r) && id in r.entries
    ensures EntryOk(r.entries[id])
  {
    hide EntryOk;
  }

  lemma ClaimedOnce(r: Repo, now: Time, limit: nat)
    requires RepoOk(r)
    ensures Distinct(Picked(r, DueAt(now), limit))
  {
    hide EntryOk;
    RankedDistinct(r, DueAt(now));
  }

  /** `process_due_missions`: expire a batch, claim a batch, run what was claimed. */
  function Process(r: Repo, now: Time, limit: nat, policy: RetryPolicy, a: AllAnswers, st: AllStamps): (Repo, PassResult)
    requires policy.Valid()
  {
    var expired := Batch(r, ExpiryDueAt(now), limit, st);
    Pass(Batch(expired, DueAt(now), limit, st), Picked(expired, DueAt(now), limit), now, policy, a, st)
  }

  /**
   The due pass: the repository stays sound; when the pass returns, every claimed mission is in exactly one of
   the three lists and the lists add up to the number claimed; it fails to return exactly when a claimed
   mission without budget meets a connection or timeout error, and that mission then stays failed.  Missions that
   were not claimed are left alone.
   */
  lemma DuePassClassifies(r: Repo, now: Time, limit: nat, policy: RetryPolicy, a: AllAnswers, st: AllStamps)
    requires policy.Valid() && RepoOk(r)
    ensures var expired := Batch(r, ExpiryDueAt(now), limit, st);
            var claimed, started := Picked(expired, DueAt(now), limit), Batch(expired, DueAt(now), limit, st);
            var (last, p) := Process(r, now, limit, policy, a, st);
            && RepoOk(last) && Honest(last, p, now)
            && AllClaimed(started, claimed, now)
            && Untouched(started, last, claimed)
            && (p.escaped.None? ==>
                  && multiset(Filed(p)) == multiset(claimed)
                  && Distinct(Filed(p))
                  && |p.succeeded| + |p.failed| + |p.retried| == |claimed|)
            && (p.escaped.Some? <==> SomeEscapes(started, claimed, now, a, st))
            && (p.escaped.Some? ==> p.escaped.value.0 in claimed && p.escaped.value.1 == AttemptsExhausted)
  {
    hide EntryOk, RepoOk, Batch, Picked, Pass, ClaimedAt, EscapesPass, Settled;
    var expired := Batch(r, ExpiryDueAt(now), limit, st);
    BatchOk(r, ExpiryDueAt(now), limit, st);
    BatchOk(expired, DueAt(now), limit, st);
    ClaimedAreReady(expired, now, limit, st);
    var claimed, started := Picked(expired, DueAt(now), limit), Batch(expired, DueAt(now), limit, st);
    PassOk(started, claimed, now, policy, a, st);
    var (last, p) := Process(r, now, limit, policy, a, st);
    var n := Reached(started, claimed, now, a, st);
    if n == |claimed| {
      assert claimed[..n] == claimed;
      SameItemsDistinct(claimed, Filed(p));
    } else {
      EscapeError(last, p, now);
    }
  }

  lemma EscapeError(last: Repo, p: PassResult, now: Time)
    requires Honest(last, p, now) && p.escaped.Some?
    ensures p.escaped.value.1 == AttemptsExhausted
  {
  }

  lemma SameItemsDistinct(s: seq<MissionId>, t: seq<MissionId>)
    requires Distinct(s) && multiset(s) == multiset(t)
    ensures Distinct(t) && |t| == |s|
  {
    assert |multiset(t)| == |multiset(s)|;
    forall i, j | 0 <= i < j < |t|
      ensures t[i] != t[j]
    {
      if t[i] == t[j] {
        assert t == t[..i] + [t[i]] + t[i + 1..j] + [t[j]] + t[j + 1..];
        AtMostOnce(s, t[i]);
        assert false;
      }
    }
  }

  lemma {:induction false} AtMostOnce(s: seq<MissionId>, x: MissionId)
    requires Distinct(s)
    ensures multiset(s)[x] <= 1
  {
    if s != [] {
      assert s == [s[0]] + s[1..];
      AtMostOnce(s[1..], x);
      if s[0] == x {
        assert x !in s[1..];
      }
    }
  }
}
