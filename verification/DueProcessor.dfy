/**
 `process_due_missions` over the repository and its objects (app/services/due_mission_processor.py): every
 method leaves what the function of DuePass says.
 */
module DueProcessor {
  import opened Wrappers
  import opened MissionDomain
  import S = MissionSteps
  import opened MissionSteps
  import opened MissionInvariants
  import opened MissionBatches
  import opened MissionObjects
  import E = MissionEngine
  import P = DuePass
  import opened DuePass
  import opened Backoff

  /** `run_mission` when nobody else touches the mission between its provider calls. */
  method RunMission(repo: MissionRepository, mission: MissionObject, now: Time, allowProcessing: bool, a: Answers, st: Stamps)
    returns (stop: E.Stop)
    requires repo.Valid() && repo.IsAt(mission, mission.id)
    modifies repo, mission
    ensures E.Ending(E.EntryOf(repo, mission), stop) == RunWhole(old(E.EntryOf(repo, mission)), now, allowProcessing, a, st)
    ensures E.OnlyThis(repo, mission, false)
  {
    hide S.StartRun, S.AfterSearch, S.AfterReserve, S.AfterAutoConfirm, P.ResumeSearch;
    var processing := mission.status == Processing;
    stop := E.StartRun(repo, mission, now, allowProcessing, a.resolution, a.participantsFound, st);
    if stop.Calls? {
      stop := ResumeSearch(repo, mission, processing, stop.provider, a, st);
    }
  }

  method ResumeSearch(repo: MissionRepository, mission: MissionObject, processing: bool, provider: ProviderId, a: Answers, st: Stamps)
    returns (stop: E.Stop)
    requires repo.Valid() && repo.IsAt(mission, mission.id)
    modifies repo, mission
    ensures E.Ending(E.EntryOf(repo, mission), stop)
         == P.ResumeSearch(old(E.EntryOf(repo, mission)), processing, provider, a, st)
    ensures E.OnlyThis(repo, mission, false)
  {
    hide S.AfterSearch, S.AfterReserve, S.AfterAutoConfirm;
    stop := E.AfterSearch(repo, mission, processing, provider, a.search, st);
    if stop.Calls? {
      stop := E.AfterReserve(repo, mission, provider, a.reserve, st);
      if stop.Calls? {
        stop := E.AfterAutoConfirm(repo, mission, a.autoConfirm, st);
      }
    }
  }

  /** `_schedule_automatic_retry`. */
  method ScheduleAutomaticRetry(repo: MissionRepository, mission: MissionObject, now: Time, policy: RetryPolicy, st: Stamps)
    returns (r: Result<(), Error>)
    requires policy.Valid() && repo.Valid() && repo.IsAt(mission, mission.id)
    modifies repo, mission
    ensures E.Serves(AutomaticRetry(old(E.EntryOf(repo, mission)), now, policy, st),
                     old(E.EntryOf(repo, mission)), E.EntryOf(repo, mission), r)
    ensures E.OnlyThis(repo, mission, false)
  {
    hide S.RetryMission, CappedDelay;
    if mission.executionAttempts < 1 {
      return Failure(BadAttemptNumber);
    }
    var delay := DelayAfterAttempt(policy, mission.executionAttempts);
    var retryAt := now + delay.value;
    if mission.expiresAt.Some? {
      retryAt := Min(retryAt, mission.expiresAt.value);
    }
    r := E.RetryMission(repo, mission, Some(retryAt), now, st);
  }

  /** The body of the loop for one claimed mission. */
  method ProcessMission(repo: MissionRepository, mission: MissionObject, now: Time, policy: RetryPolicy, a: Answers, st: Stamps)
    returns (verdict: Verdict)
    requires policy.Valid() && repo.Valid() && repo.IsAt(mission, mission.id)
    modifies repo, mission
    ensures (E.EntryOf(repo, mission), verdict) == ProcessOne(old(E.EntryOf(repo, mission)), now, policy, a, st)
    ensures E.OnlyThis(repo, mission, false)
  {
    hide RunWhole, AutomaticRetry, MarkFailed, RecordTerminalFailure;
    var stop := RunMission(repo, mission, now, true, a, st);
    match stop
    case Raises(error) =>
      E.MarkClaimedMissionFailed(repo, mission, st);
      if !ShouldRetryException(error) {
        return FailedVerdict;
      }
      var retried := ScheduleAutomaticRetry(repo, mission, now, policy, st);
      return if retried.Success? then RetryVerdict else Escaped(retried.error);
    case _ =>
      if mission.status == RequiresConfirmation || mission.status == Completed {
        return SucceededVerdict;
      }
      if mission.status != Failed {
        return NoVerdict;
      }
      if ShouldRetryLast(mission) {
        var retried := ScheduleAutomaticRetry(repo, mission, now, policy, st);
        return if retried.Success? then RetryVerdict else Escaped(retried.error);
      }
      E.RecordTerminalFailure(repo, mission, now, st);
      return FailedVerdict;
  }

  /** `should_retry_mission` on the object. */
  predicate ShouldRetryLast(mission: MissionObject)
    reads mission
  {
    && mission.executionAttempts < mission.maxExecutionAttempts
    && mission.executionLog != []
    && (var last := mission.executionLog[|mission.executionLog| - 1].kind;
        last == NoValidOptionFound || last == ProviderOperationFailed(true))
  }

  /** What `process_due_missions` returns. */
  datatype Report = Report(
    processedCount: nat, expired: seq<MissionId>, succeeded: seq<MissionId>, failed: seq<MissionId>, retried: seq<MissionId>)

  /** The lists filled so far, before those of the rest of the pass. */
  function Before(done: PassResult, rest: PassResult): PassResult {
    PassResult(done.succeeded + rest.succeeded, done.failed + rest.failed, done.retried + rest.retried, rest.escaped)
  }

  /** The loop over the claimed missions; the exception that ends it is the `escaped` field. */
  method ProcessClaimed(repo: MissionRepository, claimed: seq<MissionObject>, ids: seq<MissionId>, now: Time,
                        policy: RetryPolicy, a: AllAnswers, st: AllStamps)
    returns (result: PassResult)
    requires policy.Valid() && repo.Valid()
    requires |claimed| == |ids| && forall k :: 0 <= k < |ids| ==> repo.IsAt(claimed[k], ids[k])
    modifies repo, repo.missions.Values
    ensures repo.Valid() && (repo.State(), result) == Pass(old(repo.State()), ids, now, policy, a, st)
  {
    hide Pass, Before, FileLast, File, ProcessOne;
    result := PassResult([], [], [], None);
    ghost var whole := Pass(repo.State(), ids, now, policy, a, st);
    BeforeNothing(whole.1);
    assert ids[0..] == ids;
    var i := 0;
    while i < |claimed|
      invariant 0 <= i <= |claimed| && repo.Valid() && repo.missions == old(repo.missions) && result.escaped.None?
      invariant var rest := Pass(repo.State(), ids[i..], now, policy, a, st);
                whole == (rest.0, Before(result, rest.1))
    {
      ghost var before := repo.State();
      PassHead(before, ids[i..], now, policy, a, st);
      assert ids[i..][1..] == ids[i + 1..];
      var verdict := ProcessNext(repo, claimed[i], ids[i], now, policy, a(ids[i]), st(ids[i]), before);
      if verdict.Escaped? {
        EscapeLast(result, ids[i], verdict.error);
        result := result.(escaped := Some((ids[i], verdict.error)));
        return;
      }
      FileThenRest(result, ids[i], verdict, Pass(repo.State(), ids[i + 1..], now, policy, a, st).1);
      result := FileLast(result, ids[i], verdict);
      i := i + 1;
    }
    assert ids[i..] == [];
    PassNothing(repo.State(), now, policy, a, st);
    NothingAfter(result);
  }

  /** Append to the list the verdict names. */
  function FileLast(result: PassResult, id: MissionId, verdict: Verdict): PassResult {
    match verdict
    case SucceededVerdict => result.(succeeded := result.succeeded + [id])
    case FailedVerdict => result.(failed := result.failed + [id])
    case RetryVerdict => result.(retried := result.retried + [id])
    case _ => result
  }

  /** Appending as the loop goes builds the lists that prepending from the back defines. */
  lemma FileThenRest(result: PassResult, id: MissionId, verdict: Verdict, rest: PassResult)
    requires !verdict.Escaped?
    ensures Before(result, File(id, verdict, rest)) == Before(FileLast(result, id, verdict), rest)
    ensures FileLast(result, id, verdict).escaped == result.escaped
  {
  }

  lemma EscapeLast(result: PassResult, id: MissionId, error: Error)
    ensures Before(result, PassResult([], [], [], Some((id, error)))) == result.(escaped := Some((id, error)))
  {
  }

  lemma BeforeNothing(rest: PassResult)
    ensures Before(PassResult([], [], [], None), rest) == rest
  {
  }

  lemma NothingAfter(result: PassResult)
    requires result.escaped.None?
    ensures Before(result, PassResult([], [], [], None)) == result
  {
  }

  lemma PassNothing(r: Repo, now: Time, policy: RetryPolicy, a: AllAnswers, st: AllStamps)
    requires policy.Valid()
    ensures Pass(r, [], now, policy, a, st) == (r, PassResult([], [], [], None))
  {
  }

  /** One turn of the loop, seen in the whole repository. */
  method ProcessNext(repo: MissionRepository, mission: MissionObject, id: MissionId, now: Time,
                     policy: RetryPolicy, a: Answers, st: Stamps, ghost before: Repo)
    returns (verdict: Verdict)
    requires policy.Valid() && repo.Valid() && repo.IsAt(mission, id) && before == repo.State()
    modifies repo, mission
    ensures repo.Valid() && repo.missions == old(repo.missions)
    ensures verdict == ProcessOne(before.entries[id], now, policy, a, st).1
    ensures repo.State() == before.(entries := before.entries[id := ProcessOne(before.entries[id], now, policy, a, st).0])
  {
    hide ProcessOne;
    label running:
    verdict := ProcessMission(repo, mission, now, policy, a, st);
    repo.OthersUntouched@running(mission);
  }

  lemma PassHead(r: Repo, ids: seq<MissionId>, now: Time, policy: RetryPolicy, a: AllAnswers, st: AllStamps)
    requires policy.Valid() && ids != [] && ids[0] in r.entries
    ensures var (e, verdict) := ProcessOne(r.entries[ids[0]], now, policy, a(ids[0]), st(ids[0]));
            var after := r.(entries := r.entries[ids[0] := e]);
            Pass(r, ids, now, policy, a, st) ==
            if verdict.Escaped? then (after, PassResult([], [], [], Some((ids[0], verdict.error))))
            else
              var (last, rest) := Pass(after, ids[1..], now, policy, a, st);
              (last, File(ids[0], verdict, rest))
  {
    hide ProcessOne;
  }

  /**
   What the pass reports is what it left: it expired what was over and claimed what was due; every claimed mission is
   reported once, as succeeded, failed or waiting for a retry that comes neither too early nor after the deadline; and the
   others are as claiming left them.
   */
  ghost predicate ReportsWhatItLeft(before: Repo, now: Time, limit: nat, report: Report, claimed: seq<MissionId>,
                                    expired: Repo, started: Repo, after: Repo)
  {
    && ExpiresWhatIsOver(before, now, limit, report.expired, expired)
    && ClaimsWhatIsDue(expired, now, limit, claimed, started)
    && report.processedCount == |claimed|
    && multiset(report.succeeded + report.failed + report.retried) == multiset(claimed)
    && after.entries.Keys == before.entries.Keys
    && (forall id :: id in report.succeeded ==>
          id in after.entries && after.entries[id].mission.status in {RequiresConfirmation, Completed})
    && (forall id :: id in report.failed ==> id in after.entries && after.entries[id].mission.status == Failed)
    && (forall id :: id in report.retried ==>
          && id in after.entries
          && var m := after.entries[id].mission;
             && m.status == Waiting && m.executionAttempts < m.maxExecutionAttempts
             && m.scheduledAt.Some? && now <= m.scheduledAt.value
             && (m.expiresAt.None? || m.scheduledAt.value <= m.expiresAt.value))
    && (forall id :: id in started.entries && id !in claimed ==> id in after.entries && after.entries[id] == started.entries[id])
  }

  /** An exception leaves the pass with a claimed mission that failed on its last attempt. */
  ghost predicate LeavesExhausted(before: Repo, now: Time, limit: nat, expiredIds: seq<MissionId>, claimed: seq<MissionId>,
                                  expired: Repo, started: Repo, after: Repo, error: ProcessError)
  {
    && ExpiresWhatIsOver(before, now, limit, expiredIds, expired)
    && ClaimsWhatIsDue(expired, now, limit, claimed, started)
    && error.EscapedFrom? && error.error == AttemptsExhausted && error.id in claimed && error.id in after.entries
    && after.entries[error.id].mission.status == Failed
    && after.entries[error.id].mission.executionAttempts >= after.entries[error.id].mission.maxExecutionAttempts
  }

  /** `process_due_missions`; the limit is checked by both repository calls. */
  method ProcessDueMissions(repo: MissionRepository, now: Time, limit: int, policy: RetryPolicy, a: AllAnswers, st: AllStamps)
    returns (r: Result<Report, ProcessError>, ghost expiredIds: seq<MissionId>, ghost claimedIds: seq<MissionId>,
             ghost afterExpiry: Repo, ghost started: Repo)
    requires policy.Valid() && repo.Valid() && RepoOk(repo.State())
    modifies repo, repo.missions.Values
    ensures repo.Valid()
    ensures limit <= 0 <==> r == Failure(BadLimit)
    ensures limit <= 0 ==> repo.State() == old(repo.State())
    ensures limit > 0 ==> repo.State() == Process(old(repo.State()), now, limit, policy, a, st).0
    ensures r.Success? ==>
              ReportsWhatItLeft(old(repo.State()), now, limit, r.value, claimedIds, afterExpiry, started, repo.State())
    ensures r.Failure? && limit > 0 ==>
              LeavesExhausted(old(repo.State()), now, limit, expiredIds, claimedIds, afterExpiry, started, repo.State(), r.error)
  {
    hide Batch, RepoOk, Pass, Picked, ReportsWhatItLeft, LeavesExhausted, ExpiresWhatIsOver, ClaimsWhatIsDue;
    ghost var before := repo.State();
    expiredIds, claimedIds, afterExpiry, started := [], [], before, before;
    var expired := repo.ExpireDue(now, limit, st);
    if expired.Failure? {
      return Failure(BadLimit), [], [], before, before;
    }
    expiredIds := IdsOf(expired.value);
    BatchOk(before, ExpiryDueAt(now), limit, st);
    afterExpiry := repo.State();
    var claimed := repo.ClaimDue(now, limit, st);
    started := repo.State();
    var ids := IdsOf(claimed.value);
    claimedIds := ids;
    var reported := IdsOf(expired.value);
    var result := ProcessClaimed(repo, claimed.value, ids, now, policy, a, st);
    PassIsReported(before, now, limit, policy, a, st, ids, result);
    if result.escaped.Some? {
      r := Failure(EscapedFrom(result.escaped.value.0, result.escaped.value.1));
    } else {
      r := Success(Report(|claimed.value|, reported, result.succeeded, result.failed, result.retried));
    }
  }

  datatype ProcessError = BadLimit | EscapedFrom(id: MissionId, error: Error)

  lemma PassIsReported(before: Repo, now: Time, limit: nat, policy: RetryPolicy, a: AllAnswers, st: AllStamps,
                       ids: seq<MissionId>, result: PassResult)
    requires policy.Valid() && RepoOk(before)
    requires ids == Picked(Batch(before, ExpiryDueAt(now), limit, st), DueAt(now), limit)
    requires result == Process(before, now, limit, policy, a, st).1
    ensures var afterExpiry := Batch(before, ExpiryDueAt(now), limit, st);
            var started, after := Batch(afterExpiry, DueAt(now), limit, st), Process(before, now, limit, policy, a, st).0;
            var expiredIds := Picked(before, ExpiryDueAt(now), limit);
            && (result.escaped.None? ==>
                  ReportsWhatItLeft(before, now, limit,
                                    Report(|ids|, expiredIds, result.succeeded, result.failed, result.retried),
                                    ids, afterExpiry, started, after))
            && (result.escaped.Some? ==>
                  LeavesExhausted(before, now, limit, expiredIds, ids, afterExpiry, started, after,
                                  EscapedFrom(result.escaped.value.0, result.escaped.value.1)))
  {
    hide Batch, RepoOk, Pass, Picked, ExpiresWhatIsOver, ClaimsWhatIsDue, Process, Honest, AllClaimed, SomeEscapes, Distinct,
         Untouched, Settled;
    var afterExpiry := Batch(before, ExpiryDueAt(now), limit, st);
    BatchOk(before, ExpiryDueAt(now), limit, st);
    ExpiryKeepsPromise(before, now, limit, st);
    ClaimsKeepPromise(afterExpiry, now, limit, st);
    SameKeys(before, ExpiryDueAt(now), limit, st);
    SameKeys(afterExpiry, DueAt(now), limit, st);
    DuePassClassifies(before, now, limit, policy, a, st);
    var started, after := Batch(afterExpiry, DueAt(now), limit, st), Process(before, now, limit, policy, a, st).0;
    Others(started, after, ids);
    HonestFields(after, result, now);
  }

  lemma Others(started: Repo, after: Repo, claimed: seq<MissionId>)
    requires Untouched(started, after, claimed)
    ensures after.entries.Keys == started.entries.Keys
    ensures forall id :: id in started.entries && id !in claimed ==> id in after.entries && after.entries[id] == started.entries[id]
  {
    forall id | id in started.entries && id !in claimed
      ensures id in after.entries
    {
      assert id in started.entries.Keys;
    }
  }

  lemma HonestFields(after: Repo, p: PassResult, now: Time)
    requires Honest(after, p, now)
    ensures forall id :: id in p.succeeded ==>
              id in after.entries && after.entries[id].mission.status in {RequiresConfirmation, Completed}
    ensures forall id :: id in p.failed ==> id in after.entries && after.entries[id].mission.status == Failed
    ensures forall id :: id in p.retried ==>
              && id in after.entries
              && var m := after.entries[id].mission;
                 && m.status == Waiting && m.executionAttempts < m.maxExecutionAttempts
                 && m.scheduledAt.Some? && now <= m.scheduledAt.value
                 && (m.expiresAt.None? || m.scheduledAt.value <= m.expiresAt.value)
    ensures p.escaped.Some? ==>
              && p.escaped.value.0 in after.entries
              && var m := after.entries[p.escaped.value.0].mission;
                 m.status == Failed && m.executionAttempts >= m.maxExecutionAttempts
  {
  }

  lemma SameKeys(r: Repo, q: Query, limit: nat, st: AllStamps)
    ensures Batch(r, q, limit, st).entries.Keys == r.entries.Keys
  {
    hide Picked, Act;
  }
}
