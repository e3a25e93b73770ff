/**
 The mission object and the repository that hands it out, updated in place
 (app/domain/mission.py, app/services/mission_state_machine.py, app/storage/memory.py).  Every method is proved
 to be the pure operation of MissionSteps or MissionBatches on the values the objects hold.
 */
module MissionObjects {
  import opened Wrappers
  import opened Sorting
  import opened Backoff
  import D = MissionDomain
  import opened MissionDomain
  import opened MissionSteps
  import opened MissionInvariants
  import opened MissionBatches

  datatype ArgumentError = InvalidLimit | InvalidClaimTimeout

  class MissionObject {
    const id: MissionId
    var title: string
    var fallbackRules: nat
    var mode: Mode
    var providerId: Option<ProviderId>
    var resolvedProviderId: Option<ProviderId>
    var reservationId: Option<ReservationId>
    var bestOption: Option<nat>
    var status: Status
    var scheduledAt: Option<Time>
    const expiresAt: Option<Time>
    var claimedAt: Option<Time>
    var executionAttempts: nat
    var maxExecutionAttempts: nat
    var lastEventSequence: nat
    var executionLog: seq<Event>
    ghost var trail: seq<Visit>

    ghost function View(): Mission
      reads this
    {
      Mission(id, title, fallbackRules, mode, providerId, resolvedProviderId, reservationId, bestOption,
              status, scheduledAt, expiresAt, claimedAt, executionAttempts, maxExecutionAttempts,
              lastEventSequence, executionLog, trail)
    }

    constructor (id: MissionId, title: string, mode: Mode, providerId: Option<ProviderId>,
                 scheduledAt: Option<Time>, expiresAt: Option<Time>, maxExecutionAttempts: nat)
      ensures View() == Mission(
                id, title, 0, mode, providerId, None, None, None,
                if scheduledAt.Some? then Waiting else Created, scheduledAt, expiresAt, None,
                0, maxExecutionAttempts, 0, [], [Visit(if scheduledAt.Some? then Waiting else Created, Creation)])
    {
      this.id, this.title, this.mode, this.providerId := id, title, mode, providerId;
      this.scheduledAt, this.expiresAt, this.maxExecutionAttempts := scheduledAt, expiresAt, maxExecutionAttempts;
      this.fallbackRules, this.executionAttempts, this.lastEventSequence := 0, 0, 0;
      this.resolvedProviderId, this.reservationId, this.bestOption, this.claimedAt := None, None, None, None;
      this.executionLog := [];
      this.status := if scheduledAt.Some? then Waiting else Created;
      this.trail := [Visit(if scheduledAt.Some? then Waiting else Created, Creation)];
    }

    /** `with_provider_selection` for a changed choice: a deep copy of the mission. */
    constructor WithProviderSelection(m: MissionObject, provider: Option<ProviderId>)
      ensures View() == m.View().(providerId := provider, resolvedProviderId := None, reservationId := None)
    {
      id, title, fallbackRules, mode, expiresAt := m.id, m.title, m.fallbackRules, m.mode, m.expiresAt;
      providerId, resolvedProviderId, reservationId, bestOption := provider, None, None, m.bestOption;
      status, scheduledAt, claimedAt := m.status, m.scheduledAt, m.claimedAt;
      executionAttempts, maxExecutionAttempts := m.executionAttempts, m.maxExecutionAttempts;
      lastEventSequence, executionLog, trail := m.lastEventSequence, m.executionLog, m.trail;
    }

    /** `record_event`. */
    method Record(eventId: EventId, timestamp: Time, kind: EventKind) returns (r: Result<Event, EventIdError>)
      modifies this
      ensures match D.RecordEvent(old(View()), eventId, timestamp, kind) {
                case Success(after) => View() == after && r == Success(after.log[|after.log| - 1])
                case Failure(error) => View() == old(View()) && r == Failure(error)
              }
    {
      if eventId == 0 {
        return Failure(NilEventId);
      }
      if HasEventId(executionLog, eventId) {
        return Failure(DuplicateEventId);
      }
      var event: Event;
      if executionLog != [] {
        var previous := executionLog[|executionLog| - 1];
        event := Event(eventId, previous.correlationId, Some(previous.eventId), lastEventSequence + 1, timestamp, kind);
      } else {
        event := Event(eventId, eventId, None, lastEventSequence + 1, timestamp, kind);
      }
      executionLog := executionLog + [event];
      lastEventSequence := event.sequence;
      return Success(event);
    }

    /** `_add_event` with an identifier and a time from the environment. */
    method AddEvent(kind: EventKind, st: Stamps)
      modifies this
      ensures View() == Emit(old(View()), kind, st) && executionLog != []
    {
      AddEventAt(kind, st, st(lastEventSequence + 1).time);
    }

    method AddEventAt(kind: EventKind, st: Stamps, timestamp: Time)
      modifies this
      ensures View() == EmitAt(old(View()), kind, st, timestamp) && executionLog != []
    {
      EmitIsRecordEvent(View(), kind, st, timestamp);
      var eventId := DrawEventId(executionLog, st(lastEventSequence + 1).id);
      var recorded := Record(eventId, timestamp, kind);
    }

    /** `MissionStateMachine.transition`; the exception is the `false` result. */
    method MoveTo(target: Status, cause: Cause) returns (ok: bool)
      modifies this
      ensures match D.Transition(old(View()), target, cause) {
                case Success(after) => ok && View() == after
                case Failure(_) => !ok && View() == old(View())
              }
    {
      if !CanTransition(status, target, cause == ByRecovery, cause == ByRetry) {
        return false;
      }
      status := target;
      claimedAt := None;
      trail := trail + [Visit(target, cause)];
      return true;
    }
  }

  function IdsOf(missions: seq<MissionObject>): (ids: seq<MissionId>)
    ensures |ids| == |missions|
  {
    seq(|missions|, i requires 0 <= i < |missions| => missions[i].id)
  }

  /** `InMemoryMissionRepository`: `order` is the insertion order of the dictionary `_missions`. */
  class MissionRepository {
    var order: seq<MissionId>
    var missions: map<MissionId, MissionObject>
    var executionAttempts: map<MissionId, seq<Attempt>>

    ghost predicate Valid()
      reads this
    {
      && (forall id :: id in order <==> id in missions)
      && (forall i, j :: 0 <= i < j < |order| ==> order[i] != order[j])
      && (forall id :: id in missions ==> missions[id].id == id)
    }

    function AttemptsOf(id: MissionId): seq<Attempt>
      reads this
    {
      if id in executionAttempts then executionAttempts[id] else []
    }

    ghost function EntryAt(id: MissionId): Entry
      requires id in missions
      reads this, missions[id]
    {
      Entry(missions[id].View(), AttemptsOf(id))
    }

    ghost function State(): Repo
      reads this, missions.Values
    {
      Repo(order, map id | id in missions :: EntryAt(id))
    }

    constructor ()
      ensures Valid() && State() == Repo([], map[])
    {
      order, missions, executionAttempts := [], map[], map[];
    }

    method Get(id: MissionId) returns (mission: Option<MissionObject>)
      requires Valid()
      ensures mission == if id in missions then Some(missions[id]) else None
    {
      mission := if id in missions then Some(missions[id]) else None;
    }

    /** `_close_execution_attempt`. */
    method CloseExecutionAttempt(mission: MissionObject, finishedAt: Time, attemptStatus: AttemptStatus)
      modifies this`executionAttempts
      ensures AttemptsOf(mission.id) == CloseLast(mission.View(), old(AttemptsOf(mission.id)), finishedAt, attemptStatus)
      ensures forall other :: other != mission.id ==> AttemptsOf(other) == old(AttemptsOf(other))
    {
      var attempts := AttemptsOf(mission.id);
      if attempts == [] || attempts[|attempts| - 1].status != AttemptProcessing {
        return;
      }
      var attempt := attempts[|attempts| - 1];
      executionAttempts := executionAttempts[mission.id := attempts[|attempts| - 1 := attempt.(
        status := attemptStatus, finishedAt := Some(finishedAt),
        resolvedProviderId := mission.resolvedProviderId, reservationId := mission.reservationId)]];
    }

    /** `_set_open_attempt_provider`. */
    method SetOpenAttemptProvider(mission: MissionObject)
      modifies this`executionAttempts
      ensures AttemptsOf(mission.id) == SetOpenProvider(mission.View(), old(AttemptsOf(mission.id)))
      ensures forall other :: other != mission.id ==> AttemptsOf(other) == old(AttemptsOf(other))
    {
      var attempts := AttemptsOf(mission.id);
      if attempts == [] || mission.resolvedProviderId.None? || attempts[|attempts| - 1].status != AttemptProcessing {
        return;
      }
      var attempt := attempts[|attempts| - 1];
      executionAttempts := executionAttempts[mission.id :=
        attempts[|attempts| - 1 := attempt.(resolvedProviderId := mission.resolvedProviderId)]];
    }

    /** `create`, and the last line of `update`: file the object under its id. */
    method Create(mission: MissionObject)
      requires Valid()
      modifies this`order, this`missions
      ensures Valid()
      ensures missions == old(missions)[mission.id := mission]
      ensures order == if mission.id in old(missions) then old(order) else old(order) + [mission.id]
    {
      if mission.id !in missions {
        order := order + [mission.id];
      }
      missions := missions[mission.id := mission];
    }

    /** `update`: bring the ledger up to date and store the object, whichever one it is. */
    method Update(mission: MissionObject)
      requires Valid()
      requires ClosingStatus(mission.status).Some? ==> mission.executionLog != []
      modifies this
      ensures Valid()
      ensures missions == old(missions)[mission.id := mission]
      ensures order == if mission.id in old(missions) then old(order) else old(order) + [mission.id]
      ensures AttemptsOf(mission.id) == UpdateLedger(mission.View(), old(AttemptsOf(mission.id)))
      ensures forall other :: other != mission.id ==> AttemptsOf(other) == old(AttemptsOf(other))
    {
      hide CloseLast, SetOpenProvider;
      if mission.status == Processing {
        SetOpenAttemptProvider(mission);
      } else if mission.status == RequiresConfirmation || mission.status == Completed || mission.status == Failed {
        var attemptStatus := match mission.status
          case RequiresConfirmation => AttemptRequiresConfirmation
          case Completed => AttemptCompleted
          case _ => AttemptFailed;
        CloseExecutionAttempt(mission, mission.executionLog[|mission.executionLog| - 1].timestamp, attemptStatus);
      }
      Create(mission);
    }

    // ------------------------------------------------------------- batches

    /** The missions a query selects, as the list comprehension over `_missions.values()` finds them. */
    method Select(q: Query) returns (candidates: seq<Keyed<MissionId>>)
      requires Valid()
      ensures candidates == Candidates(order, State().entries, q)
    {
      candidates := [];
      var i := |order|;
      assert order[|order|..] == [];
      while i > 0
        invariant 0 <= i <= |order|
        invariant candidates == Candidates(order[i..], State().entries, q)
      {
        i := i - 1;
        assert order[i..][1..] == order[i + 1..];
        assert order[i] in missions && State().entries[order[i]].mission == missions[order[i]].View();
        var key := Key(missions[order[i]], q);
        if key.Some? {
          candidates := [Keyed(key.value, 0, order[i])] + candidates;
        }
      }
      assert order[0..] == order;
    }

    method Key(mission: MissionObject, q: Query) returns (key: Option<Time>)
      ensures key == KeyOf(mission.View(), q)
    {
      key := None;
      match q
      case DueAt(now) =>
        if mission.status == Waiting && mission.scheduledAt.Some? && mission.scheduledAt.value <= now
           && (mission.expiresAt.None? || mission.expiresAt.value > now)
           && mission.executionAttempts < mission.maxExecutionAttempts {
          key := mission.scheduledAt;
        }
      case ExpiryDueAt(now) =>
        if Expirable(mission.status) && mission.expiresAt.Some? && mission.expiresAt.value <= now {
          key := mission.expiresAt;
        }
      case StaleAt(now, claimTimeout) =>
        if mission.status == Processing && mission.claimedAt.Some? && mission.claimedAt.value <= now - claimTimeout {
          key := mission.claimedAt;
        }
    }

    method ClaimOne(mission: MissionObject, now: Time)
      modifies this`executionAttempts, mission
      ensures Entry(mission.View(), AttemptsOf(mission.id)) == Claim(old(Entry(mission.View(), AttemptsOf(mission.id))), now)
      ensures forall other :: other != mission.id ==> AttemptsOf(other) == old(AttemptsOf(other))
    {
      mission.status := Processing;
      mission.claimedAt := Some(now);
      mission.executionAttempts := mission.executionAttempts + 1;
      mission.trail := mission.trail + [Visit(Processing, ByClaim)];
      var attempt := Attempt(mission.executionAttempts, AttemptProcessing, now, None, None, None);
      executionAttempts := executionAttempts[mission.id := AttemptsOf(mission.id) + [attempt]];
    }

    method ExpireOne(mission: MissionObject, now: Time, st: Stamps)
      requires Expirable(mission.status)
      modifies mission
      ensures mission.View() == Expire(old(mission.View()), now, st)
    {
      hide EmitAt;
      var moved := mission.MoveTo(Expired, ByTable);
      mission.AddEventAt(MissionExpired, st, now);
    }

    /** `recover_stale`, and the closing of the attempt. */
    method RecoverOne(mission: MissionObject, now: Time, st: Stamps)
      requires mission.status == Processing
      modifies this`executionAttempts, mission
      ensures Entry(mission.View(), AttemptsOf(mission.id)) == Recover(old(Entry(mission.View(), AttemptsOf(mission.id))), now, st)
      ensures forall other :: other != mission.id ==> AttemptsOf(other) == old(AttemptsOf(other))
    {
      hide EmitAt, CloseLast;
      var target := if mission.executionAttempts >= mission.maxExecutionAttempts then Failed else Waiting;
      var moved := mission.MoveTo(target, ByRecovery);
      mission.AddEventAt(ClaimRecovered(target == Failed), st, now);
      CloseExecutionAttempt(mission, now, if mission.status == Failed then AttemptFailed else AttemptRecovered);
    }

    /** The body of the three batch loops for one mission. */
    method ActOn(mission: MissionObject, q: Query, st: Stamps)
      requires KeyOf(mission.View(), q).Some?
      modifies this`executionAttempts, mission
      ensures Entry(mission.View(), AttemptsOf(mission.id)) == Act(old(Entry(mission.View(), AttemptsOf(mission.id))), q, st)
      ensures forall other :: other != mission.id ==> AttemptsOf(other) == old(AttemptsOf(other))
    {
      hide Claim, Expire, Recover;
      match q
      case DueAt(now) => ClaimOne(mission, now);
      case ExpiryDueAt(now) => ExpireOne(mission, now, st);
      case StaleAt(now, _) => RecoverOne(mission, now, st);
    }

    /** One batch: select, sort by the key, keep the first `limit`, act on each. */
    method RunBatch(q: Query, limit: nat, st: AllStamps) returns (taken: seq<MissionObject>)
      requires Valid() && RepoOk(State())
      modifies this`executionAttempts, missions.Values
      ensures Valid() && State() == Batch(old(State()), q, limit, st)
      ensures |taken| == |Picked(old(State()), q, limit)|
      ensures forall k :: 0 <= k < |taken| ==> IsAt(taken[k], Picked(old(State()), q, limit)[k])
      ensures AreStored(taken) && IdsOf(taken) == Picked(old(State()), q, limit)
    {
      hide Touched, KeyOf, Act, Picked, RepoOk, Batch;
      ghost var before := State();
      var ids := Pick(q, limit);
      PickedAreKnown(before, q, limit);
      taken := seq(|ids|, i requires 0 <= i < |ids| && ids[i] in missions reads this => missions[ids[i]]);
      ActOnAll(ids, before, q, st);
      AllTouched(before, q, limit, st);
      TheirIds(taken, ids);
    }

    lemma TheirIds(taken: seq<MissionObject>, ids: seq<MissionId>)
      requires Valid() && |taken| == |ids| && forall k :: 0 <= k < |ids| ==> IsAt(taken[k], ids[k])
      ensures AreStored(taken) && IdsOf(taken) == ids
    {
    }

    /** The loop of a batch. */
    method ActOnAll(ids: seq<MissionId>, ghost before: Repo, q: Query, st: AllStamps)
      requires Valid() && before == State()
      requires forall i, j :: 0 <= i < j < |ids| ==> ids[i] != ids[j]
      requires forall i :: 0 <= i < |ids| ==> ids[i] in before.entries && KeyOf(before.entries[ids[i]].mission, q).Some?
      modifies this`executionAttempts, missions.Values
      ensures Valid() && missions == old(missions) && Touched(before, ids, q, st)
    {
      hide Touched, KeyOf, Act;
      NothingTouched(before, q, st);
      for i := 0 to |ids|
        invariant Valid() && missions == old(missions)
        invariant Touched(before, ids[..i], q, st)
      {
        var mission := TakeOne(ids[i], before, ids[..i], q, st);
        assert ids[..i + 1] == ids[..i] + [ids[i]];
      }
      assert ids[..|ids|] == ids;
    }

    ghost predicate IsAt(mission: MissionObject, id: MissionId)
      reads this
    {
      id in missions && missions[id] == mission
    }

    /** `claim_due`; the refusals are `_validate_list_due_arguments`. */
    method ClaimDue(now: Time, limit: int, st: AllStamps) returns (r: Result<seq<MissionObject>, ArgumentError>)
      requires Valid() && RepoOk(State())
      modifies this`executionAttempts, missions.Values
      ensures Valid() && BatchAnswer(old(State()), DueAt(now), limit, st, r)
      ensures r.Success? <==> limit > 0
      ensures r.Success? ==> AreStored(r.value) && ClaimsWhatIsDue(old(State()), now, limit, IdsOf(r.value), State())
    {
      hide ClaimsWhatIsDue, RepoOk, Batch, Picked;
      if limit <= 0 {
        return Failure(InvalidLimit);
      }
      ClaimsKeepPromise(State(), now, limit, st);
      var taken := RunBatch(DueAt(now), limit, st);
      return Success(taken);
    }

    /** `expire_due`. */
    method ExpireDue(now: Time, limit: int, st: AllStamps) returns (r: Result<seq<MissionObject>, ArgumentError>)
      requires Valid() && RepoOk(State())
      modifies this`executionAttempts, missions.Values
      ensures Valid() && BatchAnswer(old(State()), ExpiryDueAt(now), limit, st, r)
      ensures r.Success? <==> limit > 0
      ensures r.Success? ==> AreStored(r.value) && ExpiresWhatIsOver(old(State()), now, limit, IdsOf(r.value), State())
    {
      hide ExpiresWhatIsOver, RepoOk, Batch, Picked;
      if limit <= 0 {
        return Failure(InvalidLimit);
      }
      ExpiryKeepsPromise(State(), now, limit, st);
      var taken := RunBatch(ExpiryDueAt(now), limit, st);
      return Success(taken);
    }

    /** `recover_stale_processing`; the refusals are `_validate_stale_processing_arguments`. */
    method RecoverStaleProcessing(now: Time, claimTimeout: Time, limit: int, st: AllStamps)
      returns (r: Result<seq<MissionObject>, ArgumentError>)
      requires Valid() && RepoOk(State())
      modifies this`executionAttempts, missions.Values
      ensures Valid()
      ensures claimTimeout <= 0 || limit <= 0 ==> r.Failure? && State() == old(State())
      ensures claimTimeout > 0 ==> BatchAnswer(old(State()), StaleAt(now, claimTimeout), limit, st, r)
      ensures r.Success? ==>
                AreStored(r.value) && RecoversWhatIsStale(old(State()), now, claimTimeout, limit, IdsOf(r.value), State())
    {
      hide RecoversWhatIsStale, RepoOk, Batch, Picked;
      if limit <= 0 {
        return Failure(InvalidLimit);
      }
      if claimTimeout <= 0 {
        return Failure(InvalidClaimTimeout);
      }
      RecoveryKeepsPromise(State(), now, claimTimeout, limit, st);
      var taken := RunBatch(StaleAt(now, claimTimeout), limit, st);
      return Success(taken);
    }

    /** The objects the repository holds under their ids. */
    ghost predicate AreStored(taken: seq<MissionObject>)
      reads this, taken
    {
      forall k :: 0 <= k < |taken| ==> IsAt(taken[k], taken[k].id)
    }

    /** What a batch call leaves and returns: the objects of the picked missions, or an argument error. */
    ghost predicate BatchAnswer(before: Repo, q: Query, limit: int, st: AllStamps, r: Result<seq<MissionObject>, ArgumentError>)
      reads this, missions.Values
    {
      if limit <= 0 then r == Failure(InvalidLimit) && State() == before
      else
        && State() == Batch(before, q, limit, st)
        && r.Success?
        && |r.value| == |Picked(before, q, limit)|
        && IdsOf(r.value) == Picked(before, q, limit)
        && forall k :: 0 <= k < |r.value| ==> IsAt(r.value[k], Picked(before, q, limit)[k])
    }

    method Pick(q: Query, limit: nat) returns (ids: seq<MissionId>)
      requires Valid()
      ensures ids == Picked(State(), q, limit)
    {
      var candidates := Select(q);
      ids := Values(First(StableSort(candidates), limit));
    }

    method TakeOne(id: MissionId, ghost before: Repo, ghost done: seq<MissionId>, q: Query, st: AllStamps)
      returns (mission: MissionObject)
      requires Valid() && Touched(before, done, q, st) && id !in done
      requires id in before.entries && KeyOf(before.entries[id].mission, q).Some?
      modifies this`executionAttempts, missions.Values
      ensures Valid() && Touched(before, done + [id], q, st) && missions == old(missions)
      ensures IsAt(mission, id)
    {
      hide KeyOf, Act, Touched;
      TouchedAt(before, done, q, st);
      mission := missions[id];
      label acting:
      ActOn(mission, q, st(id));
      OthersUntouched@acting(mission);
      TouchedNext(before, done, id, q, st);
    }

    /** The state of a batch that has acted on `done`. */
    ghost predicate Touched(before: Repo, done: seq<MissionId>, q: Query, st: AllStamps)
      reads this, missions.Values
    {
      && order == before.order
      && missions.Keys == before.entries.Keys
      && forall id :: id in missions ==>
           EntryAt(id) == if id in done then Act(before.entries[id], q, st(id)) else before.entries[id]
    }

    /** What an operation on one mission of the repository leaves of the others. */
    twostate lemma OthersUntouched(mission: MissionObject)
      requires old(Valid()) && missions == old(missions) && mission.id in missions && missions[mission.id] == mission
      requires forall other :: other in missions && missions[other] != mission ==> unchanged(missions[other])
      requires forall other :: other != mission.id ==> AttemptsOf(other) == old(AttemptsOf(other))
      ensures forall other :: other in missions && other != mission.id ==> EntryAt(other) == old(EntryAt(other))
    {
    }

    lemma TouchedAt(before: Repo, done: seq<MissionId>, q: Query, st: AllStamps)
      requires Touched(before, done, q, st)
      ensures missions.Keys == before.entries.Keys && order == before.order
      ensures forall id :: id in missions ==>
                EntryAt(id) == if id in done then Act(before.entries[id], q, st(id)) else before.entries[id]
    {
    }

    lemma TouchedNext(before: Repo, done: seq<MissionId>, id: MissionId, q: Query, st: AllStamps)
      requires missions.Keys == before.entries.Keys && order == before.order && id in missions && id !in done
      requires forall other :: other in missions ==>
                 && other in before.entries
                 && EntryAt(other) == if other in done || other == id then Act(before.entries[other], q, st(other))
                                      else before.entries[other]
      ensures Touched(before, done + [id], q, st)
    {
    }

    lemma NothingTouched(before: Repo, q: Query, st: AllStamps)
      requires before == State()
      ensures Touched(before, [], q, st)
    {
    }

    lemma AllTouched(before: Repo, q: Query, limit: nat, st: AllStamps)
      requires Touched(before, Picked(before, q, limit), q, st)
      ensures State() == Batch(before, q, limit, st)
    {
    }
  }

  /** A batch takes known missions that match, each at most once. */
  lemma PickedAreKnown(r: Repo, q: Query, limit: nat)
    requires RepoOk(r)
    ensures forall i, j :: 0 <= i < j < |Picked(r, q, limit)| ==> Picked(r, q, limit)[i] != Picked(r, q, limit)[j]
    ensures forall i :: 0 <= i < |Picked(r, q, limit)| ==>
              Picked(r, q, limit)[i] in r.entries && KeyOf(r.entries[Picked(r, q, limit)[i]].mission, q).Some?
  {
    hide EntryOk, KeyOf;
    RankedDistinct(r, q);
    forall i | 0 <= i < |Picked(r, q, limit)|
      ensures Picked(r, q, limit)[i] in r.entries && KeyOf(r.entries[Picked(r, q, limit)[i]].mission, q).Some?
    {
      PickedMatches(r, q, limit, Picked(r, q, limit)[i]);
    }
  }
}
