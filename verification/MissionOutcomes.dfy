/**
 What each piece of the mission code and each mission service makes of a mission, told by the fields of the mission it
 finds: when it refuses, in which status and with which new events it ends, and what the attempt ledger then says.
 */
module MissionOutcomes {
  import opened Wrappers
  import opened MissionDomain
  import opened MissionSteps
  import opened Backoff

  function Kinds(log: seq<Event>): seq<EventKind> {
    seq(|log|, i requires 0 <= i < |log| => log[i].kind)
  }

  /** The mission moved to `status` and recorded these events; only the fields of a run may differ otherwise. */
  ghost predicate Became(m: Mission, r: Mission, status: Status, kinds: seq<EventKind>) {
    && r.status == status && m.log <= r.log && Kinds(r.log) == Kinds(m.log) + kinds
    && r.lastEventSequence == m.lastEventSequence + |kinds|
    && r.claimedAt == (if status == m.status then m.claimedAt else None)
    && r == m.(status := status, claimedAt := r.claimedAt, log := r.log, lastEventSequence := r.lastEventSequence, trail := r.trail,
               resolvedProviderId := r.resolvedProviderId, reservationId := r.reservationId, bestOption := r.bestOption)
  }

  ghost predicate SamePair(m: Mission, r: Mission) {
    r.resolvedProviderId == m.resolvedProviderId && r.reservationId == m.reservationId
  }

  /** The ledger after `m` was stored: an open attempt notes the provider, and is closed by what the mission ended in. */
  ghost predicate LedgerFollows(before: seq<Attempt>, after: seq<Attempt>, m: Mission) {
    var n := |before|;
    if n == 0 || before[n - 1].status != AttemptProcessing then after == before
    else
      var open := before[n - 1];
      && |after| == n && after[..n - 1] == before[..n - 1]
      && match m.status {
           case Processing =>
             after[n - 1] == open.(resolvedProviderId := if m.resolvedProviderId.Some? then m.resolvedProviderId else open.resolvedProviderId)
           case RequiresConfirmation =>
             m.log != [] &&
             after[n - 1] == Attempt(open.number, AttemptRequiresConfirmation, open.claimedAt,
                                     Some(m.log[|m.log| - 1].timestamp), m.resolvedProviderId, m.reservationId)
           case Completed =>
             m.log != [] &&
             after[n - 1] == Attempt(open.number, AttemptCompleted, open.claimedAt,
                                     Some(m.log[|m.log| - 1].timestamp), m.resolvedProviderId, m.reservationId)
           case Failed =>
             m.log != [] &&
             after[n - 1] == Attempt(open.number, AttemptFailed, open.claimedAt,
                                     Some(m.log[|m.log| - 1].timestamp), m.resolvedProviderId, m.reservationId)
           case _ => after[n - 1] == open
         }
  }

  // ------------------------------------------------------------- the status table

  /** Where each status can come from by the table; nothing else leads there. */
  lemma ComesFrom(s: Status, t: Status)
    ensures t in AllowedTransitions(s) <==>
            s in match t {
              case Created => {Waiting, Paused}
              case Waiting => {Created, Paused}
              case Paused => {Created, Waiting}
              case Processing => {Waiting}
              case Running => {Created, Waiting}
              case Searching => {Running}
              case OptionFound => {Searching}
              case Reserving => {OptionFound}
              case RequiresConfirmation => {Processing, Reserving}
              case Completed => {Processing, OptionFound, Reserving, RequiresConfirmation}
              case Failed => {Processing, Running, Searching, OptionFound, Reserving, RequiresConfirmation}
              case Cancelled => {Created, Waiting, Paused, RequiresConfirmation}
              case Expired => {Created, Waiting, Paused}
            }
  {
  }

  /** A mission in one of these statuses may fail. */
  predicate CanFail(s: Status) {
    s in {Processing, Running, Searching, OptionFound, Reserving, RequiresConfirmation}
  }

  predicate CanComplete(s: Status) {
    s in {Processing, OptionFound, Reserving, RequiresConfirmation}
  }

  // ------------------------------------------------------------------ small steps

  /** An event is added at the end with the given kind and time, and nothing else changes. */
  lemma EmitAtAdds(m: Mission, kind: EventKind, st: Stamps, time: Time)
    ensures var r := EmitAt(m, kind, st, time);
            && Became(m, r, m.status, [kind]) && SamePair(m, r) && r.bestOption == m.bestOption && r.trail == m.trail
            && r.log != [] && r.log[|r.log| - 1].timestamp == time
  {
    hide DrawEventId;
    var r := EmitAt(m, kind, st, time);
    assert Kinds(r.log) == Kinds(m.log) + [kind];
  }

  lemma EmitAdds(st: Stamps)
    ensures forall m: Mission, kind: EventKind {:trigger Emit(m, kind, st)} ::
              var r := Emit(m, kind, st);
              && Became(m, r, m.status, [kind]) && SamePair(m, r) && r.bestOption == m.bestOption && r.trail == m.trail
              && r.log != [] && r.log[|r.log| - 1].timestamp == st(m.lastEventSequence + 1).time
  {
    hide Became, EmitAt;
    forall m: Mission, kind: EventKind {:trigger Emit(m, kind, st)}
      ensures var r := Emit(m, kind, st);
              && Became(m, r, m.status, [kind]) && SamePair(m, r) && r.bestOption == m.bestOption && r.trail == m.trail
              && r.log != [] && r.log[|r.log| - 1].timestamp == st(m.lastEventSequence + 1).time
    {
      EmitAtAdds(m, kind, st, st(m.lastEventSequence + 1).time);
    }
  }

  /** Storing follows the mission. */
  lemma SaveFollows(e: Entry)
    requires ClosingStatus(e.mission.status).Some? ==> e.mission.log != []
    ensures Save(e).mission == e.mission && LedgerFollows(e.attempts, Save(e).attempts, e.mission)
  {
  }

  /** `record_event` refuses the nil identifier and one that the log has, and nothing else. */
  lemma RecordRefuses(m: Mission, id: EventId, time: Time, kind: EventKind)
    ensures RecordEvent(m, id, time, kind) == Failure(NilEventId) <==> id == 0
    ensures RecordEvent(m, id, time, kind) == Failure(DuplicateEventId) <==>
            id != 0 && exists i :: 0 <= i < |m.log| && m.log[i].eventId == id
    ensures RecordEvent(m, id, time, kind).Success? ==>
              var r := RecordEvent(m, id, time, kind).value;
              && r == m.(log := r.log, lastEventSequence := m.lastEventSequence + 1) && |r.log| == |m.log| + 1 && m.log <= r.log
              && var event := r.log[|m.log|];
                 && event.eventId == id && event.timestamp == time && event.kind == kind
                 && event.sequence == m.lastEventSequence + 1
                 && (m.log == [] ==> event.correlationId == id && event.causationId == None)
                 && (m.log != [] ==> event.correlationId == m.log[|m.log| - 1].correlationId
                                     && event.causationId == Some(m.log[|m.log| - 1].eventId))
  {
  }

  // ------------------------------------------------------------------ segments

  /** Both ways a segment that wants to finish may end. */
  ghost predicate Finished(e: Entry, s: Segment, allowed: bool, status: Status, before: seq<EventKind>, last: EventKind) {
    if allowed then
      && s.Returned? && Became(e.mission, s.entry.mission, status, before + [last])
      && LedgerFollows(e.attempts, s.entry.attempts, s.entry.mission)
    else
      && s.Raised? && s.error == InvalidTransition && Became(e.mission, s.entry.mission, e.mission.status, before)
      && s.entry.attempts == e.attempts
  }

  lemma BecameMore(m: Mission, mid: Mission, r: Mission, status: Status, first: seq<EventKind>, more: seq<EventKind>)
    requires Became(m, mid, mid.status, first) && Became(mid, r, status, more)
    requires mid.status == m.status || mid.claimedAt == None || status != mid.status
    requires status == m.status ==> mid.status == m.status
    ensures Became(m, r, status, first + more)
  {
    assert Kinds(m.log) + first + more == Kinds(m.log) + (first + more);
  }

  lemma MoveOutcome(m: Mission, target: Status)
    requires target != m.status && target != Processing
    ensures Transition(m, target, ByTable).Success? <==> target in AllowedTransitions(m.status)
    ensures Transition(m, target, ByTable).Success? ==>
              var r := Transition(m, target, ByTable).value;
              && Became(m, r, target, []) && SamePair(m, r) && r.bestOption == m.bestOption
              && r.trail == m.trail + [Visit(target, ByTable)]
  {
    assert Kinds(m.log) + [] == Kinds(m.log);
  }

  lemma NoSelfMove(m: Mission)
    ensures m.status != Processing ==> Transition(m, m.status, ByTable).Failure?
  {
  }

  lemma FinishOutcome(e: Entry, m: Mission, before: seq<EventKind>, target: Status, kind: EventKind, st: Stamps)
    requires Became(e.mission, m, e.mission.status, before)
    requires target != Processing
    ensures Finished(e, FinishAs(e, m, target, kind, st), target in AllowedTransitions(e.mission.status), target, before, kind)
    ensures SamePair(m, FinishAs(e, m, target, kind, st).entry.mission)
    ensures FinishAs(e, m, target, kind, st).entry.mission.bestOption == m.bestOption
  {
    hide Emit, Transition, UpdateLedger, LedgerFollows;
    EmitAdds(st);
    ComesFrom(m.status, target);
    if target != m.status {
      MoveOutcome(m, target);
    } else {
      NoSelfMove(m);
    }
    match Transition(m, target, ByTable)
    case Failure(_) =>
    case Success(moved) =>
      var done := Emit(moved, kind, st);
      SaveFollows(e.(mission := done));
      BecameMore(m, moved, done, target, [], [kind]);
      assert [] + [kind] == [kind];
      BecameMore(e.mission, m, done, target, before, [kind]);
  }

  /** `run_mission` up to the search call. */
  lemma StartRunOutcome(e: Entry, now: Time, allowProcessing: bool, resolution: Resolution, found: bool, st: Stamps)
    ensures var m, s := e.mission, StartRun(e, now, allowProcessing, resolution, found, st);
            var startable := m.status == Created || m.status == Waiting || (allowProcessing && m.status == Processing);
            var over := m.status != Processing && m.expiresAt.Some? && m.expiresAt.value <= now;
            var early := m.status == Waiting && m.scheduledAt.Some? && m.scheduledAt.value > now;
            && (!startable <==> s.Raised? && s.error == InvalidRun)
            && (!startable ==> s == Raised(e, InvalidRun))
            && (startable && over ==>
                  && s.Raised? && s.error == NotReady && Became(m, s.entry.mission, Expired, [MissionExpired])
                  && s.entry.attempts == e.attempts && SamePair(m, s.entry.mission))
            && (startable && !over && early <==> s == Raised(e, NotReady))
            && (startable && !over && !early && resolution.Unresolved? ==>
                  && s.Raised? && s.error == ResolutionError
                  && Became(m, s.entry.mission, m.status, [ProviderResolutionFailed]) && SamePair(m, s.entry.mission))
            && (startable && !over && !early && resolution.Resolved? ==>
                  && s.entry.mission.resolvedProviderId == Some(resolution.provider)
                  && s.entry.mission.reservationId == m.reservationId
                  && LedgerFollows(e.attempts, s.entry.attempts, s.entry.mission)
                  && if found then
                       && s.Suspended? && s.at == AwaitSearch && s.provider == resolution.provider
                       && Became(m, s.entry.mission, if m.status == Processing then Processing else Searching,
                                 [ProviderResolved(resolution.provider), MissionStarted, SearchStarted])
                     else
                       s.Returned? && Became(m, s.entry.mission, Failed, [ProviderResolved(resolution.provider), ParticipantMissing]))
  {
    hide Emit, Expire, Transition, UpdateLedger, BeginSearch, LedgerFollows, Became;
    var m := e.mission;
    EmitAdds(st);
    if m.status in {Created, Waiting, Processing} {
      if ExpiryDue(m, now) {
        ExpireOutcome(e, now, st);
      }
      if resolution.Resolved? {
        ResolveOutcome(e, resolution.provider, found, st);
      } else {
        SaveFollows(e.(mission := Emit(m, ProviderResolutionFailed, st)));
      }
    }
  }

  lemma ExpireOutcome(e: Entry, now: Time, st: Stamps)
    requires e.mission.status in {Created, Waiting, Paused}
    ensures var r := Expire(e.mission, now, st);
            && Became(e.mission, r, Expired, [MissionExpired]) && SamePair(e.mission, r) && r.log != e.mission.log
            && Save(e.(mission := r)).attempts == e.attempts && Save(e.(mission := r)).mission == r
  {
    hide EmitAt, Transition;
    MoveOutcome(e.mission, Expired);
    ComesFrom(e.mission.status, Expired);
    var moved := Transition(e.mission, Expired, ByTable).value;
    EmitAtAdds(moved, MissionExpired, st, now);
    BecameMore(e.mission, moved, EmitAt(moved, MissionExpired, st, now), Expired, [], [MissionExpired]);
    assert [] + [MissionExpired] == [MissionExpired];
    assert |Kinds(e.mission.log) + [MissionExpired]| == |Kinds(e.mission.log)| + 1;
  }

  lemma ResolveOutcome(e: Entry, provider: ProviderId, found: bool, st: Stamps)
    requires e.mission.status in {Created, Waiting, Processing}
    ensures var m, s := e.mission, Resolve(e, Resolved(provider), found, st);
            && s.entry.mission.resolvedProviderId == Some(provider) && s.entry.mission.reservationId == m.reservationId
            && LedgerFollows(e.attempts, s.entry.attempts, s.entry.mission)
            && if found then
                 && s.Suspended? && s.at == AwaitSearch && s.provider == provider
                 && Became(m, s.entry.mission, if m.status == Processing then Processing else Searching,
                           [ProviderResolved(provider), MissionStarted, SearchStarted])
               else s.Returned? && Became(m, s.entry.mission, Failed, [ProviderResolved(provider), ParticipantMissing])
  {
    hide Emit, Transition, UpdateLedger, LedgerFollows;
    var m := e.mission;
    EmitAdds(st);
    var known := Emit(m.(resolvedProviderId := Some(provider)), ProviderResolved(provider), st);
    var saved := Save(e.(mission := known));
    SaveFollows(e.(mission := known));
    assert Became(m, known, m.status, [ProviderResolved(provider)]);
    BeginOutcome(saved, provider, found, st);
    var s := BeginSearch(saved, provider, found, st);
    if found {
      LedgerStays(e.attempts, saved.attempts, known, s.entry.mission);
      BecameMore(m, known, s.entry.mission, s.entry.mission.status, [ProviderResolved(provider)], [MissionStarted, SearchStarted]);
      assert [ProviderResolved(provider)] + [MissionStarted, SearchStarted] == [ProviderResolved(provider), MissionStarted, SearchStarted];
    } else {
      LedgerTwice(e.attempts, saved.attempts, s.entry.attempts, known, s.entry.mission);
      BecameMore(m, known, s.entry.mission, Failed, [ProviderResolved(provider)], [ParticipantMissing]);
      assert [ProviderResolved(provider)] + [ParticipantMissing] == [ProviderResolved(provider), ParticipantMissing];
    }
  }

  /** Noting the provider first does not matter to what is noted at the end. */
  lemma LedgerTwice(a: seq<Attempt>, b: seq<Attempt>, c: seq<Attempt>, m: Mission, r: Mission)
    requires LedgerFollows(a, b, m) && LedgerFollows(b, c, r) && m.status in {Created, Waiting, Processing}
    requires r.status in {m.status, Searching, Failed}
    requires m.status == Processing ==> r.status in {Processing, Failed}
    requires r.resolvedProviderId == m.resolvedProviderId && m.resolvedProviderId.Some?
    ensures LedgerFollows(a, c, r)
  {
  }

  lemma LedgerStays(a: seq<Attempt>, b: seq<Attempt>, m: Mission, r: Mission)
    requires LedgerFollows(a, b, m) && m.status in {Created, Waiting, Processing}
    requires r.status == (if m.status == Processing then Processing else Searching) && SamePair(m, r)
    ensures LedgerFollows(a, b, r)
  {
  }

  lemma BeginOutcome(e: Entry, provider: ProviderId, found: bool, st: Stamps)
    requires e.mission.status in {Created, Waiting, Processing}
    ensures var m, s := e.mission, BeginSearch(e, provider, found, st);
            && SamePair(m, s.entry.mission)
            && if found then
                 && s.Suspended? && s.at == AwaitSearch && s.provider == provider && s.entry.attempts == e.attempts
                 && Became(m, s.entry.mission, if m.status == Processing then Processing else Searching, [MissionStarted, SearchStarted])
               else
                 && s.Returned? && Became(m, s.entry.mission, Failed, [ParticipantMissing])
                 && LedgerFollows(e.attempts, s.entry.attempts, s.entry.mission)
  {
    var running := BeginMoves(e.mission, st);
    hide Emit, Transition, UpdateLedger, LedgerFollows, FinishAs;
    if !found {
      ComesFrom(running.status, Failed);
      FinishFrom(e, running, ParticipantMissing, st);
    }
  }

  /** From the status found to the search, both moves and both events. */
  lemma BeginMoves(m: Mission, st: Stamps) returns (running: Mission)
    requires m.status in {Created, Waiting, Processing}
    ensures m.status == Processing ==> running == m
    ensures m.status != Processing ==> Transition(m, Running, ByTable) == Success(running)
    ensures Became(m, running, running.status, []) && SamePair(m, running)
    ensures running.status == if m.status == Processing then Processing else Running
    ensures var started := Emit(running, MissionStarted, st);
            && (m.status != Processing ==> Transition(started, Searching, ByTable).Success?)
            && var searching := if m.status == Processing then started else Transition(started, Searching, ByTable).value;
               Became(m, Emit(searching, SearchStarted, st), if m.status == Processing then Processing else Searching,
                      [MissionStarted, SearchStarted])
               && SamePair(m, Emit(searching, SearchStarted, st))
  {
    hide Emit, Transition, Became;
    EmitAdds(st);
    running := m;
    NothingNew(m);
    if m.status != Processing {
      MoveOutcome(m, Running);
      ComesFrom(m.status, Running);
      running := Transition(m, Running, ByTable).value;
    }
    StatusOf(m, running, running.status, []);
    var started := Emit(running, MissionStarted, st);
    StatusOf(running, started, running.status, [MissionStarted]);
    var searching := started;
    NothingNew(started);
    if m.status != Processing {
      MoveOutcome(started, Searching);
      ComesFrom(started.status, Searching);
      searching := Transition(started, Searching, ByTable).value;
    }
    StatusOf(started, searching, searching.status, []);
    var r := Emit(searching, SearchStarted, st);
    StatusOf(searching, r, searching.status, [SearchStarted]);
    BecameMore(started, searching, r, r.status, [], [SearchStarted]);
    BecameMore(running, started, r, r.status, [MissionStarted], [] + [SearchStarted]);
    BecameMore(m, running, r, r.status, [], [MissionStarted] + ([] + [SearchStarted]));
    assert [] + ([MissionStarted] + ([] + [SearchStarted])) == [MissionStarted, SearchStarted];
  }

  lemma NothingNew(m: Mission)
    ensures Became(m, m, m.status, []) && SamePair(m, m)
  {
    assert Kinds(m.log) + [] == Kinds(m.log);
  }

  lemma StatusOf(m: Mission, r: Mission, status: Status, kinds: seq<EventKind>)
    requires Became(m, r, status, kinds)
    ensures r.status == status && r.claimedAt == (if status == m.status then m.claimedAt else None)
  {
  }

  /** Failing from the status a run has moved to. */
  lemma FinishFrom(e: Entry, running: Mission, kind: EventKind, st: Stamps)
    requires Became(e.mission, running, running.status, []) && CanFail(running.status)
    requires e.mission.status != Failed && (running.status == e.mission.status || running.claimedAt == None)
    ensures var s := FinishAs(e, running, Failed, kind, st);
            && s.Returned? && Became(e.mission, s.entry.mission, Failed, [kind]) && SamePair(running, s.entry.mission)
            && LedgerFollows(e.attempts, s.entry.attempts, s.entry.mission)
  {
    hide Emit, Transition, UpdateLedger, LedgerFollows;
    EmitAdds(st);
    MoveOutcome(running, Failed);
    ComesFrom(running.status, Failed);
    var moved := Transition(running, Failed, ByTable).value;
    var done := Emit(moved, kind, st);
    SaveFollows(e.(mission := done));
    BecameMore(running, moved, done, Failed, [], [kind]);
    BecameMore(e.mission, running, done, Failed, [], [] + [kind]);
    assert [] + ([] + [kind]) == [kind];
  }

  /** From the search answer to the reservation call. */
  lemma AfterSearchOutcome(e: Entry, processing: bool, provider: ProviderId, answer: SearchAnswer, st: Stamps)
    ensures var m, s := e.mission, AfterSearch(e, processing, provider, answer, st);
            var r := s.entry.mission;
            && SamePair(m, r)
            && match answer {
                 case SearchCrashed(transient) => s == Raised(e, ProviderCrash(transient))
                 case SearchFailed(retryable) => Finished(e, s, CanFail(m.status), Failed, [], ProviderOperationFailed(retryable))
                 case Found(count, None) => Finished(e, s, CanFail(m.status), Failed, [OptionsFound(count)], NoValidOptionFound)
                 case Found(count, Some(option)) =>
                   if !processing && m.status != Searching then
                     s.Raised? && s.error == InvalidTransition && Became(m, r, m.status, [OptionsFound(count)]) && s.entry.attempts == e.attempts
                   else
                     && r.bestOption == Some(option)
                     && if m.mode != SearchOnly then
                          && s.Suspended? && s.at == AwaitReserve && s.provider == provider && s.entry.attempts == e.attempts
                          && Became(m, r, if processing then m.status else Reserving,
                                    [OptionsFound(count), BestOptionSelected, ReservationStarted])
                        else if processing && !CanComplete(m.status) then
                          s.Raised? && s.error == InvalidTransition && Became(m, r, m.status, [OptionsFound(count), BestOptionSelected])
                        else
                          && s.Returned? && LedgerFollows(e.attempts, s.entry.attempts, r)
                          && Became(m, r, Completed, [OptionsFound(count), BestOptionSelected, MissionSearchCompleted])
               }
  {
    hide Emit, Transition, UpdateLedger, LedgerFollows, Became, FinishAs, ReserveOrFinish;
    var m := e.mission;
    EmitAdds(st);
    NothingNew(m);
    ComesFrom(m.status, Failed);
    match answer
    case SearchCrashed(_) =>
    case SearchFailed(retryable) =>
      FinishOutcome(e, m, [], Failed, ProviderOperationFailed(retryable), st);
    case Found(count, best) =>
      var counted := Emit(m, OptionsFound(count), st);
      FinishOutcome(e, counted, [OptionsFound(count)], Failed, NoValidOptionFound, st);
      ComesFrom(counted.status, OptionFound);
      StatusOf(m, counted, m.status, [OptionsFound(count)]);
      MoveOutcomeTo(counted, OptionFound);
      if best.Some? && (processing || m.status == Searching) {
        ChosenOutcome(e, processing, provider, count, best.value, st);
      }
  }

  lemma MoveOutcomeTo(m: Mission, target: Status)
    requires target != Processing
    ensures Transition(m, target, ByTable).Success? <==> target in AllowedTransitions(m.status)
  {
    ComesFrom(m.status, target);
  }

  lemma ChosenOutcome(e: Entry, processing: bool, provider: ProviderId, count: nat, option: nat, st: Stamps)
    requires processing || e.mission.status == Searching
    ensures var m, s := e.mission, AfterSearch(e, processing, provider, Found(count, Some(option)), st);
            var r := s.entry.mission;
            && SamePair(m, r) && r.bestOption == Some(option)
            && if m.mode != SearchOnly then
                 && s.Suspended? && s.at == AwaitReserve && s.provider == provider && s.entry.attempts == e.attempts
                 && Became(m, r, if processing then m.status else Reserving,
                           [OptionsFound(count), BestOptionSelected, ReservationStarted])
               else if processing && !CanComplete(m.status) then
                 s.Raised? && s.error == InvalidTransition && Became(m, r, m.status, [OptionsFound(count), BestOptionSelected])
               else
                 && s.Returned? && LedgerFollows(e.attempts, s.entry.attempts, r)
                 && Became(m, r, Completed, [OptionsFound(count), BestOptionSelected, MissionSearchCompleted])
  {
    hide Emit, Transition, UpdateLedger, LedgerFollows, Became, FinishAs;
    var m := e.mission;
    EmitAdds(st);
    var counted := Emit(m, OptionsFound(count), st);
    StatusOf(m, counted, m.status, [OptionsFound(count)]);
    var chosen := counted;
    NothingNew(counted);
    if !processing {
      MoveOutcome(counted, OptionFound);
      ComesFrom(counted.status, OptionFound);
      chosen := Transition(counted, OptionFound, ByTable).value;
    }
    StatusOf(counted, chosen, chosen.status, []);
    ChosenFrom(m, counted, chosen, count, option, st);
    var picked := Emit(chosen.(bestOption := Some(option)), BestOptionSelected, st);
    StatusOf(m, picked, chosen.status, [OptionsFound(count), BestOptionSelected]);
    if m.mode == SearchOnly {
      CompleteFrom(e, picked, [OptionsFound(count), BestOptionSelected], st);
      assert [OptionsFound(count), BestOptionSelected] + [MissionSearchCompleted]
          == [OptionsFound(count), BestOptionSelected, MissionSearchCompleted];
    } else {
      var reserving := picked;
      NothingNew(picked);
      if !processing {
        MoveOutcome(picked, Reserving);
        ComesFrom(picked.status, Reserving);
        reserving := Transition(picked, Reserving, ByTable).value;
      }
      StatusOf(picked, reserving, reserving.status, []);
      var r := Emit(reserving, ReservationStarted, st);
      StatusOf(reserving, r, reserving.status, [ReservationStarted]);
      BecameMore(picked, reserving, r, r.status, [], [ReservationStarted]);
      BecameMore(m, picked, r, r.status, [OptionsFound(count), BestOptionSelected], [] + [ReservationStarted]);
      assert [OptionsFound(count), BestOptionSelected] + ([] + [ReservationStarted])
          == [OptionsFound(count), BestOptionSelected, ReservationStarted];
    }
  }

  lemma ChosenFrom(m: Mission, counted: Mission, chosen: Mission, count: nat, option: nat, st: Stamps)
    requires Became(m, counted, m.status, [OptionsFound(count)]) && Became(counted, chosen, chosen.status, [])
    requires SamePair(m, counted) && SamePair(counted, chosen)
    requires chosen.status == m.status || (m.status == Searching && chosen.status == OptionFound)
    ensures var picked := Emit(chosen.(bestOption := Some(option)), BestOptionSelected, st);
            && Became(m, picked, chosen.status, [OptionsFound(count), BestOptionSelected])
            && SamePair(m, picked) && picked.bestOption == Some(option) && picked.mode == m.mode
  {
    hide Emit;
    EmitAdds(st);
    BecameMore(m, counted, chosen, chosen.status, [OptionsFound(count)], []);
    assert [OptionsFound(count)] + [] == [OptionsFound(count)];
    var taken := chosen.(bestOption := Some(option));
    assert Became(m, taken, chosen.status, [OptionsFound(count)]);
    var picked := Emit(taken, BestOptionSelected, st);
    BecameMore(m, taken, picked, chosen.status, [OptionsFound(count)], [BestOptionSelected]);
    assert [OptionsFound(count)] + [BestOptionSelected] == [OptionsFound(count), BestOptionSelected];
  }

  lemma CompleteFrom(e: Entry, m: Mission, before: seq<EventKind>, st: Stamps)
    requires Became(e.mission, m, m.status, before) && (e.mission.status != Completed || m.status == Completed)
    requires m.status == e.mission.status || m.claimedAt == None
    ensures var s := FinishAs(e, m, Completed, MissionSearchCompleted, st);
            && SamePair(m, s.entry.mission) && s.entry.mission.bestOption == m.bestOption
            && if CanComplete(m.status) then
                 && s.Returned? && Became(e.mission, s.entry.mission, Completed, before + [MissionSearchCompleted])
                 && LedgerFollows(e.attempts, s.entry.attempts, s.entry.mission)
               else s == Raised(e.(mission := m), InvalidTransition)
  {
    hide Emit, Transition, UpdateLedger, LedgerFollows;
    EmitAdds(st);
    ComesFrom(m.status, Completed);
    if CanComplete(m.status) {
      MoveOutcome(m, Completed);
      var moved := Transition(m, Completed, ByTable).value;
      var done := Emit(moved, MissionSearchCompleted, st);
      SaveFollows(e.(mission := done));
      BecameMore(m, moved, done, Completed, [], [MissionSearchCompleted]);
      BecameMore(e.mission, m, done, Completed, before, [] + [MissionSearchCompleted]);
      assert [] + [MissionSearchCompleted] == [MissionSearchCompleted];
    } else {
      MoveOutcomeTo(m, Completed);
    }
  }

  /** From the reservation answer to the confirmation call or the end. */
  lemma AfterReserveOutcome(e: Entry, provider: ProviderId, answer: ReserveAnswer, st: Stamps)
    ensures var m, s := e.mission, AfterReserve(e, provider, answer, st);
            var r := s.entry.mission;
            && r.resolvedProviderId == m.resolvedProviderId && r.bestOption == m.bestOption
            && r.reservationId == (if answer.Reserved? then Some(answer.reservation) else m.reservationId)
            && match answer {
                 case ReserveCrashed(transient) => s == Raised(e, ProviderCrash(transient))
                 case ReserveFailed(retryable) => Finished(e, s, CanFail(m.status), Failed, [], ProviderOperationFailed(retryable))
                 case ReserveRejected => Finished(e, s, CanFail(m.status), Failed, [], ReservationFailed)
                 case Reserved(reservation, needsConfirmation) =>
                   var booked := [ReservationSucceeded(reservation, needsConfirmation)];
                   if m.mode == RequireConfirmation then
                     Finished(e, s, m.status in {Processing, Reserving}, RequiresConfirmation, booked, WaitingForUserConfirmation)
                   else if needsConfirmation then
                     && s.Suspended? && s.at == AwaitAutoConfirm(reservation) && s.provider == provider && s.entry.attempts == e.attempts
                     && Became(m, r, m.status, booked + [AutomaticConfirmationStarted])
                   else Finished(e, s, CanComplete(m.status), Completed, booked, MissionCompleted)
               }
  {
    hide Emit, Transition, UpdateLedger, LedgerFollows, Became, FinishAs, Finished;
    var m := e.mission;
    EmitAdds(st);
    NothingNew(m);
    ComesFrom(m.status, Failed);
    ComesFrom(m.status, RequiresConfirmation);
    ComesFrom(m.status, Completed);
    match answer
    case ReserveCrashed(_) =>
    case ReserveFailed(retryable) => FinishOutcome(e, m, [], Failed, ProviderOperationFailed(retryable), st);
    case ReserveRejected => FinishOutcome(e, m, [], Failed, ReservationFailed, st);
    case Reserved(reservation, needsConfirmation) =>
      var booked := BookedOutcome(m, reservation, needsConfirmation, st);
      var first := [ReservationSucceeded(reservation, needsConfirmation)];
      FinishOutcome(e, booked, first, RequiresConfirmation, WaitingForUserConfirmation, st);
      FinishOutcome(e, booked, first, Completed, MissionCompleted, st);
      var asking := Emit(booked, AutomaticConfirmationStarted, st);
      StatusOf(m, booked, m.status, first);
      BecameMore(m, booked, asking, m.status, first, [AutomaticConfirmationStarted]);
  }

  lemma BookedOutcome(m: Mission, reservation: ReservationId, needsConfirmation: bool, st: Stamps) returns (booked: Mission)
    ensures booked == Emit(m.(reservationId := Some(reservation)), ReservationSucceeded(reservation, needsConfirmation), st)
    ensures Became(m, booked, m.status, [ReservationSucceeded(reservation, needsConfirmation)])
    ensures booked.reservationId == Some(reservation) && booked.resolvedProviderId == m.resolvedProviderId
    ensures booked.bestOption == m.bestOption && booked.mode == m.mode
  {
    hide Emit;
    EmitAdds(st);
    booked := Emit(m.(reservationId := Some(reservation)), ReservationSucceeded(reservation, needsConfirmation), st);
  }

  /** A call that fails or is refused fails the mission; one that crashes leaves it alone. */
  ghost predicate Unaccepted(e: Entry, s: Segment, answer: CallAnswer, refusal: EventKind) {
    match answer
    case Accepted => true
    case Rejected => Finished(e, s, CanFail(e.mission.status), Failed, [], refusal)
    case CallFailed(retryable) => Finished(e, s, CanFail(e.mission.status), Failed, [], ProviderOperationFailed(retryable))
    case CallCrashed(transient) => s == Raised(e, ProviderCrash(transient))
  }

  lemma AfterAutoConfirmOutcome(e: Entry, answer: CallAnswer, st: Stamps)
    ensures var m, s := e.mission, AfterAutoConfirm(e, answer, st);
            && SamePair(m, s.entry.mission)
            && Unaccepted(e, s, answer, AutomaticConfirmationFailed)
            && (answer.Accepted? ==> Finished(e, s, CanComplete(m.status), Completed, [AutomaticConfirmationSucceeded], MissionCompleted))
  {
    hide Emit, Transition, UpdateLedger, LedgerFollows, FinishAs;
    var m := e.mission;
    EmitAdds(st);
    NothingNew(m);
    ComesFrom(m.status, Failed);
    ComesFrom(m.status, Completed);
    FinishOutcome(e, m, [], Failed, AutomaticConfirmationFailed, st);
    FinishOutcome(e, m, [], Failed, ProviderOperationFailed(if answer.CallFailed? then answer.retryable else false), st);
    FinishOutcome(e, Emit(m, AutomaticConfirmationSucceeded, st), [AutomaticConfirmationSucceeded], Completed, MissionCompleted, st);
  }

  lemma AfterCancelOutcome(e: Entry, answer: CallAnswer, st: Stamps)
    ensures var m, s := e.mission, AfterCancel(e, answer, st);
            && SamePair(m, s.entry.mission)
            && Unaccepted(e, s, answer, CancellationFailed)
            && (answer.Accepted? ==>
                  Finished(e, s, m.status in {Created, Waiting, Paused, RequiresConfirmation}, Cancelled,
                           [CancellationSucceeded], MissionCancelled))
  {
    hide Emit, Transition, UpdateLedger, LedgerFollows, FinishAs;
    var m := e.mission;
    EmitAdds(st);
    NothingNew(m);
    ComesFrom(m.status, Failed);
    ComesFrom(m.status, Cancelled);
    FinishOutcome(e, m, [], Failed, CancellationFailed, st);
    FinishOutcome(e, m, [], Failed, ProviderOperationFailed(if answer.CallFailed? then answer.retryable else false), st);
    FinishOutcome(e, Emit(m, CancellationSucceeded, st), [CancellationSucceeded], Cancelled, MissionCancelled, st);
  }

  lemma ConfirmedOutcome(e: Entry, m: Mission, before: seq<EventKind>, st: Stamps)
    requires Became(e.mission, m, e.mission.status, before)
    ensures var s := Confirmed(e, m, st);
            && SamePair(m, s.entry.mission)
            && if CanComplete(e.mission.status) then
                 && s.Returned? && Became(e.mission, s.entry.mission, Completed, before + [MissionConfirmed, MissionCompleted])
                 && LedgerFollows(e.attempts, s.entry.attempts, s.entry.mission)
               else s == Raised(e.(mission := m), InvalidTransition)
  {
    hide Emit, Transition, UpdateLedger, LedgerFollows;
    EmitAdds(st);
    ComesFrom(m.status, Completed);
    if CanComplete(m.status) {
      MoveOutcome(m, Completed);
      var moved := Transition(m, Completed, ByTable).value;
      var confirmed := Emit(moved, MissionConfirmed, st);
      var done := Emit(confirmed, MissionCompleted, st);
      SaveFollows(e.(mission := done));
      BecameMore(m, moved, confirmed, Completed, [], [MissionConfirmed]);
      BecameMore(m, confirmed, done, Completed, [] + [MissionConfirmed], [MissionCompleted]);
      BecameMore(e.mission, m, done, Completed, before, [] + [MissionConfirmed] + [MissionCompleted]);
      assert [] + [MissionConfirmed] + [MissionCompleted] == [MissionConfirmed, MissionCompleted];
    } else {
      MoveOutcomeTo(m, Completed);
    }
  }

  lemma AfterConfirmOutcome(e: Entry, answer: CallAnswer, st: Stamps)
    ensures var m, s := e.mission, AfterConfirm(e, answer, st);
            && SamePair(m, s.entry.mission)
            && Unaccepted(e, s, answer, ConfirmationFailed)
            && (answer.Accepted? ==>
                  if CanComplete(m.status) then
                    && s.Returned? && LedgerFollows(e.attempts, s.entry.attempts, s.entry.mission)
                    && Became(m, s.entry.mission, Completed, [ConfirmationSucceeded, MissionConfirmed, MissionCompleted])
                  else
                    && s.Raised? && s.error == InvalidTransition && s.entry.attempts == e.attempts
                    && Became(m, s.entry.mission, m.status, [ConfirmationSucceeded]))
  {
    hide Emit, Transition, UpdateLedger, LedgerFollows, FinishAs, Confirmed;
    var m := e.mission;
    EmitAdds(st);
    NothingNew(m);
    ComesFrom(m.status, Failed);
    FinishOutcome(e, m, [], Failed, ConfirmationFailed, st);
    FinishOutcome(e, m, [], Failed, ProviderOperationFailed(if answer.CallFailed? then answer.retryable else false), st);
    ConfirmedOutcome(e, Emit(m, ConfirmationSucceeded, st), [ConfirmationSucceeded], st);
    assert [ConfirmationSucceeded] + [MissionConfirmed, MissionCompleted] == [ConfirmationSucceeded, MissionConfirmed, MissionCompleted];
  }

  /**
   `confirm_mission` up to the provider call: it refuses, and changes nothing, unless the mission waits for its user with
   both halves of its pair or none recorded and a provider the registry knows.
   */
  lemma StartConfirmOutcome(e: Entry, known: bool, st: Stamps)
    ensures var m, s := e.mission, StartConfirm(e, known, st);
            var both := m.resolvedProviderId.Some? && m.reservationId.Some?;
            var neither := m.resolvedProviderId.None? && m.reservationId.None?;
            && SamePair(m, s.entry.mission)
            && (s == Raised(e, InvalidConfirmation) <==> m.status != RequiresConfirmation || !(neither || (both && known)))
            && (m.status == RequiresConfirmation && both && known ==>
                  && s.Suspended? && s.at == AwaitConfirm(m.reservationId.value) && Some(s.provider) == m.resolvedProviderId
                  && s.entry.attempts == e.attempts && Became(m, s.entry.mission, RequiresConfirmation, [ConfirmationStarted]))
            && (m.status == RequiresConfirmation && neither ==>
                  && s.Returned? && Became(m, s.entry.mission, Completed, [MissionConfirmed, MissionCompleted])
                  && LedgerFollows(e.attempts, s.entry.attempts, s.entry.mission))
  {
    hide Emit, Transition, UpdateLedger, LedgerFollows, Confirmed;
    EmitAdds(st);
    NothingNew(e.mission);
    ConfirmedOutcome(e, e.mission, [], st);
    assert [] + [MissionConfirmed, MissionCompleted] == [MissionConfirmed, MissionCompleted];
  }

  /** `cancel_mission` likewise; a mission that has not started is cancelled at once. */
  lemma StartCancelOutcome(e: Entry, known: bool, st: Stamps)
    ensures var m, s := e.mission, StartCancel(e, known, st);
            var both := m.resolvedProviderId.Some? && m.reservationId.Some?;
            var neither := m.resolvedProviderId.None? && m.reservationId.None?;
            && SamePair(m, s.entry.mission)
            && (s == Raised(e, InvalidCancellation) <==>
                  m.status !in {Created, Waiting, Paused} && (m.status != RequiresConfirmation || !(neither || (both && known))))
            && (m.status == RequiresConfirmation && both && known ==>
                  && s.Suspended? && s.at == AwaitCancel(m.reservationId.value) && Some(s.provider) == m.resolvedProviderId
                  && s.entry.attempts == e.attempts && Became(m, s.entry.mission, RequiresConfirmation, [CancellationStarted]))
            && (m.status in {Created, Waiting, Paused} || (m.status == RequiresConfirmation && neither) ==>
                  Finished(e, s, true, Cancelled, [], MissionCancelled))
  {
    hide Emit, Transition, UpdateLedger, LedgerFollows, FinishAs;
    EmitAdds(st);
    NothingNew(e.mission);
    ComesFrom(e.mission.status, Cancelled);
    FinishOutcome(e, e.mission, [], Cancelled, MissionCancelled, st);
  }

  // ------------------------------------------------------------------ services

  /** A service records one event at the end; `status`, schedule and the pair are what it may change besides. */
  ghost predicate Served(m: Mission, r: Mission, kind: EventKind) {
    && |r.log| == |m.log| + 1 && m.log <= r.log && r.log[|m.log|].kind == kind
    && r.lastEventSequence == m.lastEventSequence + 1
  }

  lemma RetryOutcome(e: Entry, retryAt: Option<Time>, now: Time, st: Stamps)
    ensures var m, r := e.mission, RetryMission(e, retryAt, now, st);
            var past := retryAt.Some? && retryAt.value < now;
            var at := if retryAt.Some? then retryAt.value else now;
            && (r == Failure(InvalidRetryTime) <==> past)
            && (r == Failure(RetryNotAllowed) <==> !past && m.status != Failed)
            && (r == Failure(AttemptsExhausted) <==> !past && m.status == Failed && m.executionAttempts >= m.maxExecutionAttempts)
            && (r.Success? <==> !past && m.status == Failed && m.executionAttempts < m.maxExecutionAttempts)
            && (r.Success? ==>
                  var n := r.value.mission;
                  && Served(m, n, MissionRetryScheduled(at)) && n.log[|m.log|].timestamp == now
                  && r.value.attempts == e.attempts
                  && n == m.(status := Waiting, claimedAt := None, scheduledAt := Some(at), resolvedProviderId := None,
                             reservationId := None, bestOption := None, trail := m.trail + [Visit(Waiting, ByRetry)],
                             log := n.log, lastEventSequence := n.lastEventSequence))
  {
    hide DrawEventId;
  }

  lemma ScheduleOutcome(e: Entry, at: Option<Time>, now: Time, st: Stamps)
    ensures var m, r := e.mission, ScheduleMission(e, at, now, st);
            var planned := m.status in {Created, Waiting, Paused};
            var same := m.scheduledAt == at || (at.None? && m.status == Created);
            var bad := at.Some? && (at.value <= now || (m.expiresAt.Some? && at.value > m.expiresAt.value));
            && (r == Failure(SchedulingNotAllowed) <==> !planned)
            && (r == Failure(InvalidSchedule) <==> planned && !same && bad)
            && (r.Success? <==> planned && (same || !bad))
            && (planned && same ==> r == Success(e))
            && (planned && !same && !bad ==>
                  var n := r.value.mission;
                  && Served(m, n, if at.Some? then MissionScheduled(at.value) else MissionUnscheduled)
                  && n.log[|m.log|].timestamp == now && r.value.attempts == e.attempts
                  && n.scheduledAt == at
                  && n.status == (if m.status == Paused then Paused else if at.Some? then Waiting else Created)
                  && n == m.(status := n.status, claimedAt := n.claimedAt, scheduledAt := at, trail := n.trail,
                             log := n.log, lastEventSequence := n.lastEventSequence))
  {
    hide DrawEventId;
  }

  lemma PauseOutcome(e: Entry, st: Stamps)
    ensures var m, r := e.mission, PauseMission(e, st);
            && (r.Success? <==> m.status in {Created, Waiting})
            && (r.Failure? ==> r == Failure(PauseNotAllowed))
            && (r.Success? ==>
                  var n := r.value.mission;
                  && Served(m, n, MissionPaused) && r.value.attempts == e.attempts
                  && n == m.(status := Paused, claimedAt := None, trail := m.trail + [Visit(Paused, ByTable)],
                             log := n.log, lastEventSequence := n.lastEventSequence))
    ensures var m, r := e.mission, ResumeMission(e, st);
            && (r.Success? <==> m.status == Paused)
            && (r.Failure? ==> r == Failure(ResumeNotAllowed))
            && (r.Success? ==>
                  var n := r.value.mission;
                  && Served(m, n, MissionResumed) && r.value.attempts == e.attempts
                  && n.status == (if m.scheduledAt.Some? then Waiting else Created)
                  && n == m.(status := n.status, claimedAt := None, trail := m.trail + [Visit(n.status, ByTable)],
                             log := n.log, lastEventSequence := n.lastEventSequence))
  {
    hide DrawEventId;
  }

  lemma UpdateOutcome(e: Entry, changes: Changes, modeSupport: Result<bool, Error>, st: Stamps)
    ensures var m, r := e.mission, UpdateMission(e, changes, modeSupport, st);
            var asked := changes.mode.Some? && changes.mode.value != m.mode && m.providerId.Some?;
            var tooFew := changes.maxExecutionAttempts.Some? && changes.maxExecutionAttempts.value < m.executionAttempts;
            && (r == Failure(UpdateNotAllowed) <== m.status !in {Created, Waiting, Paused})
            && (m.status in {Created, Waiting, Paused} && tooFew ==> r == Failure(InvalidUpdate))
            && (m.status in {Created, Waiting, Paused} && !tooFew && asked && modeSupport == Success(false) ==>
                  r == Failure(UnsupportedExecutionMode))
            && (r.Success? <==>
                  m.status in {Created, Waiting, Paused} && !tooFew && (asked ==> modeSupport == Success(true)))
            && (r.Success? ==>
                  var n := r.value.mission;
                  && r.value.attempts == e.attempts
                  && n.title == (if changes.title.Some? then changes.title.value else m.title)
                  && n.fallbackRules == (if changes.fallbackRules.Some? then changes.fallbackRules.value else m.fallbackRules)
                  && n.mode == (if changes.mode.Some? then changes.mode.value else m.mode)
                  && n.maxExecutionAttempts ==
                     (if changes.maxExecutionAttempts.Some? then changes.maxExecutionAttempts.value else m.maxExecutionAttempts)
                  && n == m.(title := n.title, fallbackRules := n.fallbackRules, mode := n.mode,
                             maxExecutionAttempts := n.maxExecutionAttempts, log := n.log, lastEventSequence := n.lastEventSequence)
                  && if (n.title, n.fallbackRules, n.mode, n.maxExecutionAttempts)
                        == (m.title, m.fallbackRules, m.mode, m.maxExecutionAttempts)
                     then r.value == e else Served(m, n, MissionUpdated))
  {
    hide DrawEventId;
  }

  lemma SelectOutcome(e: Entry, choice: Option<ProviderId>, support: ProviderSupport, now: Time, st: Stamps)
    ensures var m, r := e.mission, SelectProvider(e, choice, support, now, st);
            var planned := m.status in {Created, Waiting, Paused};
            && (r == Failure(SelectionNotAllowed) <==> !planned)
            && (planned && choice.Some? && support != Supported ==>
                  r == Failure(match support
                               case NotRegistered => UnknownProvider
                               case NoMissionType => UnsupportedMissionType
                               case _ => UnsupportedExecutionMode))
            && (r.Success? <==> planned && (choice.None? || support == Supported))
            && (r == Success(None) <==> planned && (choice.None? || support == Supported) && choice == m.providerId)
            && (r.Success? && choice != m.providerId ==>
                  && r.value.Some?
                  && var n := r.value.value.mission;
                     && Served(m, n, ProviderSelectionChanged) && n.log[|m.log|].timestamp == now
                     && r.value.value.attempts == e.attempts
                     && n == m.(providerId := choice, resolvedProviderId := None, reservationId := None,
                                log := n.log, lastEventSequence := n.lastEventSequence))
  {
    hide DrawEventId;
  }

  // ------------------------------------------------------------- the due pass

  /** A returned run is worth a retry with attempts left and no option, or a provider failure said to be retryable, at its end. */
  lemma RetriesExactly(m: Mission)
    ensures ShouldRetryMission(m) <==>
            && m.executionAttempts < m.maxExecutionAttempts && m.log != []
            && (m.log[|m.log| - 1].kind == NoValidOptionFound || m.log[|m.log| - 1].kind == ProviderOperationFailed(true))
  {
  }

  lemma MarkOutcome(e: Entry, now: Time, st: Stamps)
    ensures var m, r := e.mission, MarkFailed(e, st).mission;
            && Served(m, r, MissionProcessingFailed) && r.status == Failed && r.claimedAt == None && SamePair(m, r)
            && r.executionAttempts == m.executionAttempts && r.maxExecutionAttempts == m.maxExecutionAttempts
            && r.expiresAt == m.expiresAt && LedgerFollows(e.attempts, MarkFailed(e, st).attempts, r)
    ensures e.mission.status == Failed ==>
              var m, r := e.mission, RecordTerminalFailure(e, now, st).mission;
              && Served(m, r, MissionFailed) && r.log[|m.log|].timestamp == now
              && r == m.(log := r.log, lastEventSequence := r.lastEventSequence)
              && LedgerFollows(e.attempts, RecordTerminalFailure(e, now, st).attempts, r)
  {
    hide DrawEventId;
  }

  /** The deadline is over at this time. */
  predicate Over(m: Mission, now: Time) {
    m.expiresAt.Some? && m.expiresAt.value < now
  }

  /** The retry is due after the delay of the attempts made, or at the deadline if that is earlier, and not in the past. */
  lemma AutomaticRetryOutcome(e: Entry, now: Time, policy: RetryPolicy, st: Stamps)
    requires policy.Valid()
    ensures var m, r := e.mission, AutomaticRetry(e, now, policy, st);
            var timely := m.executionAttempts >= 1 && !Over(m, now);
            && (r == Failure(BadAttemptNumber) <==> m.executionAttempts == 0)
            && (r == Failure(InvalidRetryTime) <==> m.executionAttempts >= 1 && Over(m, now))
            && (r == Failure(RetryNotAllowed) <==> timely && m.status != Failed)
            && (r == Failure(AttemptsExhausted) <==> timely && m.status == Failed && m.executionAttempts >= m.maxExecutionAttempts)
            && (r.Success? <==> timely && m.status == Failed && m.executionAttempts < m.maxExecutionAttempts)
            && (r.Success? ==>
                  var n, delay := r.value.mission, CappedDelay(policy, m.executionAttempts);
                  && n.status == Waiting && n.scheduledAt.Some?
                  && n.scheduledAt.value == (if m.expiresAt.Some? && m.expiresAt.value < now + delay then m.expiresAt.value else now + delay)
                  && Served(m, n, MissionRetryScheduled(n.scheduledAt.value)))
  {
    hide DrawEventId, CappedDelay, UpdateLedger;
    if e.mission.executionAttempts >= 1 {
      DelayIsMonotone(policy, 1, e.mission.executionAttempts);
      RetryOutcome(e, Some(AutomaticRetryTime(e.mission, now, policy)), now, st);
    }
  }

  /** What the pass makes of a run that returned, by the status and the last event of the mission. */
  lemma AfterReturnOutcome(e: Entry, now: Time, policy: RetryPolicy, st: Stamps)
    requires policy.Valid()
    ensures var m := e.mission;
            var (r, verdict) := AfterDueReturn(e, now, policy, st);
            var worth := m.executionAttempts < m.maxExecutionAttempts && m.log != []
                         && m.log[|m.log| - 1].kind in {NoValidOptionFound, ProviderOperationFailed(true)};
            && (m.status in {RequiresConfirmation, Completed} <==> verdict == SucceededVerdict)
            && (m.status !in {RequiresConfirmation, Completed, Failed} <==> verdict == NoVerdict)
            && (m.status != Failed ==> r == e)
            && (m.status == Failed && !worth ==>
                  verdict == FailedVerdict && r.mission.status == Failed && Served(m, r.mission, MissionFailed))
            && (m.status == Failed && worth && m.executionAttempts == 0 ==> r == e && verdict == Escaped(BadAttemptNumber))
            && (m.status == Failed && worth && m.executionAttempts >= 1 && Over(m, now) ==>
                  r == e && verdict == Escaped(InvalidRetryTime))
            && (m.status == Failed && worth && m.executionAttempts >= 1 && !Over(m, now) ==>
                  && verdict == RetryVerdict && r.mission.status == Waiting && r.mission.scheduledAt.Some?
                  && Served(m, r.mission, MissionRetryScheduled(r.mission.scheduledAt.value)))
  {
    hide AutomaticRetry, RecordTerminalFailure, Served, LedgerFollows;
    RetriesExactly(e.mission);
    AutomaticRetryOutcome(e, now, policy, st);
    MarkOutcome(e, now, st);
  }

  /** What it makes of a run that raised: connection and timeout errors alone are retried. */
  lemma AfterRaiseOutcome(e: Entry, error: Error, now: Time, policy: RetryPolicy, st: Stamps)
    requires policy.Valid()
    ensures var m := e.mission;
            var (r, verdict) := AfterDueRaise(e, error, now, policy, st);
            && |r.mission.log| > |m.log| && r.mission.log[|m.log|].kind == MissionProcessingFailed
            && r.mission.status == (if verdict == RetryVerdict then Waiting else Failed)
            && verdict ==
               if error != ProviderCrash(true) then FailedVerdict
               else if m.executionAttempts == 0 then Escaped(BadAttemptNumber)
               else if Over(m, now) then Escaped(InvalidRetryTime)
               else if m.executionAttempts >= m.maxExecutionAttempts then Escaped(AttemptsExhausted)
               else RetryVerdict
  {
    hide AutomaticRetry, MarkFailed, LedgerFollows;
    MarkOutcome(e, now, st);
    AutomaticRetryOutcome(MarkFailed(e, st), now, policy, st);
  }
}
