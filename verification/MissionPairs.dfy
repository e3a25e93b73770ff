/**
 What any step does to the provider and the reservation an object records, whatever run it is taken in.
 */
module MissionPairs {
  import opened Backoff
  import opened Wrappers
  import opened MissionDomain
  import opened MissionSteps
  import opened MissionInvariants
  import opened MissionWorld
  import opened MissionSafety
  import opened MissionLifecycle
  import opened MissionTraces
  import opened MissionEveryRun
  import opened MissionExactness
  import opened MissionForks

  // ------------------------------------------------------- what a segment does

  /** Waiting for the user or completed. */
  predicate Resting(s: Status) {
    s == RequiresConfirmation || s == Completed
  }

  /** The provider just resolved and the reservation just booked. */
  datatype Written = Written(resolved: Option<ProviderId>, booked: Option<ReservationId>)

  const NOTHING := Written(None, None)

  /**
   Both halves of the pair are kept, cleared or just written.  A change that leaves the object resting leaves its pair
   alone, but for the reservation just booked.
   */
  ghost predicate KeepsPair(m: Mission, r: Mission, wrote: Written) {
    && (r.resolvedProviderId in {m.resolvedProviderId, None} || (wrote.resolved.Some? && r.resolvedProviderId == wrote.resolved))
    && (r.reservationId in {m.reservationId, None} || (wrote.booked.Some? && r.reservationId == wrote.booked))
    && (Resting(r.status) ==>
          && r.resolvedProviderId == m.resolvedProviderId && r.id == m.id
          && r.reservationId == (if wrote.booked.Some? then wrote.booked else m.reservationId)
          && (r.status == RequiresConfirmation && wrote.booked.None? ==> m.status == RequiresConfirmation))
  }

  lemma ReservePair(e: Entry, provider: ProviderId, answer: ReserveAnswer, st: Stamps)
    ensures KeepsPair(e.mission, AfterReserve(e, provider, answer, st).entry.mission,
                      Written(None, if answer.Reserved? then Some(answer.reservation) else None))
  {
    hide Emit, FinishAs;
    EmitEmits(st);
    FinishesFinish(e, e, st);
  }

  lemma SearchPair(e: Entry, processing: bool, provider: ProviderId, answer: SearchAnswer, st: Stamps)
    ensures KeepsPair(e.mission, AfterSearch(e, processing, provider, answer, st).entry.mission, NOTHING)
  {
    hide Emit, FinishAs, AllowedTransitions, Adds, Traced, Logged;
    EmitEmits(st);
    FinishesFinish(e, e, st);
  }

  lemma AnswerPair(e: Entry, answer: CallAnswer, st: Stamps)
    ensures KeepsPair(e.mission, AfterAutoConfirm(e, answer, st).entry.mission, NOTHING)
    ensures KeepsPair(e.mission, AfterConfirm(e, answer, st).entry.mission, NOTHING)
    ensures KeepsPair(e.mission, AfterCancel(e, answer, st).entry.mission, NOTHING)
  {
    hide AfterAutoConfirm, AfterConfirm, AfterCancel, KeepsPair;
    AutoConfirmPair(e, answer, st);
    ConfirmPair(e, answer, st);
    CancelPair(e, answer, st);
  }

  lemma AutoConfirmPair(e: Entry, answer: CallAnswer, st: Stamps)
    ensures KeepsPair(e.mission, AfterAutoConfirm(e, answer, st).entry.mission, NOTHING)
  {
    hide Emit, FinishAs, Adds, Traced, Logged;
    EmitEmits(st);
    FinishesFinish(e, e, st);
  }

  lemma CancelPair(e: Entry, answer: CallAnswer, st: Stamps)
    ensures KeepsPair(e.mission, AfterCancel(e, answer, st).entry.mission, NOTHING)
  {
    hide Emit, FinishAs, Adds, Traced, Logged;
    EmitEmits(st);
    FinishesFinish(e, e, st);
  }

  lemma ConfirmPair(e: Entry, answer: CallAnswer, st: Stamps)
    ensures KeepsPair(e.mission, AfterConfirm(e, answer, st).entry.mission, NOTHING)
  {
    hide Emit, FinishAs, AllowedTransitions, UpdateLedger, Adds, Traced, Logged;
    EmitEmits(st);
    FinishesFinish(e, e, st);
  }

  lemma RequestPair(e: Entry, providerKnown: bool, st: Stamps)
    ensures KeepsPair(e.mission, StartConfirm(e, providerKnown, st).entry.mission, NOTHING)
    ensures KeepsPair(e.mission, StartCancel(e, providerKnown, st).entry.mission, NOTHING)
  {
    hide Emit, FinishAs, AllowedTransitions, UpdateLedger, Adds, Traced, Logged;
    EmitEmits(st);
    FinishesFinish(e, e, st);
  }

  function ResolvedTo(resolution: Resolution): Option<ProviderId> {
    match resolution
    case Resolved(provider) => Some(provider)
    case Unresolved => None
  }

  lemma StartPair(e: Entry, now: Time, allowProcessing: bool, resolution: Resolution, found: bool, st: Stamps)
    ensures KeepsPair(e.mission, StartRun(e, now, allowProcessing, resolution, found, st).entry.mission,
                      Written(ResolvedTo(resolution), None))
  {
    hide Emit, FinishAs, UpdateLedger, EmitAt, BeginSearch;
    EmitEmits(st);
    var m := e.mission;
    if m.status in {Created, Waiting, Processing} {
      ExpiredStatus(m, now, st);
      if resolution.Resolved? {
        var known := Emit(m.(resolvedProviderId := Some(resolution.provider)), ProviderResolved(resolution.provider), st);
        BeginPair(Save(e.(mission := known)), resolution.provider, found, st);
      }
    }
  }

  lemma ExpiredStatus(m: Mission, now: Time, st: Stamps)
    ensures Expire(m, now, st).status == m.status || Expire(m, now, st).status == Expired
    ensures SameBooking(m, Expire(m, now, st))
  {
    hide DrawEventId, AllowedTransitions;
  }

  lemma BeginPair(e: Entry, provider: ProviderId, found: bool, st: Stamps)
    requires !Resting(e.mission.status)
    ensures !Resting(BeginSearch(e, provider, found, st).entry.mission.status)
    ensures SameBooking(e.mission, BeginSearch(e, provider, found, st).entry.mission)
  {
    hide Emit, FinishAs, AllowedTransitions;
    EmitEmits(st);
    FinishesFinish(e, e, st);
  }

  /** The pass leaves a resting mission alone or fails it. */
  lemma DueEndPair(e: Entry, error: Error, now: Time, policy: ValidPolicy, st: Stamps)
    ensures Resting(AfterDueReturn(e, now, policy, st).0.mission.status) ==> AfterDueReturn(e, now, policy, st).0 == e
    ensures !Resting(AfterDueRaise(e, error, now, policy, st).0.mission.status)
    ensures KeepsPair(e.mission, AfterDueReturn(e, now, policy, st).0.mission, NOTHING)
    ensures KeepsPair(e.mission, AfterDueRaise(e, error, now, policy, st).0.mission, NOTHING)
  {
    hide AutomaticRetry, RecordTerminalFailure, MarkFailed;
    EndsKeepPair(e, now, policy, st);
    EndsKeepPair(MarkFailed(e, st), now, policy, st);
    MarkedStatus(e, now, st);
    RequeuedStatus(e, now, policy, st);
    RequeuedStatus(MarkFailed(e, st), now, policy, st);
  }

  lemma EndsKeepPair(e: Entry, now: Time, policy: ValidPolicy, st: Stamps)
    ensures SameBooking(e.mission, MarkFailed(e, st).mission)
    ensures e.mission.status == Failed ==> SameBooking(e.mission, RecordTerminalFailure(e, now, st).mission)
    ensures var r := AutomaticRetry(e, now, policy, st);
            r.Success? ==> r.value.mission.resolvedProviderId == None && r.value.mission.reservationId == None
  {
    hide DrawEventId, UpdateLedger, CappedDelay;
  }

  /** None of the services leaves a mission resting that it has changed. */
  lemma ServicePair(e: Entry, step: Step)
    requires step.RetryRequest? || step.ScheduleRequest? || step.PauseRequest? || step.ResumeRequest? || step.UpdateRequest?
    ensures var r := match step
              case RetryRequest(retryAt, now, st) => RetryMission(e, retryAt, now, st)
              case ScheduleRequest(at, now, st) => ScheduleMission(e, at, now, st)
              case PauseRequest(st) => PauseMission(e, st)
              case ResumeRequest(st) => ResumeMission(e, st)
              case UpdateRequest(changes, modeSupport, st) => UpdateMission(e, changes, modeSupport, st)
              case _ => Failure(NotReady);
            r.Success? ==> !Resting(r.value.mission.status) && KeepsPair(e.mission, r.value.mission, NOTHING)
  {
    hide DrawEventId, UpdateLedger;
  }

  lemma RepositoryPair(e: Entry, now: Time, st: Stamps)
    ensures KeepsPair(e.mission, Claim(e, now).mission, NOTHING)
    ensures KeepsPair(e.mission, Expire(e.mission, now, st), NOTHING)
    ensures KeepsPair(e.mission, Recover(e, now, st).mission, NOTHING)
  {
    hide DrawEventId, AllowedTransitions;
  }

  // ---------------------------------------------------------------- one step

  /** A reservation answer arrives for the object. */
  predicate Rebooks(w: World, step: Step, ref: nat) {
    CanStep(w, step) && step.ReserveReply? && w.calls[step.call].ref == ref && AnswerOf(w, step).Reserved?
  }

  function Booked(w: World, step: Step, ref: nat): Option<ReservationId> {
    if Rebooks(w, step, ref) then Some(AnswerOf(w, step).reservation) else None
  }

  /** A run starts on the object and resolves its provider. */
  function ResolvedBy(w: World, step: Step, ref: nat): Option<ProviderId> {
    if ref != w.stored then None
    else
      match step
      case StartDue(_, resolution, _, _) => ResolvedTo(resolution)
      case StartManual(_, _, resolution, _, _) => ResolvedTo(resolution)
      case _ => None
  }

  function WrittenBy(w: World, step: Step, ref: nat): Written {
    Written(ResolvedBy(w, step, ref), Booked(w, step, ref))
  }

  lemma ConcludePair(w: World, c: nat, call: Call, s: Segment, st: Stamps, ref: nat, wrote: Written)
    requires w.HasStored() && call.ref < |w.objects| && ref < |w.objects|
    requires KeepsPair(w.objects[call.ref], s.entry.mission, wrote)
    ensures ref < |Conclude(w, c, call, s, st).objects|
    ensures KeepsPair(w.objects[ref], Conclude(w, c, call, s, st).objects[ref], if ref == call.ref then wrote else NOTHING)
  {
    hide AfterDueReturn, AfterDueRaise;
    var seen := if s.Returned? || call.ref == w.stored then s.entry else Entry(w.objects[w.stored], s.entry.attempts);
    if call.driver.DuePass? {
      DueEndPair(seen, if s.Raised? then s.error else NotReady, call.driver.now, w.policy, st);
    }
  }

  /** In whatever world, every step keeps the pair of every object in this sense. */
  lemma PairMoves(w: World, step: Step, ref: nat)
    requires CanStep(w, step) && ref < |w.objects|
    ensures ref < |Next(w, step).objects|
    ensures KeepsPair(w.objects[ref], Next(w, step).objects[ref], WrittenBy(w, step, ref))
  {
    hide Next, CanStep, KeepsPair;
    if step.SearchReply? || step.CancelReply? {
      ReplyPair(w, step, ref);
    } else if step.ReserveReply? || step.AutoConfirmReply? || step.ConfirmReply? {
      BookingReplyPair(w, step, ref);
    } else if step.StartDue? || step.StartManual? || step.ConfirmRequest? || step.CancelRequest? {
      StartStepPair(w, step, ref);
    } else {
      OtherPair(w, step, ref);
    }
  }

  lemma ReplyPair(w: World, step: Step, ref: nat)
    requires CanStep(w, step) && ref < |w.objects| && (step.SearchReply? || step.CancelReply?)
    ensures ref < |Next(w, step).objects|
    ensures KeepsPair(w.objects[ref], Next(w, step).objects[ref], WrittenBy(w, step, ref))
  {
    hide Conclude, AfterSearch, AfterCancel, KeepsPair;
    var call := w.calls[step.call];
    var e := EntryOf(w, call.ref);
    if step.SearchReply? {
      SearchPair(e, call.processing, call.provider, step.search, step.st);
      ConcludePair(w, step.call, call, AfterSearch(e, call.processing, call.provider, step.search, step.st), step.st, ref, NOTHING);
    } else {
      AnswerPair(e, step.answer, step.st);
      ConcludePair(w, step.call, call, AfterCancel(e, step.answer, step.st), step.st, ref, NOTHING);
    }
  }

  lemma BookingReplyPair(w: World, step: Step, ref: nat)
    requires CanStep(w, step) && ref < |w.objects| && (step.ReserveReply? || step.AutoConfirmReply? || step.ConfirmReply?)
    ensures ref < |Next(w, step).objects|
    ensures KeepsPair(w.objects[ref], Next(w, step).objects[ref], WrittenBy(w, step, ref))
  {
    hide Conclude, AfterReserve, AfterAutoConfirm, AfterConfirm, Reserve, Confirm, KeepsPair;
    var call := w.calls[step.call];
    var e := EntryOf(w, call.ref);
    BookAfterReply(w, step);
    if step.ReserveReply? {
      ReservePair(e, call.provider, AnswerOf(w, step), step.st);
    } else {
      AnswerPair(e, step.confirm.answer, step.st);
    }
    ConcludeOther(w, step, ref);
  }

  /** The object of a reply moves as its segment moved it, and any other keeps its pair. */
  lemma ConcludeOther(w: World, step: Step, ref: nat)
    requires CanStep(w, step) && ref < |w.objects| && (step.ReserveReply? || step.AutoConfirmReply? || step.ConfirmReply?)
    requires var call := w.calls[step.call];
             KeepsPair(w.objects[call.ref], ReplySegment(w, step).entry.mission, WrittenBy(w, step, call.ref))
    ensures ref < |Next(w, step).objects|
    ensures KeepsPair(w.objects[ref], Next(w, step).objects[ref], WrittenBy(w, step, ref))
  {
    hide AfterReserve, AfterAutoConfirm, AfterConfirm, Reserve, Confirm, AfterDueReturn, AfterDueRaise;
    var call, s := w.calls[step.call], ReplySegment(w, step);
    var seen := if s.Returned? || call.ref == w.stored then s.entry else Entry(w.objects[w.stored], s.entry.attempts);
    if call.driver.DuePass? {
      DueEndPair(seen, if s.Raised? then s.error else NotReady, call.driver.now, w.policy, step.st);
    }
  }

  lemma StartStepPair(w: World, step: Step, ref: nat)
    requires CanStep(w, step) && ref < |w.objects|
    requires step.StartDue? || step.StartManual? || step.ConfirmRequest? || step.CancelRequest?
    ensures ref < |Next(w, step).objects|
    ensures KeepsPair(w.objects[ref], Next(w, step).objects[ref], WrittenBy(w, step, ref))
  {
    hide Conclude, StartRun, StartConfirm, StartCancel, KeepsPair;
    var e := w.StoredEntry();
    var started := Call(Api, InLine, w.stored, false, 0);
    match step
    case StartDue(c, resolution, found, st) =>
      var call := w.calls[c].(ref := w.stored, processing := e.mission.status == Processing);
      StartPair(e, call.driver.now, true, resolution, found, st);
      ConcludePair(w, c, call, StartRun(e, call.driver.now, true, resolution, found, st), st, ref, Written(ResolvedTo(resolution), None));
    case StartManual(c, now, resolution, found, st) =>
      StartPair(e, now, false, resolution, found, st);
      ConcludePair(w, c, started, StartRun(e, now, false, resolution, found, st), st, ref, Written(ResolvedTo(resolution), None));
    case ConfirmRequest(c, providerKnown, st) =>
      RequestPair(e, providerKnown, st);
      ConcludePair(w, c, started, StartConfirm(e, providerKnown, st), st, ref, NOTHING);
    case CancelRequest(c, providerKnown, st) =>
      RequestPair(e, providerKnown, st);
      ConcludePair(w, c, started, StartCancel(e, providerKnown, st), st, ref, NOTHING);
  }

  lemma OtherPair(w: World, step: Step, ref: nat)
    requires CanStep(w, step) && ref < |w.objects|
    requires step.RetryRequest? || step.ScheduleRequest? || step.PauseRequest? || step.ResumeRequest? || step.UpdateRequest?
             || step.ClaimDue? || step.ExpireDue? || step.RecoverStale? || step.Abandon? || step.SelectRequest?
    ensures ref < |Next(w, step).objects|
    ensures KeepsPair(w.objects[ref], Next(w, step).objects[ref], WrittenBy(w, step, ref))
  {
    hide KeepsPair, Next;
    SamePair(w.objects[ref]);
    if step.RetryRequest? || step.ScheduleRequest? || step.PauseRequest? || step.ResumeRequest? || step.UpdateRequest? {
      ServiceStepPair(w, step, ref);
    } else {
      RepositoryStepPair(w, step, ref);
    }
  }

  lemma SamePair(m: Mission)
    ensures KeepsPair(m, m, NOTHING)
  {
  }

  lemma ServiceStepPair(w: World, step: Step, ref: nat)
    requires CanStep(w, step) && ref < |w.objects|
    requires step.RetryRequest? || step.ScheduleRequest? || step.PauseRequest? || step.ResumeRequest? || step.UpdateRequest?
    ensures ref < |Next(w, step).objects|
    ensures KeepsPair(w.objects[ref], Next(w, step).objects[ref], NOTHING)
  {
    hide RetryMission, ScheduleMission, PauseMission, ResumeMission, UpdateMission;
    ServicePair(w.StoredEntry(), step);
  }

  lemma RepositoryStepPair(w: World, step: Step, ref: nat)
    requires CanStep(w, step) && ref < |w.objects|
    requires step.ClaimDue? || step.ExpireDue? || step.RecoverStale? || step.Abandon? || step.SelectRequest?
    ensures ref < |Next(w, step).objects|
    ensures KeepsPair(w.objects[ref], Next(w, step).objects[ref], NOTHING)
  {
    hide Claim, Expire, Recover, SelectProvider;
    if step.ClaimDue? || step.ExpireDue? || step.RecoverStale? {
      RepositoryPair(w.StoredEntry(), step.now, if step.ClaimDue? then ((k: nat) => Stamp(0, 0)) else step.st);
    }
  }
}
