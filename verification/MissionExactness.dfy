/**
 What completes a mission and what asks for its automatic confirmation, over every run: nothing but the replies of its
 provider, and what a completing reply settles.
 */
module MissionExactness {
  import opened Wrappers
  import opened MissionDomain
  import opened MissionSteps
  import opened MissionInvariants
  import opened MissionWorld
  import opened MissionSafety
  import opened MissionLifecycle
  import opened MissionTraces
  import opened MissionEveryRun
  import opened MissionVersion
  import opened Backoff

  // -------------------------------------------------- reservation answers

  /** The answer a reservation reply brings. */
  function AnswerOf(w: World, step: Step): ReserveAnswer
    requires CanStep(w, step) && step.ReserveReply?
  {
    var call := w.calls[step.call];
    Reserve(w.book, call.provider, ReservationKey(w.objects[call.ref].id), step.fate).1
  }

  /** The segment a reply resumes. */
  function ReplySegment(w: World, step: Step): Segment
    requires CanStep(w, step) && (step.ReserveReply? || step.AutoConfirmReply? || step.ConfirmReply?)
  {
    var call := w.calls[step.call];
    match step
    case ReserveReply(_, _, st) => AfterReserve(EntryOf(w, call.ref), call.provider, AnswerOf(w, step), st)
    case AutoConfirmReply(_, confirm, st) => AfterAutoConfirm(EntryOf(w, call.ref), confirm.answer, st)
    case ConfirmReply(_, confirm, st) => AfterConfirm(EntryOf(w, call.ref), confirm.answer, st)
  }

  lemma BookedFields(e: Entry, provider: ProviderId, answer: ReserveAnswer, st: Stamps)
    ensures var s := AfterReserve(e, provider, answer, st);
            s.Returned? && s.entry.mission.status in {RequiresConfirmation, Completed} ==>
              && answer.Reserved? && s.entry.mission.reservationId == Some(answer.reservation)
              && s.entry.mission.resolvedProviderId == e.mission.resolvedProviderId && s.entry.mission.id == e.mission.id
              && (s.entry.mission.status == Completed ==> !answer.needsConfirmation)
  {
    hide Emit, AllowedTransitions, UpdateLedger;
    EmitEmits(st);
  }

  /** The end of a segment leaves the provider's book alone. */
  lemma BookAfterReply(w: World, step: Step)
    requires CanStep(w, step) && (step.ReserveReply? || step.AutoConfirmReply? || step.ConfirmReply?)
    ensures var call := w.calls[step.call];
            Next(w, step).book ==
            if step.ReserveReply? then Reserve(w.book, call.provider, ReservationKey(w.objects[call.ref].id), step.fate).0
            else Confirm(w.book, call.provider, call.stage.await.reservation, step.confirm)
  {
    hide AfterReserve, AfterAutoConfirm, AfterConfirm, AfterDueReturn, AfterDueRaise, Reserve, Confirm;
  }

  // ------------------------------------------------------------- completions

  /** The reservation a reply is about. */
  function AboutReply(w: World, step: Step): ReservationId
    requires CanStep(w, step) && (step.ReserveReply? || step.AutoConfirmReply? || step.ConfirmReply?)
  {
    if step.ReserveReply? then
      (match AnswerOf(w, step)
       case Reserved(reservation, _) => reservation
       case _ => 0)
    else w.calls[step.call].stage.await.reservation
  }

  /** The step completes the object: a reply of a provider lets its run or confirmation return completed. */
  ghost predicate Completes(w: World, step: Step, ref: nat) {
    && CanStep(w, step) && (step.ReserveReply? || step.AutoConfirmReply? || step.ConfirmReply?)
    && w.calls[step.call].ref == ref
    && ReplySegment(w, step).Returned? && ReplySegment(w, step).entry.mission.status == Completed
  }

  /** Completing an object settles the provider and the reservation of the call. */
  lemma ReplySettles(w: World, step: Step)
    requires EveryOk(w) && CanStep(w, step) && (step.ReserveReply? || step.AutoConfirmReply? || step.ConfirmReply?)
    requires Completes(w, step, w.calls[step.call].ref)
    ensures (w.calls[step.call].provider, AboutReply(w, step)) in Next(w, step).book.settled
    ensures step.ReserveReply? ==> AnswerOf(w, step).Reserved?
  {
    hide EveryOk, AfterReserve, AfterAutoConfirm, AfterConfirm, Conclude, Reserve, Confirm, Fits, Traced, Settles, CallTraced;
    var call := w.calls[step.call];
    ObjectIsOk(w, call.ref);
    BookAfterReply(w, step);
    var e, id := EntryOf(w, call.ref), w.objects[call.ref].id;
    if step.ReserveReply? {
      BookedFields(e, call.provider, AnswerOf(w, step), step.st);
      SettledByReserve(id, w.book, call.provider, step.fate);
    } else {
      ConfirmedFields(e, step.confirm.answer, step.st);
      SettledByConfirm(w.book, call.provider, AboutReply(w, step), step.confirm);
    }
  }

  lemma ConfirmedFields(e: Entry, answer: CallAnswer, st: Stamps)
    ensures var s := AfterAutoConfirm(e, answer, st);
            s.Returned? && s.entry.mission.status == Completed ==> answer.Accepted? && SameBooking(e.mission, s.entry.mission)
    ensures var s := AfterConfirm(e, answer, st);
            s.Returned? && s.entry.mission.status == Completed ==> answer.Accepted? && SameBooking(e.mission, s.entry.mission)
  {
    hide Emit, AllowedTransitions, UpdateLedger;
    EmitEmits(st);
  }

  lemma SettledByReserve(id: MissionId, book: ProviderBook, provider: ProviderId, fate: ReserveFate)
    requires BookOk(id, book)
    ensures var (after, answer) := Reserve(book, provider, ReservationKey(id), fate);
            answer.Reserved? && !answer.needsConfirmation ==>
              after.settled == book.settled + {(provider, answer.reservation)}
  {
  }

  lemma SettledByConfirm(book: ProviderBook, provider: ProviderId, reservation: ReservationId, fate: ConfirmFate)
    ensures fate.answer.Accepted? ==>
              Confirm(book, provider, reservation, fate).settled == book.settled + {(provider, reservation)}
  {
  }

  /** A reply that returns a completed mission stores it, and the due pass leaves it as it is. */
  lemma StoredAfterReply(w: World, step: Step)
    requires CanStep(w, step) && (step.ReserveReply? || step.AutoConfirmReply? || step.ConfirmReply?)
    requires Completes(w, step, w.calls[step.call].ref)
    ensures var after := Next(w, step);
            && after.HasStored() && after.stored == w.calls[step.call].ref
            && after.StoredMission() == ReplySegment(w, step).entry.mission
  {
    hide AfterReserve, AfterAutoConfirm, AfterConfirm, AfterDueRaise, Reserve, Confirm, AutomaticRetry, RecordTerminalFailure;
  }

  /** The object is completed now and was not before. */
  ghost predicate NewlyCompleted(w: World, after: World, ref: nat) {
    && ref < |after.objects| && after.objects[ref].status == Completed
    && (ref < |w.objects| ==> w.objects[ref].status != Completed)
  }

  /** A segment's own object is the only one that its end may complete, and only by returning it completed. */
  lemma ConcludeCompletes(w: World, c: nat, call: Call, s: Segment, st: Stamps, ref: nat)
    requires EveryOk(w) && call.ref < |w.objects| && Fits(s.entry.mission) && NewlyCompleted(w, Conclude(w, c, call, s, st), ref)
    ensures ref == call.ref && s.entry.mission.status == Completed
    ensures Conclude(w, c, call, s, st).objects[ref] == s.entry.mission
  {
    hide Fits, AfterDueReturn, AfterDueRaise, EveryOk, Renews;
    StoredRef(w);
    ObjectFits(w, w.stored);
    var seen := if s.Returned? || call.ref == w.stored then s.entry else Entry(w.objects[w.stored], s.entry.attempts);
    if call.driver.DuePass? {
      var error := if s.Raised? then s.error else NotReady;
      DueEndRenews(seen, error, call.driver.now, w.policy, st);
      DueEndKeepsCompleted(seen, error, call.driver.now, w.policy, st);
      RenewsCompletes(seen.mission, AfterDueReturn(seen, call.driver.now, w.policy, st).0.mission);
      RenewsCompletes(seen.mission, AfterDueRaise(seen, error, call.driver.now, w.policy, st).0.mission);
    }
  }

  lemma RenewsCompletes(m: Mission, r: Mission)
    requires Renews(m, r)
    ensures r.status == Completed ==> m.status == Completed
  {
  }

  lemma DueEndKeepsCompleted(e: Entry, error: Error, now: Time, policy: ValidPolicy, st: Stamps)
    ensures AfterDueReturn(e, now, policy, st).0.mission.status == Completed ==> AfterDueReturn(e, now, policy, st).0 == e
    ensures AfterDueRaise(e, error, now, policy, st).0.mission.status != Completed
  {
    hide RetryMission, RecordTerminalFailure, CappedDelay, MarkFailed;
    var marked := MarkFailed(e, st);
    MarkedStatus(e, now, st);
    RequeuedStatus(e, now, policy, st);
    RequeuedStatus(marked, now, policy, st);
  }

  lemma MarkedStatus(e: Entry, now: Time, st: Stamps)
    ensures MarkFailed(e, st).mission.status == Failed
    ensures e.mission.status == Failed ==> RecordTerminalFailure(e, now, st).mission.status == Failed
  {
    hide DrawEventId, UpdateLedger;
  }

  lemma RequeuedStatus(e: Entry, now: Time, policy: ValidPolicy, st: Stamps)
    ensures var r := AutomaticRetry(e, now, policy, st); r.Success? ==> r.value.mission.status == Waiting
  {
    hide DrawEventId, UpdateLedger, CappedDelay;
  }

  lemma ObjectFits(w: World, ref: nat)
    requires EveryOk(w) && ref < |w.objects|
    ensures Fits(w.objects[ref])
  {
    hide Fits, BookOk, CallTraced, Traced, Settles;
    ObjectIsOk(w, ref);
  }

  /** Nothing but the reply of a provider completes a mission, except a run that only searches. */
  lemma OnlyRepliesComplete(run: seq<World>, n: nat, step: Step, ref: nat)
    requires IsRun(AnyOrder, run) && n < |run| && CanStep(run[n], step) && NewlyCompleted(run[n], Next(run[n], step), ref)
    ensures Logged(Next(run[n], step).objects[ref].log, MissionSearchCompleted) || Completes(run[n], step, ref)
  {
    hide IsRun, EveryOk, Next, NewlyCompleted, Completes, Logged;
    RunEvery(run, n);
    RepliesComplete(run[n], step, ref);
  }

  lemma RepliesComplete(w: World, step: Step, ref: nat)
    requires EveryOk(w) && CanStep(w, step) && NewlyCompleted(w, Next(w, step), ref)
    ensures Logged(Next(w, step).objects[ref].log, MissionSearchCompleted) || Completes(w, step, ref)
  {
    hide EveryOk, Next, NewlyCompleted, Completes, Logged;
    match step
    case SearchReply(_, _, _) => SearchCompletes(w, step, ref);
    case ReserveReply(_, _, _) => ReplyCompletes(w, step, ref);
    case AutoConfirmReply(_, _, _) => ReplyCompletes(w, step, ref);
    case ConfirmReply(_, _, _) => ReplyCompletes(w, step, ref);
    case CancelReply(_, _, _) => SearchCompletes(w, step, ref);
    case StartDue(_, _, _, _) => StartCompletes(w, step, ref);
    case StartManual(_, _, _, _, _) => StartCompletes(w, step, ref);
    case ConfirmRequest(_, _, _) => StartCompletes(w, step, ref);
    case CancelRequest(_, _, _) => StartCompletes(w, step, ref);
    case _ => OtherCompletes(w, step, ref);
  }

  lemma SearchCompletes(w: World, step: Step, ref: nat)
    requires EveryOk(w) && CanStep(w, step) && (step.SearchReply? || step.CancelReply?) && NewlyCompleted(w, Next(w, step), ref)
    ensures Logged(Next(w, step).objects[ref].log, MissionSearchCompleted)
  {
    hide EveryOk, Fits, Traced, Carries, Settles, Conclude, AfterSearch, AfterCancel, BookOk, Logged;
    var call := w.calls[step.call];
    CallIsOk(w, step.call);
    ObjectIsOk(w, call.ref);
    var e := EntryOf(w, call.ref);
    if step.SearchReply? {
      SearchCarries(e, call.processing, call.provider, step.search, step.st);
      ConcludeCompletes(w, step.call, call, AfterSearch(e, call.processing, call.provider, step.search, step.st), step.st, ref);
    } else {
      CancelCarries(e, step.answer, step.st);
      ConcludeCompletes(w, step.call, call, AfterCancel(e, step.answer, step.st), step.st, ref);
    }
  }

  lemma ReplyCompletes(w: World, step: Step, ref: nat)
    requires EveryOk(w) && CanStep(w, step) && NewlyCompleted(w, Next(w, step), ref)
    requires step.ReserveReply? || step.AutoConfirmReply? || step.ConfirmReply?
    ensures Completes(w, step, ref)
  {
    hide EveryOk, Fits, Traced, Carries, Settles, Conclude, AfterReserve, AfterAutoConfirm, AfterConfirm, BookOk;
    hide Logged, LoggedReservation, Reserve, Confirm;
    var call := w.calls[step.call];
    CallIsOk(w, step.call);
    ObjectIsOk(w, call.ref);
    var e := EntryOf(w, call.ref);
    var s := ReplySegment(w, step);
    ReplyFits(w, step);
    var book := Next(w, step).book;
    BookAfterReply(w, step);
    ReplyBook(w, step);
    var w1 := w.(book := book);
    MovesOk(w, w1);
    assert Next(w, step) == Conclude(w1, step.call, call, s, step.st);
    ConcludeCompletes(w1, step.call, call, s, step.st, ref);
  }

  /** The book after a reply is still in order. */
  lemma ReplyBook(w: World, step: Step)
    requires EveryOk(w) && CanStep(w, step) && (step.ReserveReply? || step.AutoConfirmReply? || step.ConfirmReply?)
    ensures Moves(w, w.(book := Next(w, step).book))
  {
    hide EveryOk, Fits, Traced, Settles, Next, Reserve, Confirm, BookOk, Moves;
    var call := w.calls[step.call];
    CallIsOk(w, step.call);
    ObjectIsOk(w, call.ref);
    BookAfterReply(w, step);
    if step.ReserveReply? {
      ReserveKeepsBook(w.StoredMission().id, w.book, call.provider, step.fate);
    } else {
      ConfirmKeepsBook(w.StoredMission().id, w.book, call.provider, call.stage.await.reservation, step.confirm);
    }
    PutBook(w, Next(w, step).book);
  }

  /** A reply leaves a sound object, and one that it completes is returned. */
  lemma ReplyFits(w: World, step: Step)
    requires EveryOk(w) && CanStep(w, step) && (step.ReserveReply? || step.AutoConfirmReply? || step.ConfirmReply?)
    ensures var s := ReplySegment(w, step);
            && Fits(s.entry.mission)
            && (s.entry.mission.status == Completed ==> s.Returned? || w.objects[w.calls[step.call].ref].status == Completed)
  {
    hide EveryOk, Fits, Traced, Settles, Carries, AfterReserve, AfterAutoConfirm, AfterConfirm, BookOk, Reserve, Logged;
    var call := w.calls[step.call];
    CallIsOk(w, step.call);
    ObjectIsOk(w, call.ref);
    var e := EntryOf(w, call.ref);
    UnreturnedStatus(e, call.provider, if step.ReserveReply? then AnswerOf(w, step) else ReserveRejected,
                     if step.ReserveReply? then Rejected else step.confirm.answer, step.st);
    match step
    case ReserveReply(_, _, st) => ReserveCarries(e, call.provider, AnswerOf(w, step), st);
    case AutoConfirmReply(_, confirm, st) => AutoConfirmCarries(e, confirm.answer, st);
    case ConfirmReply(_, confirm, st) => ConfirmCarries(e, confirm.answer, st);
  }

  lemma UnreturnedStatus(e: Entry, provider: ProviderId, booked: ReserveAnswer, answer: CallAnswer, st: Stamps)
    ensures !AfterReserve(e, provider, booked, st).Returned? ==>
              AfterReserve(e, provider, booked, st).entry.mission.status == e.mission.status
    ensures !AfterAutoConfirm(e, answer, st).Returned? ==> AfterAutoConfirm(e, answer, st).entry.mission.status == e.mission.status
    ensures !AfterConfirm(e, answer, st).Returned? ==> AfterConfirm(e, answer, st).entry.mission.status == e.mission.status
  {
    hide Emit, AllowedTransitions, UpdateLedger;
    EmitEmits(st);
  }

  lemma StartCompletes(w: World, step: Step, ref: nat)
    requires EveryOk(w) && CanStep(w, step)
    requires step.StartDue? || step.StartManual? || step.ConfirmRequest? || step.CancelRequest?
    ensures !NewlyCompleted(w, Next(w, step), ref)
  {
    hide EveryOk, Fits, Traced, Carries, Settles, Conclude, StartRun, StartConfirm, StartCancel, BookOk;
    StoredIsOk(w);
    var e := w.StoredEntry();
    var started := Call(Api, InLine, w.stored, false, 0);
    if NewlyCompleted(w, Next(w, step), ref) {
      match step
      case StartDue(c, resolution, found, st) =>
        var call := w.calls[c].(ref := w.stored, processing := e.mission.status == Processing);
        StartRunCarries(e, call.driver.now, true, resolution, found, st);
        ConcludeCompletes(w, c, call, StartRun(e, call.driver.now, true, resolution, found, st), st, ref);
      case StartManual(c, now, resolution, found, st) =>
        StartRunCarries(e, now, false, resolution, found, st);
        ConcludeCompletes(w, c, started, StartRun(e, now, false, resolution, found, st), st, ref);
      case ConfirmRequest(c, providerKnown, st) =>
        RequestsCarry(e, providerKnown, st);
        ConcludeCompletes(w, c, started, StartConfirm(e, providerKnown, st), st, ref);
      case CancelRequest(c, providerKnown, st) =>
        RequestsCarry(e, providerKnown, st);
        ConcludeCompletes(w, c, started, StartCancel(e, providerKnown, st), st, ref);
    }
  }

  lemma OtherCompletes(w: World, step: Step, ref: nat)
    requires EveryOk(w) && CanStep(w, step)
    requires step.RetryRequest? || step.ScheduleRequest? || step.PauseRequest? || step.ResumeRequest? || step.UpdateRequest?
             || step.ClaimDue? || step.ExpireDue? || step.RecoverStale? || step.Abandon? || step.SelectRequest?
    ensures !NewlyCompleted(w, Next(w, step), ref)
  {
    hide EveryOk, Fits, Traced, Settles, Grows, Claim, Expire, Recover;
    hide RetryMission, ScheduleMission, PauseMission, ResumeMission, UpdateMission, SelectProvider;
    StoredIsOk(w);
    var e := w.StoredEntry();
    match step
    case RetryRequest(retryAt, now, st) => RetryRenews(e, retryAt, now, st);
    case ScheduleRequest(at, now, st) => ScheduleRenews(e, at, now, st);
    case PauseRequest(st) => PauseRenews(e, st);
    case ResumeRequest(st) => PauseRenews(e, st);
    case UpdateRequest(changes, modeSupport, st) => UpdateRenews(e, changes, modeSupport, st);
    case ClaimDue(_, now) => ClaimRenews(e, now);
    case ExpireDue(now, st) => ExpireRenews(e.mission, now, st);
    case RecoverStale(now, _, st) => RecoverRenews(e, now, st);
    case Abandon(_) =>
    case SelectRequest(choice, support, now, st) => SelectCopies(e, choice, support, now, st);
    case _ =>
  }

  // -------------------------------------------------- automatic confirmation

  /** In every run a call comes to wait for an automatic confirmation only where the mode does not ask the user. */
  lemma AsksToConfirmOnlyByMode(run: seq<World>, n: nat, step: Step, c: nat)
    requires IsRun(AnyOrder, run) && n < |run| && CanStep(run[n], step)
    requires WaitsForAutoConfirm(Next(run[n], step), c) && !WaitsForAutoConfirm(run[n], c)
    ensures step.ReserveReply? && step.call == c
    ensures var ref := run[n].calls[c].ref;
            run[n].objects[ref].mode != RequireConfirmation && Next(run[n], step).objects[ref].mode != RequireConfirmation
  {
    hide IsRun, EveryOk, Next, Conclude, StartRun, StartConfirm, StartCancel, AfterSearch, AfterReserve, AfterAutoConfirm,
         AfterConfirm, AfterCancel, Reserve, Confirm;
    var w := run[n];
    RunEvery(run, n);
    CallsHaveObjects(w, c);
    NewWait(w, step, c);
    var call := w.calls[c];
    var s := ReplySegment(w, step);
    AsksByMode(EntryOf(w, call.ref), call.provider, AnswerOf(w, step), step.st);
    SuspendedObject(w, step, s);
  }

  lemma CallsHaveObjects(w: World, c: nat)
    requires EveryOk(w)
    ensures w.HasStored() && (c in w.calls ==> w.calls[c].ref < |w.objects|)
  {
    hide ObjectOk, BookOk, AsksTraced;
    if c in w.calls {
      assert CallTraced(w, w.calls[c]);
    }
  }

  /** Only the reservation reply leads to an automatic confirmation. */
  lemma NewWait(w: World, step: Step, c: nat)
    requires CanStep(w, step) && WaitsForAutoConfirm(Next(w, step), c) && !WaitsForAutoConfirm(w, c)
    requires w.HasStored() && (c in w.calls ==> w.calls[c].ref < |w.objects|)
    ensures step.ReserveReply? && step.call == c && ReplySegment(w, step).Suspended? && ReplySegment(w, step).at.AwaitAutoConfirm?
  {
    hide StartRun, StartConfirm, StartCancel, AfterSearch, AfterReserve, AfterAutoConfirm, AfterConfirm, AfterCancel,
         Reserve, Confirm, AfterDueReturn, AfterDueRaise, RetryMission, ScheduleMission, PauseMission, ResumeMission,
         UpdateMission, SelectProvider, Claim, Expire, Recover;
    var e := w.StoredEntry();
    match step
    case StartDue(_, resolution, found, st) => OtherWaits(e, w.calls[step.call].driver.now, true, resolution, found, false, 0, SearchFailed(false), Rejected, st);
    case StartManual(_, now, resolution, found, st) => OtherWaits(e, now, false, resolution, found, false, 0, SearchFailed(false), Rejected, st);
    case ConfirmRequest(_, providerKnown, st) => OtherWaits(e, 0, false, Unresolved, providerKnown, false, 0, SearchFailed(false), Rejected, st);
    case CancelRequest(_, providerKnown, st) => OtherWaits(e, 0, false, Unresolved, providerKnown, false, 0, SearchFailed(false), Rejected, st);
    case SearchReply(_, search, st) =>
      var call := w.calls[step.call];
      OtherWaits(EntryOf(w, call.ref), 0, false, Unresolved, false, call.processing, call.provider, search, Rejected, st);
    case AutoConfirmReply(_, confirm, st) =>
      OtherWaits(EntryOf(w, w.calls[step.call].ref), 0, false, Unresolved, false, false, 0, SearchFailed(false), confirm.answer, st);
    case ConfirmReply(_, confirm, st) =>
      OtherWaits(EntryOf(w, w.calls[step.call].ref), 0, false, Unresolved, false, false, 0, SearchFailed(false), confirm.answer, st);
    case CancelReply(_, answer, st) =>
      OtherWaits(EntryOf(w, w.calls[step.call].ref), 0, false, Unresolved, false, false, 0, SearchFailed(false), answer, st);
    case _ =>
  }

  /** Where the other segments wait. */
  lemma OtherWaits(e: Entry, now: Time, allowProcessing: bool, resolution: Resolution, flag: bool, processing: bool,
                   provider: ProviderId, search: SearchAnswer, answer: CallAnswer, st: Stamps)
    ensures StartRun(e, now, allowProcessing, resolution, flag, st).Suspended? ==>
              StartRun(e, now, allowProcessing, resolution, flag, st).at == AwaitSearch
    ensures StartConfirm(e, flag, st).Suspended? ==> StartConfirm(e, flag, st).at.AwaitConfirm?
    ensures StartCancel(e, flag, st).Suspended? ==> StartCancel(e, flag, st).at.AwaitCancel?
    ensures AfterSearch(e, processing, provider, search, st).Suspended? ==>
              AfterSearch(e, processing, provider, search, st).at == AwaitReserve
    ensures !AfterAutoConfirm(e, answer, st).Suspended? && !AfterConfirm(e, answer, st).Suspended?
            && !AfterCancel(e, answer, st).Suspended?
  {
    hide Emit, Transition, UpdateLedger, Expire;
  }

  lemma AsksByMode(e: Entry, provider: ProviderId, answer: ReserveAnswer, st: Stamps)
    ensures var s := AfterReserve(e, provider, answer, st);
            s.Suspended? ==> e.mission.mode != RequireConfirmation && s.entry.mission.mode == e.mission.mode
  {
    hide Emit, Transition, UpdateLedger;
    EmitEmits(st);
  }

  lemma SuspendedObject(w: World, step: Step, s: Segment)
    requires CanStep(w, step) && step.ReserveReply? && s == ReplySegment(w, step) && s.Suspended?
    ensures w.calls[step.call].ref < |Next(w, step).objects|
    ensures Next(w, step).objects[w.calls[step.call].ref] == s.entry.mission
  {
    hide AfterReserve, Reserve, AfterDueReturn, AfterDueRaise;
  }
}
