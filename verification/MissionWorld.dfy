/**
 One mission under concurrent clients, workers and recovery: every interleaving of the
 operations at the points where a call waits for its provider.  Operations on different
 missions touch different entries, so a run of the whole system is, for each mission, a
 run of this world.

 `get` hands out shared objects, so a suspended call keeps a reference; `stored` is the object the
 repository holds under the mission's id.  Only SetMissionProvider makes a new object for it; `update` stores whichever
 object the call holds.
 */
module MissionWorld {
  import opened Wrappers
  import opened MissionDomain
  import opened MissionSteps
  import opened Backoff
  import R = ProviderRegistry

  type ValidPolicy = p: RetryPolicy | p.Valid() witness DEFAULT_RETRY_POLICY

  // -------------------------------------------------------------- the provider

  /** The idempotency keys are injective in the mission id. */
  datatype Key = ReservationKey(id: MissionId) | ConfirmationKey(id: MissionId) | CancellationKey(id: MissionId)

  datatype Booking = Booking(reservation: ReservationId, needsConfirmation: bool)

  /**
   What the providers have done so far: reservations by idempotency key, the order in which they
   were made, and the reservations that are confirmed or needed no confirmation.
   */
  datatype ProviderBook = ProviderBook(
    reservations: map<(ProviderId, Key), Booking>,
    made: seq<(ProviderId, Key)>,
    settled: set<(ProviderId, ReservationId)>)

  /** A reservation request may be answered, refused, or lost before or after it took effect. */
  datatype ReserveFate =
    | Books(booking: Booking)
    | Refuses
    | Fails(retryable: bool, landed: Option<Booking>)
    | Crashes(transient: bool, landed: Option<Booking>)

  function Landed(fate: ReserveFate): Option<Booking> {
    match fate
    case Books(booking) => Some(booking)
    case Refuses => None
    case Fails(_, landed) => landed
    case Crashes(_, landed) => landed
  }

  /** A key-honouring provider: a key that already has a reservation keeps it and returns it. */
  function Reserve(book: ProviderBook, provider: ProviderId, key: Key, fate: ReserveFate): (ProviderBook, ReserveAnswer) {
    var landed := Landed(fate);
    var after :=
      if (provider, key) in book.reservations || landed.None? then book
      else ProviderBook(
        book.reservations[(provider, key) := landed.value],
        book.made + [(provider, key)],
        if landed.value.needsConfirmation then book.settled
        else book.settled + {(provider, landed.value.reservation)});
    match fate
    case Fails(retryable, _) => (after, ReserveFailed(retryable))
    case Crashes(transient, _) => (after, ReserveCrashed(transient))
    case _ =>
      if (provider, key) in after.reservations then
        var booking := after.reservations[(provider, key)];
        (after, Reserved(booking.reservation, booking.needsConfirmation))
      else (after, ReserveRejected)
  }

  /** A confirmation request; `landed` says whether a lost one still took effect. */
  datatype ConfirmFate = ConfirmFate(answer: CallAnswer, landed: bool)

  function Confirm(book: ProviderBook, provider: ProviderId, reservation: ReservationId, fate: ConfirmFate): ProviderBook {
    if fate.answer.Accepted? || (fate.landed && !fate.answer.Rejected?) then
      book.(settled := book.settled + {(provider, reservation)})
    else book
  }

  // ----------------------------------------------------------------- the world

  /** Who drives a call: an API request, or the due pass that claimed the mission at `now`. */
  datatype Driver = Api | DuePass(now: Time)

  /** Claimed and waiting for its turn in the pass, or inside a provider call. */
  datatype Stage = InLine | At(await: Await)

  datatype Call = Call(driver: Driver, stage: Stage, ref: nat, processing: bool, provider: ProviderId)

  datatype World = World(
    objects: seq<Mission>,
    stored: nat,
    attempts: seq<Attempt>,
    calls: map<nat, Call>,
    book: ProviderBook,
    policy: ValidPolicy,
    registry: seq<R.Adapter<ProviderId>>)
  {
    predicate HasStored() {
      stored < |objects|
    }

    function StoredMission(): Mission
      requires HasStored()
    {
      objects[stored]
    }

    function StoredEntry(): Entry
      requires HasStored()
    {
      Entry(objects[stored], attempts)
    }

    function WithStored(e: Entry): World
      requires HasStored()
    {
      this.(objects := objects[stored := e.mission], attempts := e.attempts)
    }
  }

  datatype Step =
    | ClaimDue(call: nat, now: Time)
    | StartDue(call: nat, resolution: Resolution, participantsFound: bool, st: Stamps)
    | StartManual(call: nat, now: Time, resolution: Resolution, participantsFound: bool, st: Stamps)
    | SearchReply(call: nat, search: SearchAnswer, st: Stamps)
    | ReserveReply(call: nat, fate: ReserveFate, st: Stamps)
    | AutoConfirmReply(call: nat, confirm: ConfirmFate, st: Stamps)
    | ConfirmRequest(call: nat, providerKnown: bool, st: Stamps)
    | ConfirmReply(call: nat, confirm: ConfirmFate, st: Stamps)
    | CancelRequest(call: nat, providerKnown: bool, st: Stamps)
    | CancelReply(call: nat, answer: CallAnswer, st: Stamps)
    | Abandon(call: nat)
    | RetryRequest(retryAt: Option<Time>, now: Time, st: Stamps)
    | ScheduleRequest(at: Option<Time>, now: Time, st: Stamps)
    | PauseRequest(st: Stamps)
    | ResumeRequest(st: Stamps)
    | ExpireDue(now: Time, st: Stamps)
    | RecoverStale(now: Time, claimTimeout: Time, st: Stamps)
    | UpdateRequest(changes: Changes, modeSupport: Result<bool, Error>, st: Stamps)
    | SelectRequest(choice: Option<ProviderId>, support: ProviderSupport, now: Time, st: Stamps)

  /** A live call with a given reference, waiting where the step expects it. */
  predicate Waits(w: World, c: nat, stage: Stage) {
    c in w.calls && w.calls[c].stage == stage && w.calls[c].ref < |w.objects| && w.HasStored()
  }

  predicate WaitsForAutoConfirm(w: World, c: nat) {
    c in w.calls && w.calls[c].stage.At? && w.calls[c].stage.await.AwaitAutoConfirm?
    && w.calls[c].ref < |w.objects| && w.HasStored()
  }

  predicate WaitsForConfirm(w: World, c: nat) {
    c in w.calls && w.calls[c].stage.At? && w.calls[c].stage.await.AwaitConfirm?
    && w.calls[c].ref < |w.objects| && w.HasStored()
  }

  predicate WaitsForCancel(w: World, c: nat) {
    c in w.calls && w.calls[c].stage.At? && w.calls[c].stage.await.AwaitCancel?
    && w.calls[c].ref < |w.objects| && w.HasStored()
  }

  predicate CanStep(w: World, step: Step) {
    w.HasStored() &&
    match step
    case ClaimDue(c, now) => c !in w.calls && Due(w.StoredMission(), now)
    case StartDue(c, _, _, _) => Waits(w, c, InLine) && w.calls[c].driver.DuePass?
    case StartManual(c, _, _, _, _) => c !in w.calls
    case SearchReply(c, _, _) => Waits(w, c, At(AwaitSearch))
    case ReserveReply(c, _, _) => Waits(w, c, At(AwaitReserve))
    case AutoConfirmReply(c, _, _) => WaitsForAutoConfirm(w, c)
    case ConfirmRequest(c, _, _) => c !in w.calls
    case ConfirmReply(c, _, _) => WaitsForConfirm(w, c)
    case CancelRequest(c, _, _) => c !in w.calls
    case CancelReply(c, _, _) => WaitsForCancel(w, c)
    case Abandon(c) => c in w.calls
    case ExpireDue(now, _) => ExpiryDue(w.StoredMission(), now)
    case RecoverStale(now, claimTimeout, _) => claimTimeout > 0 && Stale(w.StoredMission(), now, claimTimeout)
    case _ => true
  }

  function EntryOf(w: World, ref: nat): Entry
    requires ref < |w.objects|
  {
    Entry(w.objects[ref], w.attempts)
  }

  /** The end of a segment for the call `c`, including what its due pass does next. */
  function Conclude(w: World, c: nat, call: Call, s: Segment, st: Stamps): World
    requires w.HasStored() && call.ref < |w.objects|
  {
    var wrote := w.(objects := w.objects[call.ref := s.entry.mission], attempts := s.entry.attempts);
    match s
    case Suspended(_, at, provider) => wrote.(calls := w.calls[c := call.(stage := At(at), provider := provider)])
    case Returned(_) =>
      var saved := wrote.(stored := call.ref, calls := w.calls - {c});
      if call.driver.DuePass? then
        saved.WithStored(AfterDueReturn(saved.StoredEntry(), call.driver.now, w.policy, st).0)
      else saved
    case Raised(_, error) =>
      var ended := wrote.(calls := w.calls - {c});
      if call.driver.DuePass? then
        ended.WithStored(AfterDueRaise(ended.StoredEntry(), error, call.driver.now, w.policy, st).0)
      else ended
  }

  /** A service whose refusal changes nothing. */
  function Serve(w: World, r: Result<Entry, Error>): World
    requires w.HasStored()
  {
    match r
    case Success(e) => w.WithStored(e)
    case Failure(_) => w
  }

  function Next(w: World, step: Step): World
    requires CanStep(w, step)
  {
    var e := w.StoredEntry();
    match step
    case ClaimDue(c, now) =>
      w.WithStored(Claim(e, now)).(calls := w.calls[c := Call(DuePass(now), InLine, w.stored, false, 0)])
    case StartDue(c, resolution, participantsFound, st) =>
      var call := w.calls[c].(ref := w.stored, processing := e.mission.status == Processing);
      Conclude(w, c, call, StartRun(e, call.driver.now, true, resolution, participantsFound, st), st)
    case StartManual(c, now, resolution, participantsFound, st) =>
      Conclude(w, c, Call(Api, InLine, w.stored, false, 0),
               StartRun(e, now, false, resolution, participantsFound, st), st)
    case SearchReply(c, search, st) =>
      var call := w.calls[c];
      Conclude(w, c, call, AfterSearch(EntryOf(w, call.ref), call.processing, call.provider, search, st), st)
    case ReserveReply(c, fate, st) =>
      var call := w.calls[c];
      var (book, answer) := Reserve(w.book, call.provider, ReservationKey(w.objects[call.ref].id), fate);
      Conclude(w.(book := book), c, call, AfterReserve(EntryOf(w, call.ref), call.provider, answer, st), st)
    case AutoConfirmReply(c, confirm, st) =>
      var call := w.calls[c];
      Conclude(w.(book := Confirm(w.book, call.provider, call.stage.await.reservation, confirm)), c, call,
               AfterAutoConfirm(EntryOf(w, call.ref), confirm.answer, st), st)
    case ConfirmRequest(c, providerKnown, st) =>
      Conclude(w, c, Call(Api, InLine, w.stored, false, 0), StartConfirm(e, providerKnown, st), st)
    case ConfirmReply(c, confirm, st) =>
      var call := w.calls[c];
      Conclude(w.(book := Confirm(w.book, call.provider, call.stage.await.reservation, confirm)), c, call,
               AfterConfirm(EntryOf(w, call.ref), confirm.answer, st), st)
    case CancelRequest(c, providerKnown, st) =>
      Conclude(w, c, Call(Api, InLine, w.stored, false, 0), StartCancel(e, providerKnown, st), st)
    case CancelReply(c, answer, st) =>
      var call := w.calls[c];
      Conclude(w, c, call, AfterCancel(EntryOf(w, call.ref), answer, st), st)
    case Abandon(c) => w.(calls := w.calls - {c})
    case RetryRequest(retryAt, now, st) => Serve(w, RetryMission(e, retryAt, now, st))
    case ScheduleRequest(at, now, st) => Serve(w, ScheduleMission(e, at, now, st))
    case PauseRequest(st) => Serve(w, PauseMission(e, st))
    case ResumeRequest(st) => Serve(w, ResumeMission(e, st))
    case ExpireDue(now, st) => w.WithStored(e.(mission := Expire(e.mission, now, st)))
    case RecoverStale(now, _, st) => w.WithStored(Recover(e, now, st))
    case UpdateRequest(changes, modeSupport, st) => Serve(w, UpdateMission(e, changes, modeSupport, st))
    case SelectRequest(choice, support, now, st) =>
      match SelectProvider(e, choice, support, now, st)
      case Success(Some(copy)) =>
        w.(objects := w.objects + [copy.mission], stored := |w.objects|, attempts := copy.attempts)
      case _ => w
  }

  // ------------------------------------------------- what the registry answers

  /** `ProviderResolver.resolve` for the mission as it is. */
  function ResolutionOf(registry: seq<R.Adapter<ProviderId>>, m: Mission): Resolution {
    match R.Resolve(registry, m.providerId, m.mode)
    case Success(provider) => Resolved(provider)
    case Failure(_) => Unresolved
  }

  /** What the registry says to a change of the provider choice; a choice that is withdrawn is not asked about. */
  function SupportOf(registry: seq<R.Adapter<ProviderId>>, choice: Option<ProviderId>, mode: Mode): ProviderSupport {
    if choice.None? then Supported
    else
      match R.Find(registry, choice.value)
      case None => NotRegistered
      case Some(adapter) =>
        if !R.Supports(adapter) then NoMissionType
        else if !R.SupportsMode(adapter, mode) then NoExecutionMode
        else Supported
  }

  /** What it says to a change of mode, which asks only the chosen provider. */
  function ModeSupport(registry: seq<R.Adapter<ProviderId>>, m: Mission, mode: Option<Mode>): Result<bool, Error> {
    if m.providerId.None? || mode.None? then Success(true)
    else
      match R.Find(registry, m.providerId.value)
      case None => Failure(UnknownProvider)
      case Some(adapter) => Success(R.SupportsMode(adapter, mode.value))
  }

  /** Whether the recorded provider is registered, as confirmations and cancellations ask. */
  predicate Known(registry: seq<R.Adapter<ProviderId>>, m: Mission) {
    m.resolvedProviderId.Some? && R.Find(registry, m.resolvedProviderId.value).Some?
  }

  /** The answers a step carries are those of the registry. */
  predicate Answers(w: World, step: Step) {
    w.HasStored() ==>
      match step
      case StartDue(_, resolution, _, _) => resolution == ResolutionOf(w.registry, w.StoredMission())
      case StartManual(_, _, resolution, _, _) => resolution == ResolutionOf(w.registry, w.StoredMission())
      case ConfirmRequest(_, providerKnown, _) => providerKnown == Known(w.registry, w.StoredMission())
      case CancelRequest(_, providerKnown, _) => providerKnown == Known(w.registry, w.StoredMission())
      case UpdateRequest(changes, modeSupport, _) => modeSupport == ModeSupport(w.registry, w.StoredMission(), changes.mode)
      case SelectRequest(choice, support, _, _) => support == SupportOf(w.registry, choice, w.StoredMission().mode)
      case _ => true
  }

  // ---------------------------------------------------------------------- runs

  /** A newly created mission: `MissionCreate.to_domain` makes it waiting exactly when it has a schedule. */
  ghost predicate Initial(w: World) {
    && |w.objects| == 1 && w.stored == 0 && w.attempts == [] && w.calls == map[]
    && w.book == ProviderBook(map[], [], {})
    && var m := w.objects[0];
       && m.status == (if m.scheduledAt.Some? then Waiting else Created)
       && m.trail == [Visit(m.status, Creation)]
       && m.log == [] && m.lastEventSequence == 0
       && m.claimedAt == None && m.resolvedProviderId == None && m.reservationId == None && m.bestOption == None
       && m.executionAttempts == 0 && m.maxExecutionAttempts >= 1
  }

  /** A pending confirmation or cancellation of this mission. */
  ghost predicate Settling(w: World) {
    exists c :: WaitsForConfirm(w, c) || WaitsForCancel(w, c)
  }

  ghost predicate HasDueCall(w: World) {
    exists c :: c in w.calls && w.calls[c].driver.DuePass?
  }

  /** An accepted cancellation whose call holds an object that was replaced meanwhile stores that object again. */
  predicate StoresOldCopy(w: World, step: Step) {
    step.CancelReply? && step.call in w.calls && w.calls[step.call].ref != w.stored && step.answer.Accepted?
  }

  /** Which steps a run may take. */
  datatype Discipline = AnyOrder | NoStaleCopy | Undisturbed

  /**
   AnyOrder: everything, with the answers the registry gives.
   NoStaleCopy: no accepted cancellation stores an object that a choice of provider has replaced.
   Undisturbed: a mission is not recovered while its run is alive, and not retried while a
   confirmation or cancellation waits for its provider.
   */
  ghost predicate Permits(d: Discipline, w: World, step: Step) {
    && Answers(w, step)
    && match d
    case AnyOrder => true
    case NoStaleCopy => !StoresOldCopy(w, step)
    case Undisturbed =>
      && (step.RecoverStale? ==> !HasDueCall(w))
      && (step.RetryRequest? ==> !Settling(w))
  }

  ghost predicate IsRun(d: Discipline, run: seq<World>) {
    && run != []
    && Initial(run[0])
    && forall i :: 0 < i < |run| ==> Follows(d, run[i - 1], run[i])
  }

  ghost predicate Follows(d: Discipline, w: World, after: World) {
    exists step :: CanStep(w, step) && Permits(d, w, step) && after == Next(w, step)
  }
}
