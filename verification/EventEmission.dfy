/**
 What the services write into a mission's log and what the serializer accepts (app/services/mission_engine.py,
 app/domain/provider_resolution.py, app/services/mission_event_serializer.py): every log that any run builds can be
 saved, and loads again as it was.
 */
module EventEmission {
  import opened Wrappers
  import opened MissionDomain
  import opened EventPayloads
  import opened EventUpcasting
  import opened EventStore
  import S = MissionSteps
  import W = MissionWorld
  import MissionEveryRun

  /** The event type each service passes to `record_event`. */
  function TypeOf(kind: EventKind): string {
    match kind
    case ProviderSelectionChanged => "provider_selection_changed"
    case ProviderResolved(_) => "provider_resolved"
    case ProviderResolutionFailed => "provider_resolution_failed"
    case ParticipantMissing => "participant_missing"
    case MissionStarted => "mission_started"
    case SearchStarted => "search_started"
    case OptionsFound(_) => "options_found"
    case NoValidOptionFound => "no_valid_option_found"
    case BestOptionSelected => "best_option_selected"
    case MissionSearchCompleted => "mission_search_completed"
    case ReservationStarted => "reservation_started"
    case ReservationFailed => "reservation_failed"
    case ReservationSucceeded(_, _) => "reservation_succeeded"
    case WaitingForUserConfirmation => "waiting_for_user_confirmation"
    case AutomaticConfirmationStarted => "automatic_confirmation_started"
    case AutomaticConfirmationFailed => "automatic_confirmation_failed"
    case AutomaticConfirmationSucceeded => "automatic_confirmation_succeeded"
    case ConfirmationStarted => "confirmation_started"
    case ConfirmationFailed => "confirmation_failed"
    case ConfirmationSucceeded => "confirmation_succeeded"
    case MissionConfirmed => "mission_confirmed"
    case MissionCompleted => "mission_completed"
    case CancellationStarted => "cancellation_started"
    case CancellationFailed => "cancellation_failed"
    case CancellationSucceeded => "cancellation_succeeded"
    case MissionCancelled => "mission_cancelled"
    case ProviderOperationFailed(_) => "provider_operation_failed"
    case ClaimRecovered(_) => "claim_recovered"
    case MissionExpired => "mission_expired"
    case MissionRetryScheduled(_) => "mission_retry_scheduled"
    case MissionScheduled(_) => "mission_scheduled"
    case MissionUnscheduled => "mission_unscheduled"
    case MissionPaused => "mission_paused"
    case MissionResumed => "mission_resumed"
    case MissionUpdated => "mission_updated"
    case MissionFailed => "mission_failed"
    case MissionProcessingFailed => "mission_processing_failed"
  }

  /** What a service passes along with the type: free metadata, or the dump of a payload model it has built. */
  datatype Detail = Plain(message: string, fields: JsonObject) | Typed(message: string, payload: Payload)

  function Fields(d: Detail): JsonObject {
    match d
    case Plain(_, fields) => fields
    case Typed(_, payload) => Dump(payload)
  }

  /** The payload model behind an event kind, if there is one. */
  function PayloadFor(kind: EventKind): Option<PayloadKind> {
    match kind
    case ProviderResolved(_) => Some(ResolvedKind)
    case ProviderResolutionFailed => Some(ResolutionFailedKind)
    case ProviderSelectionChanged => Some(SelectionChangedKind)
    case _ => None
  }

  /** Building a payload model runs its validators, so whatever the services dump is valid. */
  predicate Emits(kind: EventKind, d: Detail) {
    match PayloadFor(kind)
    case None => d.Plain?
    case Some(expected) => d.Typed? && KindOf(d.payload) == expected && ValidPayload(d.payload)
  }

  function WrittenEvent(e: Event, d: Detail): ExecutionEvent {
    ExecutionEvent(e.eventId, e.correlationId, e.causationId, e.sequence, e.timestamp, TypeOf(e.kind), d.message, Fields(d))
  }

  /** The log as the services write it, `detail(i)` being what goes with event `i`. */
  function WrittenLog(log: seq<Event>, detail: nat -> Detail): seq<ExecutionEvent> {
    seq(|log|, i requires 0 <= i < |log| => WrittenEvent(log[i], detail(i)))
  }

  ghost predicate EmitsAll(log: seq<Event>, detail: nat -> Detail) {
    forall i: nat :: i < |log| ==> Emits(log[i].kind, detail(i))
  }

  // ---------------------------------------------------------------- one event

  /** The serializer knows every type the services use, and looks for a payload under exactly the three that have one. */
  lemma EveryTypeIsKnown(kind: EventKind)
    ensures KindFor(TypeOf(kind)) == PayloadFor(kind)
    ensures PayloadFor(kind).None? ==> TypeOf(kind) in GenericTypes()
  {
    hide GenericTypes, TypeOf, KindFor;
    if PayloadFor(kind).None? {
      GenericOnes(kind);
      GenericIsFree(TypeOf(kind));
    } else {
      PayloadOnes(kind);
    }
  }

  lemma PayloadOnes(kind: EventKind)
    requires PayloadFor(kind).Some?
    ensures KindFor(TypeOf(kind)) == PayloadFor(kind)
  {
    assert |"provider_resolved"| == 17 && |"provider_resolution_failed"| == 26 && |"provider_selection_changed"| == 26;
    assert "provider_resolution_failed"[9] == 'r' && "provider_selection_changed"[9] == 's';
  }

  lemma GenericIsFree(name: string)
    requires name in GenericTypes()
    ensures KindFor(name) == None
  {
    hide GenericTypes;
    PayloadTypesAreNotGeneric();
  }

  lemma GenericOnes(kind: EventKind)
    requires PayloadFor(kind).None?
    ensures TypeOf(kind) in GenericTypes()
  {
  }

  /** The retry policy reads types back as text: each of its two types stands for one kind of event. */
  lemma RetryTypesAreTheirs(kind: EventKind)
    ensures TypeOf(kind) == "no_valid_option_found" <==> kind.NoValidOptionFound?
    ensures TypeOf(kind) == "provider_operation_failed" <==> kind.ProviderOperationFailed?
  {
    hide TypeOf;
    NoOptionIsTheirs(kind);
    ProviderFailureIsTheirs(kind);
  }

  lemma NoOptionIsTheirs(kind: EventKind)
    ensures TypeOf(kind) == "no_valid_option_found" <==> kind.NoValidOptionFound?
  {
    assert "no_valid_option_found"[0] == 'n';
  }

  lemma ProviderFailureIsTheirs(kind: EventKind)
    ensures TypeOf(kind) == "provider_operation_failed" <==> kind.ProviderOperationFailed?
  {
    assert "provider_operation_failed"[10] == 'p';
  }

  lemma PayloadTypesAreNotGeneric()
    ensures "provider_resolved" !in GenericTypes()
    ensures "provider_resolution_failed" !in GenericTypes()
    ensures "provider_selection_changed" !in GenericTypes()
  {
  }

  lemma EmittedIsNormal(e: Event, d: Detail)
    requires e.eventId != 0 && e.sequence >= 1 && Emits(e.kind, d)
    ensures Writable(WrittenEvent(e, d)) && Normalised(WrittenEvent(e, d)) == WrittenEvent(e, d)
  {
    hide TypeOf, GenericTypes, KindFor, Parse, Dump, ValidPayload;
    EveryTypeIsKnown(e.kind);
    if d.Typed? {
      DumpIsNormal(TypeOf(e.kind), d.payload);
    } else {
      assert Normal(TypeOf(e.kind), d.fields) == Some(d.fields);
    }
  }

  // ------------------------------------------------------------- the whole log

  /** The headers of the written log are the log, but for the kinds that headers do not carry. */
  lemma WrittenHeaders(log: seq<Event>, detail: nat -> Detail)
    ensures |Headers(WrittenLog(log, detail))| == |log|
    ensures forall i :: 0 <= i < |log| ==> Headers(WrittenLog(log, detail))[i] == log[i].(kind := MissionStarted)
  {
    hide TypeOf, Fields;
    forall i | 0 <= i < |log|
      ensures Headers(WrittenLog(log, detail))[i] == log[i].(kind := MissionStarted)
    {
      assert WrittenLog(log, detail)[i] == WrittenEvent(log[i], detail(i));
    }
  }

  lemma ValidWhateverTheKinds(log: seq<Event>, headers: seq<Event>, last: nat)
    requires ValidLog(log, last) && |headers| == |log|
    requires forall i :: 0 <= i < |log| ==> headers[i] == log[i].(kind := MissionStarted)
    ensures ValidLog(headers, last)
  {
    forall i | 0 <= i < |log|
      ensures headers[i].sequence > (if i == 0 then 0 else headers[i - 1].sequence)
    {
      assert headers[i].sequence == log[i].sequence;
      if i > 0 {
        assert headers[i - 1].sequence == log[i - 1].sequence;
      }
    }
  }

  /** Any causal log can be saved with what the services pass along, and loads as it was. */
  lemma CausalLogSaves(log: seq<Event>, detail: nat -> Detail, missionId: Option<MissionId>, derive: DeriveId, drawn: nat -> Drawn)
    requires Causal(log) && EmitsAll(log, detail)
    ensures var events := WrittenLog(log, detail);
            SaveLog(events).Success? && Restore(SaveLog(events).value, missionId, derive, drawn) == Success(events)
  {
    hide Emits, WrittenEvent, SaveLog, Restore, Writable, Normalised;
    var events := WrittenLog(log, detail);
    forall i: nat | i < |log|
      ensures Writable(events[i]) && Normalised(events[i]) == events[i]
    {
      EmittedIsNormal(log[i], detail(i));
    }
    assert AllNormalised(events) == events;
    SaveLoad(events, missionId, derive, drawn);
  }

  /**
   In every run, with every interleaving and every stale copy stored back, the mission's log can be saved; what is
   saved loads in any context as the very log that was written, and the sequence validator accepts it.
   */
  lemma EveryLogSavesAndLoads(run: seq<W.World>, n: nat, detail: nat -> Detail,
                              missionId: Option<MissionId>, derive: DeriveId, drawn: nat -> Drawn)
    requires W.IsRun(W.AnyOrder, run) && n < |run|
    requires run[n].HasStored() ==> EmitsAll(run[n].StoredMission().log, detail)
    ensures run[n].HasStored()
    ensures var m := run[n].StoredMission();
            var events := WrittenLog(m.log, detail);
            && SaveLog(events).Success?
            && Restore(SaveLog(events).value, missionId, derive, drawn) == Success(events)
            && ValidLog(Headers(events), m.lastEventSequence)
  {
    hide EmitsAll, WrittenLog, SaveLog, Restore, Causal, ValidLog;
    MissionEveryRun.CausalLog(run, n);
    var m := run[n].StoredMission();
    CausalLogSaves(m.log, detail, missionId, derive, drawn);
    WrittenHeaders(m.log, detail);
    ValidWhateverTheKinds(m.log, Headers(WrittenLog(m.log, detail)), m.lastEventSequence);
  }

  // --------------------------------------------------- the selection's payload

  type Names = ProviderId -> string

  /** Provider identifiers as text: normalised, and different for different providers. */
  ghost predicate Naming(names: Names) {
    && (forall p: ProviderId :: Trimmed(names(p)))
    && (forall p: ProviderId, q: ProviderId :: p != q ==> names(p) != names(q))
  }

  function NameOf(names: Names, provider: Option<ProviderId>): Option<string> {
    if provider.Some? then Some(names(provider.value)) else None
  }

  /** The selection event is recorded exactly where its payload is valid: when the selection really changes. */
  lemma SelectionPayloadExactly(e: S.Entry, provider: Option<ProviderId>, support: S.ProviderSupport, now: Time, st: Stamps,
                                names: Names)
    requires Naming(names) && S.SelectProvider(e, provider, support, now, st).Success?
    ensures var payload := SelectionChanged(NameOf(names, e.mission.providerId), NameOf(names, provider));
            S.SelectProvider(e, provider, support, now, st).value.Some? <==> ValidPayload(payload)
  {
    hide Trimmed;
  }
}
