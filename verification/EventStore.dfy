/**
 Writing and reading a mission's event log (app/services/mission_event_serializer.py,
 app/services/mission_event_store.py).
 */
module EventStore {
  import opened Wrappers
  import D = MissionDomain
  import opened MissionDomain
  import opened EventPayloads
  import opened EventUpcasting

  datatype ExecutionEvent = ExecutionEvent(
    eventId: EventId, correlationId: EventId, causationId: Option<EventId>, sequence: nat,
    timestamp: Time, eventType: string, message: string, metadata: JsonObject)

  /** Identifiers the event model draws for keys that are missing. */
  datatype Drawn = Drawn(eventId: EventId, correlationId: EventId)

  // -------------------------------------------------------------- one event

  function OptionalUuid(id: Option<EventId>): UuidField {
    if id.Some? then Uuid(id.value) else NullUuid
  }

  /** `serialize`. */
  function Serialize(e: ExecutionEvent): Result<Raw, LoadError> {
    match Normal(e.eventType, e.metadata)
    case None => Failure(Unreadable)
    case Some(metadata) =>
      if e.eventId == 0 then Failure(Unreadable)
      else
        Success(Raw(Some(Version(CURRENT_VERSION)), Some(Uuid(e.eventId)), Some(Uuid(e.correlationId)),
                    Some(OptionalUuid(e.causationId)), Some(Whole(e.sequence)), Some(e.eventType),
                    Some(e.timestamp), Some(e.message), Metadata(metadata)))
  }

  function RequiredId(field: Option<UuidField>, drawn: EventId): Option<EventId> {
    match field
    case None => Some(drawn)
    case Some(Uuid(id)) => Some(id)
    case Some(_) => None
  }

  /** A nullable identifier: the outer None is a validation error. */
  function NullableId(field: Option<UuidField>): Option<Option<EventId>> {
    match field
    case None => Some(None)
    case Some(NullUuid) => Some(None)
    case Some(Uuid(id)) => Some(Some(id))
    case Some(NotAUuid) => None
  }

  function SequenceNumber(field: Option<NumberField>): Option<nat> {
    match field
    case Some(Whole(n)) => if n >= 1 then Some(n) else None
    case Some(Coercible(n)) => if n >= 1 then Some(n) else None
    case _ => None
  }

  function MetadataOf(field: MetadataField): Option<JsonObject> {
    match field
    case NoMetadata => Some(map[])
    case Metadata(fields) => Some(fields)
    case NotAnObject => None
  }

  /** `ExecutionEvent.model_validate`, the nil check and the payload normalisation. */
  function Validated(raw: Raw, drawn: Drawn): Result<ExecutionEvent, LoadError> {
    var id, correlation := RequiredId(raw.eventId, drawn.eventId), RequiredId(raw.correlationId, drawn.correlationId);
    var causation, sequence := NullableId(raw.causationId), SequenceNumber(raw.sequence);
    var fields := MetadataOf(raw.metadata);
    if id.None? || correlation.None? || causation.None? || sequence.None? || fields.None? then Failure(Unreadable)
    else if raw.eventType.None? || raw.timestamp.None? || raw.message.None? || id.value == 0 then Failure(Unreadable)
    else
      match Normal(raw.eventType.value, fields.value)
      case None => Failure(Unreadable)
      case Some(metadata) =>
        Success(ExecutionEvent(id.value, correlation.value, causation.value, sequence.value,
                               raw.timestamp.value, raw.eventType.value, raw.message.value, metadata))
  }

  /** `deserialize`. */
  function Deserialize(raw: Raw, ctx: Context, derive: DeriveId, drawn: Drawn): Result<ExecutionEvent, LoadError> {
    match ToCurrent(DefaultRegistry(derive), raw, ctx, CURRENT_VERSION)
    case Failure(error) => Failure(error)
    case Success(current) => Validated(current, drawn)
  }

  /** The event with its payload normalised, as serializing and reading leave it. */
  function Normalised(e: ExecutionEvent): ExecutionEvent {
    match Normal(e.eventType, e.metadata)
    case Some(metadata) => e.(metadata := metadata)
    case None => e
  }

  /** What can be written at all. */
  predicate Writable(e: ExecutionEvent) {
    e.eventId != 0 && e.sequence >= 1 && Normal(e.eventType, e.metadata).Some?
  }

  /**
   Reading what was written gives the normalised event, whatever the context, and normalising is idempotent;
   of the events the model allows, exactly the writable ones can be written.
   */
  lemma SerializeRoundTrip(e: ExecutionEvent, ctx: Context, derive: DeriveId, drawn: Drawn)
    requires e.sequence >= 1
    ensures Serialize(e).Success? <==> Writable(e)
    ensures Writable(e) ==> Deserialize(Serialize(e).value, ctx, derive, drawn) == Success(Normalised(e))
    ensures Writable(e) ==> Writable(Normalised(e)) && Normalised(Normalised(e)) == Normalised(e)
  {
    hide Normal;
    if Writable(e) {
      NormalIsIdempotent(e.eventType, e.metadata);
      DefaultChainIsModern(Serialize(e).value, ctx, derive);
    }
  }

  /** The one exception that is not turned into a deserialization error: a version 2 event without an identifier. */
  lemma KeyErrorExactly(raw: Raw, ctx: Context, derive: DeriveId, drawn: Drawn)
    ensures Deserialize(raw, ctx, derive, drawn) == Failure(KeyMissing) <==>
            VersionOf(raw) == Success(2) && raw.eventId.None?
  {
    hide Normal;
    DefaultChainIsModern(raw, ctx, derive);
  }

  /** Whatever can be read is writable and already normal. */
  lemma ReadIsNormal(raw: Raw, ctx: Context, derive: DeriveId, drawn: Drawn)
    requires Deserialize(raw, ctx, derive, drawn).Success?
    ensures var e := Deserialize(raw, ctx, derive, drawn).value;
            Writable(e) && Normalised(e) == e
  {
    hide Normal, ToCurrent;
    var current := ToCurrent(DefaultRegistry(derive), raw, ctx, CURRENT_VERSION).value;
    NormalIsIdempotent(current.eventType.value, MetadataOf(current.metadata).value);
  }

  // ---------------------------------------------------------------- the log

  /** The part of an event that places it in the causal chain. */
  function Header(e: ExecutionEvent): Event {
    Event(e.eventId, e.correlationId, e.causationId, e.sequence, e.timestamp, MissionStarted)
  }

  function Headers(events: seq<ExecutionEvent>): (r: seq<Event>)
    ensures |r| == |events|
  {
    seq(|events|, i requires 0 <= i < |events| => Header(events[i]))
  }

  function ContextAfter(missionId: Option<MissionId>, restored: seq<ExecutionEvent>): Context {
    if restored == [] then Context(missionId, None, None)
    else
      var previous := restored[|restored| - 1];
      Context(missionId, Some(previous.eventId), Some(previous.correlationId))
  }

  /** The restored prefix of a log, each event read in the context of the one before it. */
  function Restore(raws: seq<Raw>, missionId: Option<MissionId>, derive: DeriveId, drawn: nat -> Drawn)
    : (r: Result<seq<ExecutionEvent>, LoadError>)
    ensures r.Success? ==> |r.value| == |raws|
    decreases |raws|
  {
    if raws == [] then Success([])
    else
      var n := |raws| - 1;
      match Restore(raws[..n], missionId, derive, drawn)
      case Failure(error) => Failure(error)
      case Success(restored) =>
        match Deserialize(raws[n], ContextAfter(missionId, restored), derive, drawn(n))
        case Failure(error) => Failure(error)
        case Success(e) => Success(restored + [e])
  }

  datatype StoreError = EventError(error: LoadError) | LogError(invalid: SequenceError)

  /** `MissionJsonEventStore.deserialize`. */
  method LoadLog(raws: seq<Raw>, lastEventSequence: nat, missionId: Option<MissionId>, derive: DeriveId, drawn: nat -> Drawn)
    returns (r: Result<seq<ExecutionEvent>, StoreError>)
    ensures match Restore(raws, missionId, derive, drawn) {
              case Failure(error) => r == Failure(EventError(error))
              case Success(events) =>
                if ValidLog(Headers(events), lastEventSequence) then r == Success(events)
                else r.Failure? && r.error.LogError?
            }
  {
    hide Deserialize, ValidLog;
    var restored: seq<ExecutionEvent> := [];
    for index := 0 to |raws|
      invariant Restore(raws[..index], missionId, derive, drawn) == Success(restored)
    {
      assert raws[..index + 1][..index] == raws[..index];
      var e := Deserialize(raws[index], ContextAfter(missionId, restored), derive, drawn(index));
      if e.Failure? {
        RestoreFails(raws, index + 1, missionId, derive, drawn);
        return Failure(EventError(e.error));
      }
      restored := restored + [e.value];
    }
    assert raws[..|raws|] == raws;
    var checked := ValidateEventSequence(Headers(restored), lastEventSequence);
    if checked.Failure? {
      return Failure(LogError(checked.error));
    }
    return Success(restored);
  }

  lemma {:induction false} RestoreFails(raws: seq<Raw>, n: nat, missionId: Option<MissionId>, derive: DeriveId, drawn: nat -> Drawn)
    requires n <= |raws| && Restore(raws[..n], missionId, derive, drawn).Failure?
    ensures Restore(raws, missionId, derive, drawn) == Failure(Restore(raws[..n], missionId, derive, drawn).error)
    decreases |raws|
  {
    hide Deserialize;
    if n == |raws| {
      assert raws[..n] == raws;
    } else {
      var m := |raws| - 1;
      assert raws[..m][..n] == raws[..n];
      RestoreFails(raws[..m], n, missionId, derive, drawn);
    }
  }

  /** `MissionJsonEventStore.serialize`. */
  function SaveLog(events: seq<ExecutionEvent>): (r: Result<seq<Raw>, LoadError>)
    ensures r.Success? ==> |r.value| == |events|
  {
    if events == [] then Success([])
    else
      var n := |events| - 1;
      match SaveLog(events[..n])
      case Failure(error) => Failure(error)
      case Success(raws) =>
        match Serialize(events[n])
        case Failure(error) => Failure(error)
        case Success(raw) => Success(raws + [raw])
  }

  function AllNormalised(events: seq<ExecutionEvent>): seq<ExecutionEvent> {
    seq(|events|, i requires 0 <= i < |events| => Normalised(events[i]))
  }

  ghost predicate AllWritable(events: seq<ExecutionEvent>) {
    forall i :: 0 <= i < |events| ==> Writable(events[i])
  }

  /** Saving and loading a log normalises its payloads and changes nothing else. */
  lemma {:induction false} SaveLoad(events: seq<ExecutionEvent>, missionId: Option<MissionId>, derive: DeriveId, drawn: nat -> Drawn)
    requires AllWritable(events)
    ensures SaveLog(events).Success?
    ensures Restore(SaveLog(events).value, missionId, derive, drawn) == Success(AllNormalised(events))
    decreases |events|
  {
    hide Deserialize, Serialize, Writable, Normalised, ContextAfter;
    if events == [] {
      assert AllNormalised(events) == [];
    } else {
      hide SaveLog, Restore;
      var n := |events| - 1;
      SaveLoad(events[..n], missionId, derive, drawn);
      assert Writable(events[n]);
      WritableSequence(events[n]);
      var earlier := AllNormalised(events[..n]);
      SerializeRoundTrip(events[n], ContextAfter(missionId, earlier), derive, drawn(n));
      var raws, raw := SaveLog(events[..n]).value, Serialize(events[n]).value;
      SaveOneMore(events, raws, raw);
      RestoreOneMore(raws, raw, missionId, derive, drawn, earlier, Normalised(events[n]));
      assert AllNormalised(events) == earlier + [Normalised(events[n])];
    }
  }

  lemma SaveOneMore(events: seq<ExecutionEvent>, raws: seq<Raw>, raw: Raw)
    requires events != [] && SaveLog(events[..|events| - 1]) == Success(raws) && Serialize(events[|events| - 1]) == Success(raw)
    ensures SaveLog(events) == Success(raws + [raw])
  {
    hide Serialize;
  }

  lemma RestoreOneMore(raws: seq<Raw>, raw: Raw, missionId: Option<MissionId>, derive: DeriveId, drawn: nat -> Drawn,
                       restored: seq<ExecutionEvent>, e: ExecutionEvent)
    requires Restore(raws, missionId, derive, drawn) == Success(restored)
    requires Deserialize(raw, ContextAfter(missionId, restored), derive, drawn(|raws|)) == Success(e)
    ensures Restore(raws + [raw], missionId, derive, drawn) == Success(restored + [e])
  {
    hide Deserialize, ContextAfter;
    assert (raws + [raw])[..|raws|] == raws;
  }

  /** Normalising payloads leaves the chain alone. */
  lemma SameHeaders(events: seq<ExecutionEvent>)
    ensures Headers(AllNormalised(events)) == Headers(events)
  {
    hide Normal;
    forall i | 0 <= i < |events|
      ensures Headers(AllNormalised(events))[i] == Headers(events)[i]
    {
      assert AllNormalised(events)[i] == Normalised(events[i]);
    }
  }

  lemma WritableSequence(e: ExecutionEvent)
    requires Writable(e)
    ensures e.sequence >= 1
  {
  }

  lemma {:induction false} RestoredIsNormal(raws: seq<Raw>, missionId: Option<MissionId>, derive: DeriveId, drawn: nat -> Drawn)
    requires Restore(raws, missionId, derive, drawn).Success?
    ensures var events := Restore(raws, missionId, derive, drawn).value;
            AllWritable(events) && AllNormalised(events) == events
    decreases |raws|
  {
    hide Deserialize, Writable, Normalised;
    if raws != [] {
      var n := |raws| - 1;
      RestoredIsNormal(raws[..n], missionId, derive, drawn);
      var earlier := Restore(raws[..n], missionId, derive, drawn).value;
      ReadIsNormal(raws[n], ContextAfter(missionId, earlier), derive, drawn(n));
      assert AllNormalised(earlier) == earlier;
      forall i | 0 <= i < n
        ensures Normalised(earlier[i]) == earlier[i]
      {
        assert AllNormalised(earlier)[i] == earlier[i];
      }
    }
  }

  /** Load, save, load: the second load gives what the first gave, in any context and with any drawn identifiers. */
  lemma LoadSaveLoad(raws: seq<Raw>, missionId: Option<MissionId>, derive: DeriveId, drawn: nat -> Drawn,
                     otherMission: Option<MissionId>, otherDrawn: nat -> Drawn)
    requires Restore(raws, missionId, derive, drawn).Success?
    ensures var events := Restore(raws, missionId, derive, drawn).value;
            && SaveLog(events).Success?
            && Restore(SaveLog(events).value, otherMission, derive, otherDrawn) == Success(events)
  {
    RestoredIsNormal(raws, missionId, derive, drawn);
    SaveLoad(Restore(raws, missionId, derive, drawn).value, otherMission, derive, otherDrawn);
  }

  // -------------------------------------------------------------- legacy logs

  /** An event from before causal identifiers were stored. */
  predicate Legacy(raw: Raw) {
    && VersionOf(raw).Success? && VersionOf(raw).value < 3
    && raw.correlationId.None? && raw.causationId.None?
  }

  ghost predicate LegacyLog(raws: seq<Raw>) {
    forall i :: 0 <= i < |raws| ==> Legacy(raws[i]) && SequenceNumber(raws[i].sequence) == Some(i + 1)
  }

  /** One legacy event gets the identifiers `record_event` would have given it after the events before it. */
  lemma LegacyEvent(raw: Raw, restored: seq<ExecutionEvent>, missionId: Option<MissionId>, derive: DeriveId, drawn: Drawn)
    requires Legacy(raw) && Deserialize(raw, ContextAfter(missionId, restored), derive, drawn).Success?
    ensures var e := Deserialize(raw, ContextAfter(missionId, restored), derive, drawn).value;
            && e.eventId != 0
            && SequenceNumber(raw.sequence) == Some(e.sequence)
            && e.correlationId == (if restored == [] then e.eventId else restored[|restored| - 1].correlationId)
            && e.causationId == (if restored == [] then None else Some(restored[|restored| - 1].eventId))
            && (raw.eventId.None? ==>
                  && missionId.Some? && PositiveSequence(raw).Some? && VersionOf(raw).value < 2
                  && e.eventId == derive(missionId.value, PositiveSequence(raw).value))
  {
    hide Normal;
    DefaultChainIsModern(raw, ContextAfter(missionId, restored), derive);
  }

  /**
   A legacy log that loads is the causal chain `record_event` would have built: one correlation, each event caused
   by the one before it.
   */
  lemma LegacyLogIsCausal(raws: seq<Raw>, missionId: Option<MissionId>, derive: DeriveId, drawn: nat -> Drawn)
    requires LegacyLog(raws) && Restore(raws, missionId, derive, drawn).Success?
    requires ValidLog(Headers(Restore(raws, missionId, derive, drawn).value), |raws|)
    ensures Causal(Headers(Restore(raws, missionId, derive, drawn).value))
  {
    hide Restore, LegacyLog, ValidLog, Chained, Causal;
    var events := Restore(raws, missionId, derive, drawn).value;
    ValidMeansDistinct(events);
    LegacyLogIsChained(raws, missionId, derive, drawn);
    ChainedIsCausal(Headers(events));
  }

  lemma {:induction false} LegacyLogIsChained(raws: seq<Raw>, missionId: Option<MissionId>, derive: DeriveId, drawn: nat -> Drawn)
    requires LegacyLog(raws) && Restore(raws, missionId, derive, drawn).Success?
    requires DistinctIds(Restore(raws, missionId, derive, drawn).value)
    ensures Chained(Headers(Restore(raws, missionId, derive, drawn).value))
    decreases |raws|
  {
    hide Deserialize, Legacy;
    if raws != [] {
      var n := |raws| - 1;
      var events, earlier := Restore(raws, missionId, derive, drawn).value, Restore(raws[..n], missionId, derive, drawn).value;
      assert events == earlier + [events[n]];
      assert forall i :: 0 <= i < n ==> events[i] == earlier[i];
      LegacyLogIsChained(raws[..n], missionId, derive, drawn);
      assert Legacy(raws[n]);
      LegacyEvent(raws[n], earlier, missionId, derive, drawn(n));
      assert Headers(events)[..n] == Headers(earlier);
      assert SequenceNumber(raws[n].sequence) == Some(n + 1);
    }
  }

  lemma ValidMeansDistinct(events: seq<ExecutionEvent>)
    requires ValidLog(Headers(events), |events|)
    ensures DistinctIds(events)
  {
    forall i, j | 0 <= i < j < |events|
      ensures events[i].eventId != events[j].eventId
    {
      assert Headers(events)[i].eventId != Headers(events)[j].eventId;
    }
  }

  ghost predicate DistinctIds(events: seq<ExecutionEvent>) {
    forall i, j :: 0 <= i < j < |events| ==> events[i].eventId != events[j].eventId
  }

  /** A well-formed event of the first two schema versions: no identifiers yet. */
  predicate Bare(raw: Raw, position: nat) {
    && VersionOf(raw).Success? && VersionOf(raw).value < 2
    && raw.eventId.None? && raw.correlationId.None? && raw.causationId.None?
    && raw.sequence == Some(Whole(position))
    && raw.eventType.Some? && raw.timestamp.Some? && raw.message.Some? && MetadataOf(raw.metadata).Some?
    && Normal(raw.eventType.value, MetadataOf(raw.metadata).value).Some?
  }

  ghost predicate BareLog(raws: seq<Raw>) {
    forall i :: 0 <= i < |raws| ==> Bare(raws[i], i + 1)
  }

  /** The derived identifiers of one mission: never nil, never the same for two sequence numbers. */
  ghost predicate Injective(derive: DeriveId, mission: MissionId) {
    && (forall s: nat :: derive(mission, s) != 0)
    && (forall s: nat, t: nat :: s != t ==> derive(mission, s) != derive(mission, t))
  }

  /** The oldest logs always load, with derived identifiers, as one causal chain. */
  lemma {:induction false} OldestLogsLoad(raws: seq<Raw>, mission: MissionId, derive: DeriveId, drawn: nat -> Drawn)
    requires BareLog(raws) && Injective(derive, mission)
    ensures Restore(raws, Some(mission), derive, drawn).Success?
    ensures var events := Restore(raws, Some(mission), derive, drawn).value;
            && Causal(Headers(events)) && ValidLog(Headers(events), |raws|)
            && forall i :: 0 <= i < |events| ==> events[i].eventId == derive(mission, i + 1)
  {
    BareLogRestores(raws, mission, derive, drawn);
    var events := Restore(raws, Some(mission), derive, drawn).value;
    BareIsLegacy(raws);
    LegacyLogIsChained(raws, Some(mission), derive, drawn);
    ChainedIsCausal(Headers(events));
    ChainedIsValid(Headers(events));
  }

  lemma BareIsLegacy(raws: seq<Raw>)
    requires BareLog(raws)
    ensures LegacyLog(raws)
  {
    forall i | 0 <= i < |raws|
      ensures Legacy(raws[i]) && SequenceNumber(raws[i].sequence) == Some(i + 1)
    {
      assert Bare(raws[i], i + 1);
    }
  }

  lemma BareEventLoads(raw: Raw, position: nat, restored: seq<ExecutionEvent>, mission: MissionId, derive: DeriveId, drawn: Drawn)
    requires Bare(raw, position) && position >= 1 && derive(mission, position) != 0
    ensures var r := Deserialize(raw, ContextAfter(Some(mission), restored), derive, drawn);
            r.Success? && r.value.eventId == derive(mission, position)
  {
    hide Normal;
    DefaultChainIsModern(raw, ContextAfter(Some(mission), restored), derive);
  }

  lemma {:induction false} BareLogRestores(raws: seq<Raw>, mission: MissionId, derive: DeriveId, drawn: nat -> Drawn)
    requires BareLog(raws) && Injective(derive, mission)
    ensures Restore(raws, Some(mission), derive, drawn).Success?
    ensures var events := Restore(raws, Some(mission), derive, drawn).value;
            && DistinctIds(events)
            && forall i :: 0 <= i < |events| ==> events[i].eventId == derive(mission, i + 1)
    decreases |raws|
  {
    hide Deserialize, Bare;
    if raws != [] {
      var n := |raws| - 1;
      BareLogRestores(raws[..n], mission, derive, drawn);
      assert Bare(raws[n], n + 1);
      BareEventLoads(raws[n], n + 1, Restore(raws[..n], Some(mission), derive, drawn).value, mission, derive, drawn(n));
    }
  }
}
