/**
 The chain of schema versions a persisted event is carried through (app/services/mission_event_upcaster.py,
 app/services/mission_event_serializer.py:173-246).
 */
module EventUpcasting {
  import opened Wrappers
  import opened MissionDomain
  import opened EventPayloads

  const CURRENT_VERSION: int := 3

  /** `schema_version` where it is present. */
  datatype VersionField = Version(n: int) | NotAVersion

  datatype UuidField = Uuid(id: EventId) | NullUuid | NotAUuid

  /** An integer, a value the event model turns into one, or neither. */
  datatype NumberField = Whole(n: int) | Coercible(n: int) | NotANumber

  datatype MetadataField = NoMetadata | Metadata(fields: JsonObject) | NotAnObject

  /** A persisted JSON event; None is a missing key, for `timestamp`, `message` and `type` also an ill-typed value. */
  datatype Raw = Raw(
    schemaVersion: Option<VersionField>,
    eventId: Option<UuidField>,
    correlationId: Option<UuidField>,
    causationId: Option<UuidField>,
    sequence: Option<NumberField>,
    eventType: Option<string>,
    timestamp: Option<Time>,
    message: Option<string>,
    metadata: MetadataField)

  datatype Context = Context(
    missionId: Option<MissionId>,
    previousEventId: Option<EventId>,
    previousCorrelationId: Option<EventId>)

  /** `Unreadable` is the deserialization error; a KeyError is not among the exceptions that turn into it. */
  datatype LoadError = BadSchemaVersion | UnsupportedVersion | MissingUpcaster | InvalidUpcastResult | Unreadable | KeyMissing

  datatype UpcastFault = BadValue | AbsentKey

  function LoadErrorOf(fault: UpcastFault): LoadError {
    match fault
    case BadValue => Unreadable
    case AbsentKey => KeyMissing
  }

  type Upcast = (Raw, Context) -> Result<Raw, UpcastFault>
  datatype Upcaster = Upcaster(source: int, target: int, upcast: Upcast)
  type Registry = map<int, Upcaster>

  // ------------------------------------------------------------- the registry

  datatype RegistryError = NegativeCurrentVersion | NotAdjacent | DuplicateSource | NotContiguous

  /** For every version below the current one exactly one upcaster leads from it to the next; there are no others. */
  ghost predicate ContiguousChain(upcasters: seq<Upcaster>, current: int) {
    && current >= 0
    && (forall i :: 0 <= i < |upcasters| ==>
          0 <= upcasters[i].source < current && upcasters[i].target == upcasters[i].source + 1)
    && (forall i, j :: 0 <= i < j < |upcasters| ==> upcasters[i].source != upcasters[j].source)
    && (forall v :: 0 <= v < current ==> HasSource(upcasters, v))
  }

  ghost predicate HasSource(upcasters: seq<Upcaster>, v: int) {
    exists i :: 0 <= i < |upcasters| && upcasters[i].source == v
  }

  /** Every version below the current one has its upcaster. */
  ghost predicate Complete(registry: Registry, current: int) {
    && (forall v :: v in registry <==> 0 <= v < current)
    && Adjacent(registry)
  }

  ghost predicate Adjacent(registry: Registry) {
    forall v :: v in registry ==> registry[v].source == v && registry[v].target == v + 1
  }

  /** `set(range(0, current))`. */
  function ExpectedSources(current: int): (r: set<int>)
    ensures forall v :: v in r <==> 0 <= v < current
  {
    if current <= 0 then {} else ExpectedSources(current - 1) + {current - 1}
  }

  /** The builder accepts exactly the contiguous chains. */
  method BuildRegistry(upcasters: seq<Upcaster>, current: int) returns (r: Result<Registry, RegistryError>)
    ensures r.Success? <==> ContiguousChain(upcasters, current)
    ensures r.Success? ==> Complete(r.value, current)
    ensures r.Success? ==> forall i :: 0 <= i < |upcasters| ==> r.value[upcasters[i].source] == upcasters[i]
  {
    if current < 0 {
      return Failure(NegativeCurrentVersion);
    }
    var registry: Registry := map[];
    for k := 0 to |upcasters|
      invariant Built(registry, upcasters, k, current)
    {
      var upcaster := upcasters[k];
      if upcaster.source < 0 || upcaster.target != upcaster.source + 1 || upcaster.target > current {
        return Failure(NotAdjacent);
      }
      if upcaster.source in registry {
        Repeated(registry, upcasters, k, current);
        return Failure(DuplicateSource);
      }
      BuildStep(registry, upcasters, k, current);
      registry := registry[upcaster.source := upcaster];
    }
    BuiltAll(registry, upcasters, current);
    if registry.Keys != ExpectedSources(current) {
      return Failure(NotContiguous);
    }
    return Success(registry);
  }

  /** The dictionary after the first `k` upcasters were accepted. */
  ghost predicate Built(registry: Registry, upcasters: seq<Upcaster>, k: nat, current: int)
    requires k <= |upcasters|
  {
    && (forall i :: 0 <= i < k ==>
          0 <= upcasters[i].source < current && upcasters[i].target == upcasters[i].source + 1)
    && (forall i, j :: 0 <= i < j < k ==> upcasters[i].source != upcasters[j].source)
    && (forall i :: 0 <= i < k ==> upcasters[i].source in registry && registry[upcasters[i].source] == upcasters[i])
    && (forall v :: v in registry ==> HasSource(upcasters[..k], v))
  }

  lemma BuildStep(registry: Registry, upcasters: seq<Upcaster>, k: nat, current: int)
    requires k < |upcasters| && Built(registry, upcasters, k, current)
    requires var u := upcasters[k]; 0 <= u.source < current && u.target == u.source + 1 && u.source !in registry
    ensures Built(registry[upcasters[k].source := upcasters[k]], upcasters, k + 1, current)
  {
    var after := registry[upcasters[k].source := upcasters[k]];
    forall v | v in after
      ensures HasSource(upcasters[..k + 1], v)
    {
      if v == upcasters[k].source {
        assert upcasters[..k + 1][k].source == v;
      } else {
        var i :| 0 <= i < k && upcasters[..k][i].source == v;
        assert upcasters[..k + 1][i].source == v;
      }
    }
  }

  lemma Repeated(registry: Registry, upcasters: seq<Upcaster>, k: nat, current: int)
    requires k < |upcasters| && Built(registry, upcasters, k, current) && upcasters[k].source in registry
    ensures exists i :: 0 <= i < k && upcasters[i].source == upcasters[k].source
  {
    var i :| 0 <= i < k && upcasters[..k][i].source == upcasters[k].source;
    assert upcasters[i].source == upcasters[k].source;
  }

  lemma BuiltAll(registry: Registry, upcasters: seq<Upcaster>, current: int)
    requires Built(registry, upcasters, |upcasters|, current) && current >= 0
    ensures forall v :: v in registry ==> 0 <= v < current
    ensures Adjacent(registry)
    ensures ContiguousChain(upcasters, current) <==> registry.Keys == ExpectedSources(current)
  {
    assert upcasters[..|upcasters|] == upcasters;
    forall v | v in registry
      ensures 0 <= v < current && registry[v].source == v && registry[v].target == v + 1
    {
      var i :| 0 <= i < |upcasters| && upcasters[i].source == v;
    }
    var expected := ExpectedSources(current);
    forall v | 0 <= v < current
      ensures HasSource(upcasters, v) <==> v in registry
    {
    }
    if ContiguousChain(upcasters, current) {
      assert forall v :: v in expected ==> v in registry;
    }
    if registry.Keys == expected {
      assert forall v :: 0 <= v < current ==> v in expected;
    }
  }

  // ------------------------------------------------------------- the upcast loop

  /** The loop from `version` on: what it produces, and how many upcasters it applied. */
  function UpcastFrom(registry: Registry, raw: Raw, ctx: Context, version: int, current: int): (Result<Raw, LoadError>, nat)
    requires Adjacent(registry)
    decreases current - version
  {
    if version >= current then (Success(raw), 0)
    else if version !in registry then (Failure(MissingUpcaster), 0)
    else
      match registry[version].upcast(raw, ctx)
      case Failure(fault) => (Failure(LoadErrorOf(fault)), 1)
      case Success(next) =>
        if next.schemaVersion != Some(Version(version + 1)) then (Failure(InvalidUpcastResult), 1)
        else
          var (r, hops) := UpcastFrom(registry, next, ctx, version + 1, current);
          (r, hops + 1)
  }

  function VersionOf(raw: Raw): Result<int, LoadError> {
    match raw.schemaVersion
    case None => Success(0)
    case Some(NotAVersion) => Failure(BadSchemaVersion)
    case Some(Version(n)) => if n < 0 then Failure(BadSchemaVersion) else Success(n)
  }

  /** `_upcast_to_current`. */
  function ToCurrent(registry: Registry, raw: Raw, ctx: Context, current: int): Result<Raw, LoadError>
    requires Adjacent(registry)
  {
    match VersionOf(raw)
    case Failure(error) => Failure(error)
    case Success(version) =>
      if version > current then Failure(UnsupportedVersion)
      else
        match UpcastFrom(registry, raw, ctx, version, current).0
        case Failure(error) => Failure(error)
        case Success(last) => if last.schemaVersion == Some(Version(current)) then Success(last) else Failure(InvalidUpcastResult)
  }

  method UpcastToCurrent(registry: Registry, raw: Raw, ctx: Context, current: int) returns (r: Result<Raw, LoadError>)
    requires Adjacent(registry)
    ensures r == ToCurrent(registry, raw, ctx, current)
  {
    var extracted := VersionOf(raw);
    if extracted.Failure? {
      return Failure(extracted.error);
    }
    var version := extracted.value;
    if version > current {
      return Failure(UnsupportedVersion);
    }
    ghost var whole := UpcastFrom(registry, raw, ctx, version, current).0;
    var currentRaw := raw;
    while version < current
      invariant version <= current
      invariant UpcastFrom(registry, currentRaw, ctx, version, current).0 == whole
    {
      if version !in registry {
        return Failure(MissingUpcaster);
      }
      var upcaster := registry[version];
      var upcasted := upcaster.upcast(currentRaw, ctx);
      if upcasted.Failure? {
        return Failure(LoadErrorOf(upcasted.error));
      }
      if upcasted.value.schemaVersion != Some(Version(upcaster.target)) {
        return Failure(InvalidUpcastResult);
      }
      currentRaw := upcasted.value;
      version := upcaster.target;
    }
    if currentRaw.schemaVersion != Some(Version(current)) {
      return Failure(InvalidUpcastResult);
    }
    return Success(currentRaw);
  }

  /** With an accepted registry an upcaster is never missing, and success takes exactly current - version hops. */
  lemma {:induction false} NeverLacksAnUpcaster(registry: Registry, raw: Raw, ctx: Context, version: int, current: int)
    requires Complete(registry, current) && 0 <= version <= current
    ensures var (r, hops) := UpcastFrom(registry, raw, ctx, version, current);
            && r != Failure(MissingUpcaster)
            && hops <= current - version
            && (r.Success? ==>
                  && hops == current - version
                  && (version < current ==> r.value.schemaVersion == Some(Version(current))))
    decreases current - version
  {
    if version < current {
      match registry[version].upcast(raw, ctx)
      case Failure(_) =>
      case Success(next) => NeverLacksAnUpcaster(registry, next, ctx, version + 1, current);
    }
  }

  /** Stopping at a version on the way and going on from there is the same as going through. */
  lemma {:induction false} UpcastsCompose(registry: Registry, raw: Raw, ctx: Context, from: int, middle: int, to: int)
    requires Complete(registry, to) && 0 <= from <= middle <= to
    ensures UpcastFrom(registry, raw, ctx, from, to).0 ==
            match UpcastFrom(registry, raw, ctx, from, middle).0
            case Failure(error) => Failure(error)
            case Success(half) => UpcastFrom(registry, half, ctx, middle, to).0
    decreases middle - from
  {
    if from < middle {
      match registry[from].upcast(raw, ctx)
      case Failure(_) =>
      case Success(next) => UpcastsCompose(registry, next, ctx, from + 1, middle, to);
    }
  }

  // ------------------------------------------------------- the default chain

  /** `derive_legacy_event_id`: a name-based UUID of the mission and the sequence number. */
  type DeriveId = (MissionId, nat) -> EventId

  function UpcastV0(raw: Raw, ctx: Context): Result<Raw, UpcastFault> {
    Success(raw.(schemaVersion := Some(Version(1))))
  }

  function UpcastV1(raw: Raw, ctx: Context, derive: DeriveId): Result<Raw, UpcastFault> {
    if ctx.missionId.None? then Failure(BadValue)
    else
      match raw.sequence
      case Some(Whole(n)) =>
        if n < 1 then Failure(BadValue)
        else
          Success(raw.(
            schemaVersion := Some(Version(2)),
            eventId := if raw.eventId.Some? then raw.eventId else Some(Uuid(derive(ctx.missionId.value, n)))))
      case _ => Failure(BadValue)
  }

  function UpcastV2(raw: Raw, ctx: Context): Result<Raw, UpcastFault> {
    match raw.eventId
    case None => Failure(AbsentKey)
    case Some(Uuid(id)) =>
      Success(raw.(
        schemaVersion := Some(Version(3)),
        correlationId := if raw.correlationId.Some? then raw.correlationId
                         else Some(Uuid(if ctx.previousCorrelationId.Some? then ctx.previousCorrelationId.value else id)),
        causationId := if raw.causationId.Some? then raw.causationId
                       else Some(if ctx.previousEventId.Some? then Uuid(ctx.previousEventId.value) else NullUuid)))
    case Some(_) => Failure(BadValue)
  }

  function DefaultUpcasters(derive: DeriveId): seq<Upcaster> {
    [Upcaster(0, 1, UpcastV0),
     Upcaster(1, 2, (raw, ctx) => UpcastV1(raw, ctx, derive)),
     Upcaster(2, 3, UpcastV2)]
  }

  function DefaultRegistry(derive: DeriveId): (r: Registry)
    ensures Complete(r, CURRENT_VERSION)
  {
    var u := DefaultUpcasters(derive);
    map[0 := u[0], 1 := u[1], 2 := u[2]]
  }

  /** The default upcasters are a chain, and the registry built from them is the default one. */
  lemma DefaultsFormAChain(derive: DeriveId)
    ensures ContiguousChain(DefaultUpcasters(derive), CURRENT_VERSION)
    ensures forall i :: 0 <= i < 3 ==>
              DefaultRegistry(derive)[DefaultUpcasters(derive)[i].source] == DefaultUpcasters(derive)[i]
  {
    var u := DefaultUpcasters(derive);
    forall v | 0 <= v < CURRENT_VERSION
      ensures HasSource(u, v)
    {
      assert u[v].source == v;
    }
  }

  /** What an old event means: missing identifiers come from the mission, the sequence number and the event before it. */
  function Modern(raw: Raw, ctx: Context, derive: DeriveId): Result<Raw, LoadError> {
    match VersionOf(raw)
    case Failure(error) => Failure(error)
    case Success(version) =>
      if version > 3 then Failure(UnsupportedVersion)
      else if version == 3 then Success(raw)
      else if version < 2 && (ctx.missionId.None? || PositiveSequence(raw).None?) then Failure(Unreadable)
      else
        var id: Option<UuidField> :=
          if raw.eventId.None? && version < 2 then Some(Uuid(derive(ctx.missionId.value, PositiveSequence(raw).value)))
          else raw.eventId;
        match id
        case None => Failure(KeyMissing)
        case Some(Uuid(eventId)) =>
          Success(raw.(
            schemaVersion := Some(Version(3)),
            eventId := id,
            correlationId := OrElse(raw.correlationId, Uuid(OrElse(ctx.previousCorrelationId, eventId).value)),
            causationId := OrElse(raw.causationId, if ctx.previousEventId.Some? then Uuid(ctx.previousEventId.value) else NullUuid)))
        case Some(_) => Failure(Unreadable)
  }

  function OrElse<T>(wanted: Option<T>, fallback: T): (r: Option<T>)
    ensures r.Some?
  {
    if wanted.Some? then wanted else Some(fallback)
  }

  function PositiveSequence(raw: Raw): (r: Option<nat>)
    ensures r.Some? ==> r.value >= 1
  {
    match raw.sequence
    case Some(Whole(n)) => if n >= 1 then Some(n) else None
    case _ => None
  }

  /** The default chain computes that meaning, for every persisted event and context. */
  lemma DefaultChainIsModern(raw: Raw, ctx: Context, derive: DeriveId)
    ensures ToCurrent(DefaultRegistry(derive), raw, ctx, CURRENT_VERSION) == Modern(raw, ctx, derive)
  {
    var registry := DefaultRegistry(derive);
    var version := VersionOf(raw);
    if version.Success? && version.value <= 3 {
      ChainFrom2(raw, ctx, derive);
      ChainFrom1(raw, ctx, derive);
      ChainFrom0(raw, ctx, derive);
    }
  }

  lemma ChainFrom2(raw: Raw, ctx: Context, derive: DeriveId)
    ensures UpcastFrom(DefaultRegistry(derive), raw, ctx, 2, 3).0 ==
            match UpcastV2(raw, ctx)
            case Failure(fault) => Failure(LoadErrorOf(fault))
            case Success(next) => Success(next)
  {
  }

  lemma ChainFrom1(raw: Raw, ctx: Context, derive: DeriveId)
    ensures UpcastFrom(DefaultRegistry(derive), raw, ctx, 1, 3).0 ==
            match UpcastV1(raw, ctx, derive)
            case Failure(fault) => Failure(LoadErrorOf(fault))
            case Success(next) => UpcastFrom(DefaultRegistry(derive), next, ctx, 2, 3).0
  {
  }

  lemma ChainFrom0(raw: Raw, ctx: Context, derive: DeriveId)
    ensures UpcastFrom(DefaultRegistry(derive), raw, ctx, 0, 3).0 ==
            UpcastFrom(DefaultRegistry(derive), raw.(schemaVersion := Some(Version(1))), ctx, 1, 3).0
  {
  }
}
