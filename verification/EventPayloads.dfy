/**
 The typed event payloads and the normalisation the serializer applies to metadata
 (app/domain/provider_resolution.py, app/domain/provider_id.py, app/services/mission_event_serializer.py).
 */
module EventPayloads {
  import opened Wrappers
  import opened MissionDomain
  import R = ProviderRegistry

  /** A JSON value; `JOther` stands for numbers and truth values, which no payload accepts. */
  datatype Json = JNull | JText(text: string) | JArray(items: seq<Json>) | JObject(fields: JsonObject) | JOther(n: int)
  type JsonObject = map<string, Json>

  // ------------------------------------------------------------ provider ids

  /** The characters `str.strip` removes. */
  predicate Blank(c: char) {
    var code := c as int;
    || 9 <= code <= 13 || 28 <= code <= 32
    || code == 0x85 || code == 0xA0 || code == 0x1680 || 0x2000 <= code <= 0x200A
    || code == 0x2028 || code == 0x2029 || code == 0x202F || code == 0x205F || code == 0x3000
  }

  function StripLeft(s: string): string {
    if s != "" && Blank(s[0]) then StripLeft(s[1..]) else s
  }

  function StripRight(s: string): string {
    if s != "" && Blank(s[|s| - 1]) then StripRight(s[..|s| - 1]) else s
  }

  /** `normalize_provider_id` on a text. */
  function NormalizeId(s: string): Option<string> {
    var stripped := StripRight(StripLeft(s));
    if stripped == "" then None else Some(stripped)
  }

  predicate Trimmed(s: string) {
    s != "" && !Blank(s[0]) && !Blank(s[|s| - 1])
  }

  lemma {:induction false} StripLeftStarts(s: string)
    ensures var r := StripLeft(s); r != "" ==> !Blank(r[0]) && s != "" && r[|r| - 1] == s[|s| - 1]
  {
    if s != "" && Blank(s[0]) {
      StripLeftStarts(s[1..]);
    }
  }

  lemma {:induction false} StripRightEnds(s: string)
    ensures var r := StripRight(s); r != "" ==> !Blank(r[|r| - 1]) && s != "" && r[0] == s[0]
  {
    if s != "" && Blank(s[|s| - 1]) {
      StripRightEnds(s[..|s| - 1]);
    }
  }

  /** Normalising yields a trimmed id, and a trimmed id is left alone. */
  lemma NormalizeTrims(s: string)
    ensures NormalizeId(s).Some? ==> Trimmed(NormalizeId(s).value)
    ensures Trimmed(s) ==> NormalizeId(s) == Some(s)
  {
    StripLeftStarts(s);
    StripRightEnds(StripLeft(s));
  }

  // ------------------------------------------------------------ the payloads

  datatype SelectionMode = Explicit | Automatic

  datatype FailureReason =
    | UnknownProvider | UnsupportedMissionType | UnsupportedExecutionMode | NoSupportingProvider | AmbiguousProvider

  datatype Snapshot = Snapshot(mode: SelectionMode, requested: Option<string>, resolved: string, candidates: seq<string>)

  datatype Payload =
    | Resolved(provider: string, mode: SelectionMode, snapshot: Option<Snapshot>)
    | ResolutionFailed(reason: FailureReason, requested: Option<string>, candidates: seq<string>)
    | SelectionChanged(previous: Option<string>, current: Option<string>)

  function ModeFor(provider: Option<string>): SelectionMode {
    if provider.Some? then Explicit else Automatic
  }

  predicate Unique(ids: seq<string>) {
    forall i, j :: 0 <= i < j < |ids| ==> ids[i] != ids[j]
  }

  predicate AllTrimmed(ids: seq<string>) {
    forall i :: 0 <= i < |ids| ==> Trimmed(ids[i])
  }

  predicate TrimmedOption(id: Option<string>) {
    id.Some? ==> Trimmed(id.value)
  }

  predicate ValidSnapshot(s: Snapshot) {
    && TrimmedOption(s.requested) && Trimmed(s.resolved) && AllTrimmed(s.candidates)
    && s.candidates != [] && Unique(s.candidates) && s.resolved in s.candidates
    && s.requested == (if s.mode == Automatic then None else Some(s.resolved))
  }

  predicate ValidReason(reason: FailureReason, requested: Option<string>, candidates: seq<string>) {
    match reason
    case UnknownProvider => requested.Some? && candidates == []
    case UnsupportedMissionType => requested.Some? && candidates == []
    case NoSupportingProvider => requested.None? && candidates == []
    case UnsupportedExecutionMode => candidates == []
    case AmbiguousProvider => requested.None? && |candidates| >= 2
  }

  /** What the validators of the three payload models accept, over normalised ids. */
  predicate ValidPayload(p: Payload) {
    match p
    case Resolved(provider, mode, snapshot) =>
      && Trimmed(provider)
      && (snapshot.Some? ==>
            ValidSnapshot(snapshot.value) && snapshot.value.resolved == provider && snapshot.value.mode == mode)
    case ResolutionFailed(reason, requested, candidates) =>
      TrimmedOption(requested) && AllTrimmed(candidates) && Unique(candidates) && ValidReason(reason, requested, candidates)
    case SelectionChanged(previous, current) =>
      TrimmedOption(previous) && TrimmedOption(current) && previous != current
  }

  // --------------------------------------------------------------- reading

  /** A required text field. */
  function TextAt(o: JsonObject, key: string): Option<string> {
    if key in o && o[key].JText? then Some(o[key].text) else None
  }

  function IdAt(o: JsonObject, key: string): Option<string> {
    if key in o && o[key].JText? then NormalizeId(o[key].text) else None
  }

  /** A nullable id: the outer None is a validation error, `absent` the answer for a missing key. */
  function MaybeIdAt(o: JsonObject, key: string, absent: Option<Option<string>>): Option<Option<string>> {
    if key !in o then absent
    else if o[key].JNull? then Some(None)
    else if o[key].JText? && NormalizeId(o[key].text).Some? then Some(NormalizeId(o[key].text))
    else None
  }

  function IdsOf(items: seq<Json>): Option<seq<string>> {
    if items == [] then Some([])
    else if items[0].JText? && NormalizeId(items[0].text).Some? && IdsOf(items[1..]).Some? then
      Some([NormalizeId(items[0].text).value] + IdsOf(items[1..]).value)
    else None
  }

  function IdsAt(o: JsonObject, key: string, absent: Option<seq<string>>): Option<seq<string>> {
    if key !in o then absent
    else if o[key].JArray? then IdsOf(o[key].items)
    else None
  }

  function ModeText(mode: SelectionMode): string {
    match mode
    case Explicit => "explicit"
    case Automatic => "automatic"
  }

  function ModeAt(o: JsonObject, key: string): Option<SelectionMode> {
    match TextAt(o, key)
    case Some(text) => if text == "explicit" then Some(Explicit) else if text == "automatic" then Some(Automatic) else None
    case None => None
  }

  function ReasonText(reason: FailureReason): string {
    match reason
    case UnknownProvider => "unknown_provider"
    case UnsupportedMissionType => "unsupported_mission_type"
    case UnsupportedExecutionMode => "unsupported_execution_mode"
    case NoSupportingProvider => "no_supporting_provider"
    case AmbiguousProvider => "ambiguous_provider"
  }

  function ReasonAt(o: JsonObject, key: string): Option<FailureReason> {
    match TextAt(o, key)
    case Some(text) =>
      if text == "unknown_provider" then Some(UnknownProvider)
      else if text == "unsupported_mission_type" then Some(UnsupportedMissionType)
      else if text == "unsupported_execution_mode" then Some(UnsupportedExecutionMode)
      else if text == "no_supporting_provider" then Some(NoSupportingProvider)
      else if text == "ambiguous_provider" then Some(AmbiguousProvider)
      else None
    case None => None
  }

  const MISSION_TYPE := "train_ticket"

  function ParseSnapshot(o: JsonObject): Option<Snapshot> {
    var mode, requested := ModeAt(o, "selection_mode"), MaybeIdAt(o, "requested_provider_id", None);
    var resolved, candidates := IdAt(o, "resolved_provider_id"), IdsAt(o, "candidate_provider_ids", None);
    if mode.None? || requested.None? || resolved.None? || candidates.None? || TextAt(o, "mission_type") != Some(MISSION_TYPE) then None
    else
      var s := Snapshot(mode.value, requested.value, resolved.value, candidates.value);
      if ValidSnapshot(s) then Some(s) else None
  }

  /** The optional snapshot: the outer None is a validation error. */
  function SnapshotAt(o: JsonObject, key: string): Option<Option<Snapshot>> {
    if key !in o || o[key].JNull? then Some(None)
    else if o[key].JObject? && ParseSnapshot(o[key].fields).Some? then Some(ParseSnapshot(o[key].fields))
    else None
  }

  function ParseResolved(o: JsonObject): Option<Payload> {
    var provider, mode, snapshot := IdAt(o, "provider_id"), ModeAt(o, "selection_mode"), SnapshotAt(o, "snapshot");
    if provider.None? || mode.None? || snapshot.None? || TextAt(o, "mission_type") != Some(MISSION_TYPE) then None
    else
      var p := Resolved(provider.value, mode.value, snapshot.value);
      if ValidPayload(p) then Some(p) else None
  }

  function ParseResolutionFailed(o: JsonObject): Option<Payload> {
    var reason, requested := ReasonAt(o, "reason"), MaybeIdAt(o, "requested_provider_id", Some(None));
    var candidates := IdsAt(o, "candidate_provider_ids", Some([]));
    if reason.None? || requested.None? || candidates.None? || TextAt(o, "mission_type") != Some(MISSION_TYPE) then None
    else
      var p := ResolutionFailed(reason.value, requested.value, candidates.value);
      if ValidPayload(p) then Some(p) else None
  }

  function ParseSelectionChanged(o: JsonObject): Option<Payload> {
    var previous, current := MaybeIdAt(o, "previous_provider_id", None), MaybeIdAt(o, "new_provider_id", None);
    if previous.None? || current.None? then None
    else if ModeAt(o, "previous_selection_mode") != Some(ModeFor(previous.value)) then None
    else if ModeAt(o, "new_selection_mode") != Some(ModeFor(current.value)) then None
    else
      var p := SelectionChanged(previous.value, current.value);
      if ValidPayload(p) then Some(p) else None
  }

  // --------------------------------------------------------------- writing

  function TextOrNull(id: Option<string>): Json {
    if id.Some? then JText(id.value) else JNull
  }

  function Texts(ids: seq<string>): seq<Json> {
    seq(|ids|, i requires 0 <= i < |ids| => JText(ids[i]))
  }

  function DumpSnapshot(s: Snapshot): JsonObject {
    map["selection_mode" := JText(ModeText(s.mode)), "requested_provider_id" := TextOrNull(s.requested),
        "resolved_provider_id" := JText(s.resolved), "candidate_provider_ids" := JArray(Texts(s.candidates)),
        "mission_type" := JText(MISSION_TYPE)]
  }

  /** `payload.model_dump(mode="json")`. */
  function Dump(p: Payload): JsonObject {
    match p
    case Resolved(provider, mode, snapshot) =>
      map["provider_id" := JText(provider), "mission_type" := JText(MISSION_TYPE),
          "selection_mode" := JText(ModeText(mode)),
          "snapshot" := if snapshot.Some? then JObject(DumpSnapshot(snapshot.value)) else JNull]
    case ResolutionFailed(reason, requested, candidates) =>
      map["reason" := JText(ReasonText(reason)), "mission_type" := JText(MISSION_TYPE),
          "requested_provider_id" := TextOrNull(requested), "candidate_provider_ids" := JArray(Texts(candidates))]
    case SelectionChanged(previous, current) =>
      map["previous_provider_id" := TextOrNull(previous), "new_provider_id" := TextOrNull(current),
          "previous_selection_mode" := JText(ModeText(ModeFor(previous))),
          "new_selection_mode" := JText(ModeText(ModeFor(current)))]
  }

  // -------------------------------------------------- reading what was written

  lemma {:induction false} IdsOfTexts(ids: seq<string>)
    requires AllTrimmed(ids)
    ensures IdsOf(Texts(ids)) == Some(ids)
  {
    if ids != [] {
      NormalizeTrims(ids[0]);
      assert Texts(ids)[0] == JText(ids[0]) && Texts(ids)[1..] == Texts(ids[1..]);
      assert ids == [ids[0]] + ids[1..];
      IdsOfTexts(ids[1..]);
    }
  }

  lemma MaybeIdOfText(id: Option<string>)
    requires TrimmedOption(id)
    ensures id.Some? ==> NormalizeId(id.value) == id
  {
    if id.Some? {
      NormalizeTrims(id.value);
    }
  }

  lemma SnapshotRoundTrip(s: Snapshot)
    requires ValidSnapshot(s)
    ensures ParseSnapshot(DumpSnapshot(s)) == Some(s)
  {
    hide NormalizeId, IdsOf, Texts, Unique, Trimmed;
    MaybeIdOfText(s.requested);
    MaybeIdOfText(Some(s.resolved));
    IdsOfTexts(s.candidates);
  }

  /** The payload an event of a given type must carry; None where any metadata is accepted. */
  datatype PayloadKind = ResolvedKind | ResolutionFailedKind | SelectionChangedKind

  function Parse(kind: PayloadKind, o: JsonObject): Option<Payload> {
    match kind
    case ResolvedKind => ParseResolved(o)
    case ResolutionFailedKind => ParseResolutionFailed(o)
    case SelectionChangedKind => ParseSelectionChanged(o)
  }

  function KindOf(p: Payload): PayloadKind {
    match p
    case Resolved(_, _, _) => ResolvedKind
    case ResolutionFailed(_, _, _) => ResolutionFailedKind
    case SelectionChanged(_, _) => SelectionChangedKind
  }

  /** Reading what was written gives the payload back; whatever is read is valid. */
  lemma PayloadRoundTrip(p: Payload)
    requires ValidPayload(p)
    ensures Parse(KindOf(p), Dump(p)) == Some(p)
  {
    hide ParseResolved, ParseResolutionFailed, ParseSelectionChanged, Dump, ValidPayload;
    match p
    case Resolved(_, _, _) => ResolvedRoundTrip(p);
    case ResolutionFailed(_, _, _) => ResolutionFailedRoundTrip(p);
    case SelectionChanged(_, _) => SelectionChangedRoundTrip(p);
  }

  lemma ResolvedRoundTrip(p: Payload)
    requires ValidPayload(p) && p.Resolved?
    ensures ParseResolved(Dump(p)) == Some(p)
  {
    hide NormalizeId, Trimmed, ParseSnapshot, DumpSnapshot, ValidSnapshot;
    MaybeIdOfText(Some(p.provider));
    if p.snapshot.Some? {
      SnapshotRoundTrip(p.snapshot.value);
    }
  }

  lemma ResolutionFailedRoundTrip(p: Payload)
    requires ValidPayload(p) && p.ResolutionFailed?
    ensures ParseResolutionFailed(Dump(p)) == Some(p)
  {
    hide NormalizeId, IdsOf, Texts, Unique, Trimmed;
    MaybeIdOfText(p.requested);
    IdsOfTexts(p.candidates);
  }

  lemma SelectionChangedRoundTrip(p: Payload)
    requires ValidPayload(p) && p.SelectionChanged?
    ensures ParseSelectionChanged(Dump(p)) == Some(p)
  {
    hide NormalizeId, Trimmed;
    MaybeIdOfText(p.previous);
    MaybeIdOfText(p.current);
  }

  lemma ParsedIsValid(kind: PayloadKind, o: JsonObject)
    requires Parse(kind, o).Some?
    ensures ValidPayload(Parse(kind, o).value) && KindOf(Parse(kind, o).value) == kind
  {
    hide NormalizeId, IdsOf, ParseSnapshot;
  }

  // ----------------------------------------------------------- normalisation

  function GenericTypes(): set<string> {
    {"best_option_selected", "automatic_confirmation_failed", "automatic_confirmation_started",
     "automatic_confirmation_succeeded", "claim_recovered", "cancellation_failed", "cancellation_started",
     "cancellation_succeeded", "confirmation_failed", "confirmation_started", "confirmation_succeeded",
     "mission.completed", "mission.created", "mission_completed", "mission_cancelled", "mission_confirmed",
     "mission_created", "mission_expired", "mission_failed", "mission_paused", "mission_processing_failed",
     "mission_resumed", "mission_retry_scheduled", "mission_scheduled", "mission_search_completed",
     "mission_unscheduled", "mission_started", "mission_updated", "no_valid_option_found", "options_found",
     "participant_missing", "provider_operation_failed", "reservation_failed", "reservation_started",
     "reservation_succeeded", "search_started", "waiting_for_user_confirmation"}
  }

  function KindFor(eventType: string): Option<PayloadKind> {
    if eventType == "provider_resolved" then Some(ResolvedKind)
    else if eventType == "provider_resolution_failed" then Some(ResolutionFailedKind)
    else if eventType == "provider_selection_changed" then Some(SelectionChangedKind)
    else None
  }

  /** `_with_serialized_payload` on the metadata; None is the exception. */
  function Normal(eventType: string, metadata: JsonObject): Option<JsonObject> {
    match KindFor(eventType)
    case None => if eventType in GenericTypes() then Some(metadata) else None
    case Some(kind) =>
      match Parse(kind, metadata)
      case Some(payload) => Some(Dump(payload))
      case None => None
  }

  /** Normalising twice is normalising once. */
  lemma NormalIsIdempotent(eventType: string, metadata: JsonObject)
    requires Normal(eventType, metadata).Some?
    ensures Normal(eventType, Normal(eventType, metadata).value) == Normal(eventType, metadata)
  {
    hide GenericTypes, Parse, Dump;
    if KindFor(eventType).Some? {
      ParsedIsValid(KindFor(eventType).value, metadata);
      PayloadRoundTrip(Parse(KindFor(eventType).value, metadata).value);
    }
  }

  /** What a service writes, the dump of a valid payload, is already normal. */
  lemma DumpIsNormal(eventType: string, p: Payload)
    requires ValidPayload(p) && KindFor(eventType) == Some(KindOf(p))
    ensures Normal(eventType, Dump(p)) == Some(Dump(p))
  {
    hide Parse, Dump, GenericTypes;
    PayloadRoundTrip(p);
  }

  // ------------------------------------------------- what run_mission writes

  predicate Registered(registry: seq<R.Adapter<string>>) {
    && (forall i :: 0 <= i < |registry| ==> Trimmed(registry[i].id))
    && (forall i, j :: 0 <= i < j < |registry| ==> registry[i].id != registry[j].id)
  }

  /** The event payload `run_mission` builds from the resolver's answer or its exception. */
  function ResolutionPayload(registry: seq<R.Adapter<string>>, requested: Option<string>, mode: Mode): Payload {
    match R.Resolve(registry, requested, mode)
    case Success(id) => ResolvedAs(id, requested)
    case Failure(NotRegistered(_)) => ResolutionFailed(UnknownProvider, requested, [])
    case Failure(NoMissionType(_)) => ResolutionFailed(UnsupportedMissionType, requested, [])
    case Failure(NoExecutionMode(_)) => ResolutionFailed(UnsupportedExecutionMode, requested, [])
    case Failure(NoSupport) => ResolutionFailed(NoSupportingProvider, None, [])
    case Failure(Ambiguous(ids)) => ResolutionFailed(AmbiguousProvider, None, ids)
  }

  function ResolvedAs(id: string, requested: Option<string>): Payload {
    Resolved(id, ModeFor(requested), Some(Snapshot(ModeFor(requested), requested, id, [id])))
  }

  lemma {:induction false} SupportingUnique(registry: seq<R.Adapter<string>>, mode: Option<Mode>)
    requires Registered(registry)
    ensures Unique(R.Supporting(registry, mode)) && AllTrimmed(R.Supporting(registry, mode))
  {
    if registry != [] {
      SupportingUnique(registry[1..], mode);
      var rest := R.Supporting(registry[1..], mode);
      forall k | 0 <= k < |rest|
        ensures rest[k] != registry[0].id
      {
        assert rest[k] in rest;
        var a :| a in registry[1..] && a.id == rest[k];
        var i :| 0 <= i < |registry[1..]| && registry[1..][i] == a;
        assert registry[i + 1].id == rest[k];
      }
    }
  }

  /** Every resolution event of a run carries a valid payload, so storing and reading it changes nothing. */
  lemma ResolutionPayloadIsNormal(registry: seq<R.Adapter<string>>, requested: Option<string>, mode: Mode, eventType: string)
    requires Registered(registry) && TrimmedOption(requested)
    requires KindFor(eventType) == Some(KindOf(ResolutionPayload(registry, requested, mode)))
    ensures var payload := ResolutionPayload(registry, requested, mode);
            ValidPayload(payload) && Normal(eventType, Dump(payload)) == Some(Dump(payload))
  {
    hide GenericTypes, Parse, Dump, Trimmed;
    SupportingUnique(registry, Some(mode));
    DumpIsNormal(eventType, ResolutionPayload(registry, requested, mode));
  }
}
