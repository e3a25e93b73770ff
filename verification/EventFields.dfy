/**
 Which keys of a persisted event carry what, and what is refused: the format on disk, which writing and reading it back
 alone would not settle (app/services/mission_event_serializer.py, app/domain/provider_resolution.py,
 app/domain/execution.py:37-68, app/services/provider_history_projection.py:54-70).
 */
module EventFields {
  import opened Wrappers
  import opened MissionDomain
  import opened EventPayloads
  import opened EventUpcasting
  import opened EventStore
  import P = EventProjections

  // ------------------------------------------------------------- identifiers

  ghost predicate AllBlank(s: string) {
    forall i :: 0 <= i < |s| ==> Blank(s[i])
  }

  /** The text with the white space around it removed. */
  ghost predicate Strips(text: string, id: string) {
    Trimmed(id) && exists i, j :: 0 <= i < j <= |text| && text[i..j] == id && AllBlank(text[..i]) && AllBlank(text[j..])
  }

  lemma {:induction false} LeftExactly(s: string) returns (i: nat)
    ensures i <= |s| && StripLeft(s) == s[i..] && AllBlank(s[..i])
  {
    if s != "" && Blank(s[0]) {
      var k := LeftExactly(s[1..]);
      i := k + 1;
      assert s[..i] == [s[0]] + s[1..][..k];
    } else {
      i := 0;
    }
  }

  lemma {:induction false} RightExactly(s: string) returns (j: nat)
    ensures j <= |s| && StripRight(s) == s[..j] && AllBlank(s[j..])
  {
    if s != "" && Blank(s[|s| - 1]) {
      j := RightExactly(s[..|s| - 1]);
      assert s[j..] == s[..|s| - 1][j..] + [s[|s| - 1]];
      assert s[..j] == s[..|s| - 1][..j];
    } else {
      j := |s|;
    }
  }

  /** A provider id is the text without the white space around it; a text of nothing else is refused. */
  lemma NormalizesExactly(s: string)
    ensures NormalizeId(s).Some? ==> Strips(s, NormalizeId(s).value)
    ensures NormalizeId(s).None? <==> AllBlank(s)
  {
    hide StripLeft, StripRight, Blank;
    NormalizeTrims(s);
    var i := LeftExactly(s);
    var left := s[i..];
    var k := RightExactly(left);
    var j := i + k;
    assert s[i..j] == left[..k] && s[j..] == left[k..];
    if i == j {
      assert s == s[..i] + s[j..];
    } else {
      assert Strips(s, s[i..j]) by {
        assert s[i..j] == NormalizeId(s).value;
      }
      NotAllBlank(s, i, j);
    }
  }

  lemma NotAllBlank(s: string, i: nat, j: nat)
    requires i < j <= |s| && Trimmed(s[i..j])
    ensures !AllBlank(s)
  {
    hide Blank;
    assert s[i..j][0] == s[i];
  }

  // ---------------------------------------------------------------- payloads

  ghost predicate TextIs(o: JsonObject, key: string, text: string) {
    key in o && o[key] == JText(text)
  }

  ghost predicate IdIs(o: JsonObject, key: string, id: string) {
    key in o && o[key].JText? && Strips(o[key].text, id)
  }

  ghost predicate MaybeIdIs(o: JsonObject, key: string, id: Option<string>) {
    key in o && (if id.Some? then o[key].JText? && Strips(o[key].text, id.value) else o[key].JNull?)
  }

  ghost predicate IdsAre(o: JsonObject, key: string, ids: seq<string>) {
    && key in o && o[key].JArray? && |o[key].items| == |ids|
    && forall i :: 0 <= i < |ids| ==> o[key].items[i].JText? && Strips(o[key].items[i].text, ids[i])
  }

  ghost predicate ModeIs(o: JsonObject, key: string, mode: SelectionMode) {
    TextIs(o, key, if mode.Explicit? then "explicit" else "automatic")
  }

  ghost predicate ReasonIs(o: JsonObject, reason: FailureReason) {
    match reason
    case UnknownProvider => TextIs(o, "reason", "unknown_provider")
    case UnsupportedMissionType => TextIs(o, "reason", "unsupported_mission_type")
    case UnsupportedExecutionMode => TextIs(o, "reason", "unsupported_execution_mode")
    case NoSupportingProvider => TextIs(o, "reason", "no_supporting_provider")
    case AmbiguousProvider => TextIs(o, "reason", "ambiguous_provider")
  }

  ghost predicate SnapshotIs(o: JsonObject, s: Snapshot) {
    && ModeIs(o, "selection_mode", s.mode) && MaybeIdIs(o, "requested_provider_id", s.requested)
    && IdIs(o, "resolved_provider_id", s.resolved) && IdsAre(o, "candidate_provider_ids", s.candidates)
    && TextIs(o, "mission_type", "train_ticket")
  }

  /** The metadata say what the payload says, key by key; a missing optional key stands for its default. */
  ghost predicate Says(o: JsonObject, p: Payload) {
    match p
    case Resolved(provider, mode, snapshot) =>
      && IdIs(o, "provider_id", provider) && ModeIs(o, "selection_mode", mode) && TextIs(o, "mission_type", "train_ticket")
      && (snapshot.None? ==> "snapshot" !in o || o["snapshot"].JNull?)
      && (snapshot.Some? ==> "snapshot" in o && o["snapshot"].JObject? && SnapshotIs(o["snapshot"].fields, snapshot.value))
    case ResolutionFailed(reason, requested, candidates) =>
      && ReasonIs(o, reason) && TextIs(o, "mission_type", "train_ticket")
      && (MaybeIdIs(o, "requested_provider_id", requested) || ("requested_provider_id" !in o && requested.None?))
      && (IdsAre(o, "candidate_provider_ids", candidates) || ("candidate_provider_ids" !in o && candidates == []))
    case SelectionChanged(previous, current) =>
      && MaybeIdIs(o, "previous_provider_id", previous) && MaybeIdIs(o, "new_provider_id", current)
      && ModeIs(o, "previous_selection_mode", if previous.Some? then Explicit else Automatic)
      && ModeIs(o, "new_selection_mode", if current.Some? then Explicit else Automatic)
  }

  lemma {:induction false} IdsOfExactly(items: seq<Json>)
    requires IdsOf(items).Some?
    ensures |IdsOf(items).value| == |items|
    ensures forall i :: 0 <= i < |items| ==> items[i].JText? && Strips(items[i].text, IdsOf(items).value[i])
  {
    hide NormalizeId, Strips;
    if items != [] {
      IdsOfExactly(items[1..]);
      NormalizesExactly(items[0].text);
      var ids, rest := IdsOf(items).value, IdsOf(items[1..]).value;
      forall i | 0 <= i < |items|
        ensures items[i].JText? && Strips(items[i].text, ids[i])
      {
        assert i > 0 ==> items[i] == items[1..][i - 1] && ids[i] == rest[i - 1];
      }
    }
  }

  lemma MaybeIdExactly(o: JsonObject, key: string, absent: Option<Option<string>>)
    ensures var r := MaybeIdAt(o, key, absent);
            key in o && r.Some? ==> MaybeIdIs(o, key, r.value)
  {
    hide NormalizeId, Strips;
    if key in o && o[key].JText? {
      NormalizesExactly(o[key].text);
    }
  }

  lemma IdExactly(o: JsonObject, key: string)
    ensures IdAt(o, key).Some? ==> IdIs(o, key, IdAt(o, key).value)
  {
    hide NormalizeId, Strips;
    if key in o && o[key].JText? {
      NormalizesExactly(o[key].text);
    }
  }

  lemma IdsExactly(o: JsonObject, key: string, absent: Option<seq<string>>)
    ensures key in o && IdsAt(o, key, absent).Some? ==> IdsAre(o, key, IdsAt(o, key, absent).value)
  {
    hide IdsOf, Strips;
    if key in o && o[key].JArray? && IdsOf(o[key].items).Some? {
      IdsOfExactly(o[key].items);
    }
  }

  lemma SnapshotExactly(o: JsonObject)
    ensures ParseSnapshot(o).Some? ==> SnapshotIs(o, ParseSnapshot(o).value)
  {
    hide MaybeIdAt, IdAt, IdsAt, MaybeIdIs, IdIs, IdsAre, ValidSnapshot;
    MaybeIdExactly(o, "requested_provider_id", None);
    IdExactly(o, "resolved_provider_id");
    IdsExactly(o, "candidate_provider_ids", None);
    SnapshotKeys(o);
  }

  lemma SnapshotKeys(o: JsonObject)
    ensures ParseSnapshot(o).Some? ==> "requested_provider_id" in o && "candidate_provider_ids" in o
  {
    hide IdAt, ValidSnapshot, ModeAt, TextAt;
  }

  /** Whatever metadata are accepted say, key by key, what is read from them. */
  lemma ReadsWhatIsThere(kind: PayloadKind, o: JsonObject)
    requires Parse(kind, o).Some?
    ensures Says(o, Parse(kind, o).value) && KindOf(Parse(kind, o).value) == kind
  {
    hide ParseResolved, ParseResolutionFailed, ParseSelectionChanged, Says;
    match kind
    case ResolvedKind => ReadsResolved(o);
    case ResolutionFailedKind => ReadsFailed(o);
    case SelectionChangedKind => ReadsSelection(o);
  }

  lemma ReadsResolved(o: JsonObject)
    requires ParseResolved(o).Some?
    ensures Says(o, ParseResolved(o).value) && ParseResolved(o).value.Resolved?
  {
    hide IdAt, IdIs, ParseSnapshot, SnapshotIs, ValidPayload;
    IdExactly(o, "provider_id");
    if "snapshot" in o && o["snapshot"].JObject? {
      SnapshotExactly(o["snapshot"].fields);
    }
  }

  lemma ReadsFailed(o: JsonObject)
    requires ParseResolutionFailed(o).Some?
    ensures Says(o, ParseResolutionFailed(o).value) && ParseResolutionFailed(o).value.ResolutionFailed?
  {
    hide IdsOf, IdsAre, MaybeIdIs, ValidPayload, NormalizeId;
    MaybeIdExactly(o, "requested_provider_id", Some(None));
    IdsExactly(o, "candidate_provider_ids", Some([]));
  }

  lemma ReadsSelection(o: JsonObject)
    requires ParseSelectionChanged(o).Some?
    ensures Says(o, ParseSelectionChanged(o).value) && ParseSelectionChanged(o).value.SelectionChanged?
  {
    hide MaybeIdIs, ValidPayload, NormalizeId;
    MaybeIdExactly(o, "previous_provider_id", None);
    MaybeIdExactly(o, "new_provider_id", None);
  }

  /** What the dump of a valid payload says is the payload. */
  lemma WritesWhatItIs(p: Payload)
    requires ValidPayload(p)
    ensures Says(Dump(p), p)
  {
    hide Says, Dump, ValidPayload, Parse;
    PayloadRoundTrip(p);
    ReadsWhatIsThere(KindOf(p), Dump(p));
  }

  // ---------------------------------------------------- which are refused

  ghost predicate EachOnce(ids: seq<string>) {
    forall i, j :: 0 <= i < |ids| && 0 <= j < |ids| && ids[i] == ids[j] ==> i == j
  }

  /**
   Of the payloads with trimmed ids a resolution is accepted if its snapshot, where it has one, agrees with it: the
   provider is among distinct candidates, and asked for by name exactly if the selection is explicit.
   */
  lemma ResolvedAcceptedExactly(provider: string, mode: SelectionMode, snapshot: Option<Snapshot>)
    requires Trimmed(provider)
    requires snapshot.Some? ==>
               TrimmedOption(snapshot.value.requested) && Trimmed(snapshot.value.resolved) && AllTrimmed(snapshot.value.candidates)
    ensures ValidPayload(Resolved(provider, mode, snapshot)) <==>
            snapshot.None? ||
            (&& snapshot.value.mode == mode && snapshot.value.resolved == provider
             && provider in snapshot.value.candidates && EachOnce(snapshot.value.candidates)
             && (mode.Explicit? ==> snapshot.value.requested == Some(provider))
             && (mode.Automatic? ==> snapshot.value.requested.None?))
  {
    hide Trimmed;
    if snapshot.Some? {
      OnceExactly(snapshot.value.candidates);
    }
  }

  lemma OnceExactly(ids: seq<string>)
    ensures EachOnce(ids) <==> Unique(ids)
  {
  }

  /**
   A failed resolution names the wanted provider if and only if one was wanted, which only some reasons allow, and
   names candidates, at least two different ones, if and only if the choice between them was ambiguous.
   */
  lemma FailureAcceptedExactly(reason: FailureReason, requested: Option<string>, candidates: seq<string>)
    requires TrimmedOption(requested) && AllTrimmed(candidates)
    ensures ValidPayload(ResolutionFailed(reason, requested, candidates)) <==>
            && EachOnce(candidates)
            && (if reason.AmbiguousProvider? then |candidates| >= 2 else candidates == [])
            && (requested.Some? ==> reason.UnknownProvider? || reason.UnsupportedMissionType? || reason.UnsupportedExecutionMode?)
            && (requested.None? ==> reason.AmbiguousProvider? || reason.NoSupportingProvider? || reason.UnsupportedExecutionMode?)
  {
    hide Trimmed;
    OnceExactly(candidates);
  }

  /** Only a change of the choice is accepted as one. */
  lemma SelectionAcceptedExactly(previous: Option<string>, current: Option<string>)
    requires TrimmedOption(previous) && TrimmedOption(current)
    ensures ValidPayload(SelectionChanged(previous, current)) <==> previous != current
  {
  }

  // ------------------------------------------------------------------ events

  /** The persisted form of an event, key by key. */
  ghost predicate Persists(raw: Raw, e: ExecutionEvent) {
    && raw.schemaVersion == Some(Version(3))
    && raw.eventId == Some(Uuid(e.eventId)) && raw.correlationId == Some(Uuid(e.correlationId))
    && raw.causationId == Some(if e.causationId.Some? then Uuid(e.causationId.value) else NullUuid)
    && raw.sequence == Some(Whole(e.sequence)) && raw.timestamp == Some(e.timestamp)
    && raw.eventType == Some(e.eventType) && raw.message == Some(e.message)
  }

  /** What a persisted event of the current version says about the event that is read from it. */
  ghost predicate Carries(raw: Raw, e: ExecutionEvent) {
    && raw.eventType == Some(e.eventType) && raw.timestamp == Some(e.timestamp) && raw.message == Some(e.message)
    && (raw.sequence == Some(Whole(e.sequence)) || raw.sequence == Some(Coercible(e.sequence)))
    && (raw.eventId.Some? ==> raw.eventId == Some(Uuid(e.eventId)))
    && (raw.correlationId.Some? ==> raw.correlationId == Some(Uuid(e.correlationId)))
    && (raw.causationId.Some? ==> raw.causationId == Some(if e.causationId.Some? then Uuid(e.causationId.value) else NullUuid))
  }

  /** Its metadata, as they are where the type accepts any, else as the payload of the type says them. */
  ghost predicate CarriesMetadata(raw: Raw, e: ExecutionEvent) {
    var fields := if raw.metadata.Metadata? then raw.metadata.fields else map[];
    && !raw.metadata.NotAnObject?
    && match KindFor(e.eventType)
       case None => e.metadata == fields
       case Some(kind) => exists p :: KindOf(p) == kind && Says(fields, p) && Says(e.metadata, p)
  }

  lemma WritesFields(e: ExecutionEvent)
    requires Serialize(e).Success?
    ensures Persists(Serialize(e).value, e) && e.eventId != 0
    ensures CarriesMetadata(Serialize(e).value, e.(metadata := Serialize(e).value.metadata.fields))
  {
    hide Normal, KindFor, Says;
    NormalIsIdempotent(e.eventType, e.metadata);
    NormalSays(e.eventType, Normal(e.eventType, e.metadata).value);
  }

  /** Normalising keeps what the metadata say. */
  lemma NormalSays(eventType: string, metadata: JsonObject)
    requires Normal(eventType, metadata).Some?
    ensures match KindFor(eventType)
            case None => Normal(eventType, metadata) == Some(metadata)
            case Some(kind) => exists p :: KindOf(p) == kind && Says(metadata, p) && Says(Normal(eventType, metadata).value, p)
  {
    hide GenericTypes, Parse, Dump, Says, ValidPayload, KindFor;
    if KindFor(eventType).Some? {
      var kind := KindFor(eventType).value;
      var p := Parse(kind, metadata).value;
      ReadsWhatIsThere(kind, metadata);
      ParsedIsValid(kind, metadata);
      WritesWhatItIs(p);
      assert KindOf(p) == kind && Says(metadata, p) && Says(Normal(eventType, metadata).value, p);
    }
  }

  /**
   Whatever is loaded, of any version, has the type, time, message, number and identifiers that are persisted, and its
   metadata say what the persisted ones say.
   */
  lemma LoadsWhatIsThere(raw: Raw, ctx: Context, derive: DeriveId, drawn: Drawn)
    requires Deserialize(raw, ctx, derive, drawn).Success?
    ensures Carries(raw, Deserialize(raw, ctx, derive, drawn).value)
    ensures CarriesMetadata(raw, Deserialize(raw, ctx, derive, drawn).value)
  {
    hide Normal, Says, KindFor, ToCurrent;
    DefaultChainIsModern(raw, ctx, derive);
    var current := Modern(raw, ctx, derive).value;
    NormalSays(current.eventType.value, MetadataOf(current.metadata).value);
  }

  // -------------------------------------------------------------------- logs

  /** The event at a place of a log that no mission may have. */
  ghost predicate Corrupt(events: seq<ExecutionEvent>, i: nat)
    requires i < |events|
  {
    || events[i].eventId == 0 || events[i].correlationId == 0
    || events[i].causationId == Some(0) || events[i].causationId == Some(events[i].eventId)
    || events[i].sequence < 1
    || (exists j :: 0 <= j < i && (events[j].eventId == events[i].eventId || events[j].sequence >= events[i].sequence))
  }

  /** A log is refused if and only if one of its events is corrupt or the mission counts to another number. */
  lemma RefusesExactly(events: seq<ExecutionEvent>, lastEventSequence: nat)
    ensures !ValidLog(Headers(events), lastEventSequence) <==>
            || (exists i :: 0 <= i < |events| && Corrupt(events, i))
            || (events == [] && lastEventSequence != 0)
            || (events != [] && events[|events| - 1].sequence != lastEventSequence)
  {
    var headers := Headers(events);
    forall i | 0 <= i < |events|
      ensures headers[i] == Header(events[i])
    {
    }
    hide ValidPrefix, Corrupt;
    assert headers == [] <==> events == [];
    assert events != [] ==> headers[|events| - 1].sequence == events[|events| - 1].sequence;
    if ValidPrefix(headers, |headers|) {
      forall i | 0 <= i < |events|
        ensures !Corrupt(events, i)
      {
        SoundAt(events, i);
      }
    }
    if forall i :: 0 <= i < |events| ==> !Corrupt(events, i) {
      SoundIsValid(events);
    }
  }

  lemma SoundAt(events: seq<ExecutionEvent>, i: nat)
    requires i < |events| && ValidPrefix(Headers(events), |events|)
    ensures !Corrupt(events, i)
  {
    var headers := Headers(events);
    assert headers[i] == Header(events[i]);
    FollowsOn(headers, i);
    forall j | 0 <= j < i
      ensures events[j].eventId != events[i].eventId && events[j].sequence < events[i].sequence
    {
      assert headers[j] == Header(events[j]);
      Increases(headers, j, i);
    }
  }

  ghost predicate Follows(headers: seq<Event>, i: nat)
    requires i < |headers|
  {
    headers[i].sequence >= 1 && (i > 0 ==> headers[i].sequence > headers[i - 1].sequence)
  }

  lemma FollowsOn(headers: seq<Event>, i: nat)
    requires i < |headers| && ValidPrefix(headers, |headers|)
    ensures Follows(headers, i)
  {
    var earlier := if i == 0 then 0 else headers[i - 1].sequence;
    assert headers[i].sequence > earlier;
  }

  lemma {:induction false} Increases(headers: seq<Event>, j: nat, i: nat)
    requires j < i < |headers| && ValidPrefix(headers, |headers|)
    ensures headers[j].sequence < headers[i].sequence && headers[i].sequence >= 1
  {
    if j < i - 1 {
      Increases(headers, j, i - 1);
    }
  }

  /** Its identifiers are neither nil nor its own cause nor used before. */
  ghost predicate WellNamed(headers: seq<Event>, i: nat)
    requires i < |headers|
  {
    && headers[i].eventId != 0 && headers[i].correlationId != 0
    && headers[i].causationId != Some(0) && headers[i].causationId != Some(headers[i].eventId)
    && forall j :: 0 <= j < i ==> headers[j].eventId != headers[i].eventId
  }

  lemma ValidFrom(headers: seq<Event>)
    requires forall i :: 0 <= i < |headers| ==> Follows(headers, i) && WellNamed(headers, i)
    ensures ValidPrefix(headers, |headers|)
  {
    forall i | 0 <= i < |headers|
      ensures headers[i].sequence > (if i == 0 then 0 else headers[i - 1].sequence)
    {
      assert Follows(headers, i);
    }
    forall i | 0 <= i < |headers|
      ensures headers[i].eventId != 0 && headers[i].correlationId != 0
      ensures headers[i].causationId != Some(0) && headers[i].causationId != Some(headers[i].eventId)
    {
      assert WellNamed(headers, i);
    }
    forall i, j | 0 <= i < j < |headers|
      ensures headers[i].eventId != headers[j].eventId
    {
      assert WellNamed(headers, j);
    }
  }

  lemma SoundIsValid(events: seq<ExecutionEvent>)
    requires forall i :: 0 <= i < |events| ==> !Corrupt(events, i)
    ensures ValidPrefix(Headers(events), |events|)
  {
    hide ValidPrefix;
    var headers := Headers(events);
    assert forall i :: 0 <= i < |headers| ==> headers[i] == Header(events[i]);
    forall i | 0 <= i < |events|
      ensures Follows(headers, i) && WellNamed(headers, i)
    {
      assert !Corrupt(events, i);
      assert i > 0 ==> headers[i - 1] == Header(events[i - 1]) && events[i - 1].sequence < events[i].sequence;
    }
    ValidFrom(headers);
  }

  // --------------------------------------------------------------- projections

  /** Every event of the three types has its row, with the event's number, time and place and what its metadata say. */
  lemma RowIsTheEvent(missionId: MissionId, e: ExecutionEvent, index: nat)
    ensures P.ToRow(missionId, e, index).Some? ==>
              var row := P.ToRow(missionId, e, index).value;
              && row.missionId == missionId && row.sequence == e.sequence && row.occurredAt == e.timestamp
              && row.legacyEventIndex == index
              && Some(row.kind) == KindFor(e.eventType) && KindOf(row.payload) == row.kind && Says(e.metadata, row.payload)
    ensures P.ToRow(missionId, e, index).None? && Normal(e.eventType, e.metadata).Some? ==>
              e.eventType !in {"provider_resolved", "provider_resolution_failed", "provider_selection_changed"}
  {
    hide Parse, Says, GenericTypes;
    if P.ToRow(missionId, e, index).Some? {
      ReadsWhatIsThere(KindFor(e.eventType).value, e.metadata);
    }
  }
}
