/**
 Rebuilding the two read models of the mission log in batches and comparing them with it
 (app/services/mission_event_projection.py, provider_history_rebuild.py, provider_history_projection.py,
 provider_history_verification.py).
 */
module EventProjections {
  import opened Wrappers
  import opened MissionDomain
  import opened EventPayloads
  import opened EventStore

  /** A row of the provider history table. */
  datatype Row = Row(
    missionId: MissionId, sequence: nat, kind: PayloadKind, occurredAt: Time, payload: Payload, legacyEventIndex: nat)

  /** A stored mission with the log that was loaded for it. */
  datatype Stored = Stored(id: MissionId, log: seq<ExecutionEvent>)

  /** `execution_event_to_provider_projection`; a loaded provider event always has a readable payload. */
  function ToRow(missionId: MissionId, e: ExecutionEvent, index: nat): Option<Row> {
    match KindFor(e.eventType)
    case None => None
    case Some(kind) =>
      match Parse(kind, e.metadata)
      case None => None
      case Some(payload) => Some(Row(missionId, e.sequence, kind, e.timestamp, payload, index))
  }

  /** The provider rows of the first `n` events of a log. */
  function RowsOf(missionId: MissionId, log: seq<ExecutionEvent>, n: nat): seq<Row>
    requires n <= |log|
  {
    if n == 0 then []
    else
      match ToRow(missionId, log[n - 1], n - 1)
      case Some(row) => RowsOf(missionId, log, n - 1) + [row]
      case None => RowsOf(missionId, log, n - 1)
  }

  /** The canonical provider history of all missions, in stream order. */
  function AllRows(missions: seq<Stored>): seq<Row> {
    if missions == [] then []
    else
      var m := missions[|missions| - 1];
      AllRows(missions[..|missions| - 1]) + RowsOf(m.id, m.log, |m.log|)
  }

  /** The canonical event table. */
  function EventsOf(m: Stored): seq<(MissionId, ExecutionEvent)> {
    seq(|m.log|, i requires 0 <= i < |m.log| => (m.id, m.log[i]))
  }

  function AllEvents(missions: seq<Stored>): seq<(MissionId, ExecutionEvent)> {
    if missions == [] then [] else AllEvents(missions[..|missions| - 1]) + EventsOf(missions[|missions| - 1])
  }

  // ------------------------------------------------------------------ rebuild

  /** A projection table behind its writer. */
  class Table<T> {
    var rows: seq<T>

    constructor ()
      ensures rows == []
    {
      rows := [];
    }

    method Clear()
      modifies this
      ensures rows == []
    {
      rows := [];
    }

    method AppendMany(more: seq<T>)
      modifies this
      ensures rows == old(rows) + more
    {
      rows := rows + more;
    }
  }

  /** Whatever the batch size, the provider table ends up as the canonical history, and the counts are right. */
  method RebuildProviderHistory(missions: seq<Stored>, table: Table<Row>, batchSize: int)
    returns (processedMissions: nat, processedEvents: nat, insertedRows: nat)
    modifies table
    ensures table.rows == AllRows(missions)
    ensures processedMissions == |missions| && processedEvents == insertedRows == |AllRows(missions)|
  {
    hide ToRow;
    table.Clear();
    processedMissions, processedEvents := 0, 0;
    var pending: seq<Row> := [];
    for k := 0 to |missions|
      invariant processedMissions == k && processedEvents == |table.rows| + |pending|
      invariant table.rows + pending == AllRows(missions[..k])
    {
      var mission := missions[k];
      processedMissions := processedMissions + 1;
      assert missions[..k + 1][..k] == missions[..k];
      ghost var before := pending;
      for index := 0 to |mission.log|
        invariant processedEvents == |table.rows| + |pending|
        invariant pending == before + RowsOf(mission.id, mission.log, index)
      {
        var row := ToRow(mission.id, mission.log[index], index);
        if row.Some? {
          pending := pending + [row.value];
          processedEvents := processedEvents + 1;
        }
      }
      if |pending| >= batchSize {
        table.AppendMany(pending);
        pending := [];
      }
    }
    assert missions[..|missions|] == missions;
    if pending != [] {
      table.AppendMany(pending);
    }
    insertedRows := processedEvents;
  }

  lemma AllEventsOne(pending: seq<Stored>, mission: Stored)
    ensures AllEvents(pending + [mission]) == AllEvents(pending) + EventsOf(mission)
    ensures |EventsOf(mission)| == |mission.log|
    ensures mission.log == [] ==> EventsOf(mission) == []
  {
    assert (pending + [mission])[..|pending|] == pending;
  }

  /** `_append_pending_events`. */
  method AppendPending(table: Table<(MissionId, ExecutionEvent)>, pending: seq<Stored>)
    modifies table
    ensures table.rows == old(table.rows) + AllEvents(pending)
  {
    for k := 0 to |pending|
      invariant table.rows == old(table.rows) + AllEvents(pending[..k])
    {
      assert pending[..k + 1][..k] == pending[..k];
      table.AppendMany(EventsOf(pending[k]));
    }
    assert pending[..|pending|] == pending;
  }

  /** Whatever the batch size, the event table ends up as the canonical logs, and the counts are right. */
  method RebuildMissionEvents(missions: seq<Stored>, table: Table<(MissionId, ExecutionEvent)>, batchSize: int)
    returns (processedMissions: nat, insertedEvents: nat)
    modifies table
    ensures table.rows == AllEvents(missions)
    ensures processedMissions == |missions| && insertedEvents == |AllEvents(missions)|
  {
    hide EventsOf;
    table.Clear();
    processedMissions, insertedEvents := 0, 0;
    var pending: seq<Stored> := [];
    for k := 0 to |missions|
      invariant processedMissions == k && insertedEvents == |AllEvents(missions[..k])|
      invariant table.rows + AllEvents(pending) == AllEvents(missions[..k])
    {
      var mission := missions[k];
      processedMissions := processedMissions + 1;
      assert missions[..k + 1][..k] == missions[..k];
      AllEventsOne(pending, mission);
      if mission.log == [] {
        continue;
      }
      pending := pending + [mission];
      insertedEvents := insertedEvents + |mission.log|;
      if |pending| >= batchSize {
        AppendPending(table, pending);
        pending := [];
      }
    }
    assert missions[..|missions|] == missions;
    if pending != [] {
      AppendPending(table, pending);
    }
  }

  // ------------------------------------------------------------- verification

  datatype Field = EventTypeField | OccurredAtField | PayloadField | WholeEventField

  datatype Mismatch = Mismatch(sequence: nat, fields: seq<Field>)

  datatype Report = Report(
    consistent: bool, canonicalCount: nat, projectionCount: nat,
    missing: seq<nat>, unexpected: seq<nat>, mismatches: seq<Mismatch>)

  /** `validate_status`: None of the reports the comparison builds is refused by it. */
  predicate ValidReport(r: Report) {
    r.consistent <==> r.missing == [] && r.unexpected == [] && r.mismatches == [] && r.canonicalCount == r.projectionCount
  }

  ghost predicate Ascending(s: seq<nat>) {
    forall i, j :: 0 <= i < j < |s| ==> s[i] < s[j]
  }

  /** `tuple(sorted(...))` of a set. */
  ghost predicate Lists(s: seq<nat>, items: set<nat>) {
    Ascending(s) && forall x :: x in s <==> x in items
  }

  function InsertAscending(x: nat, s: seq<nat>): seq<nat> {
    if s == [] || x < s[0] then [x] + s else [s[0]] + InsertAscending(x, s[1..])
  }

  lemma {:induction false} InsertAscendingOk(x: nat, s: seq<nat>)
    requires Ascending(s) && x !in s
    ensures Ascending(InsertAscending(x, s))
    ensures forall y :: y in InsertAscending(x, s) <==> y == x || y in s
  {
    if s != [] && x >= s[0] {
      InsertAscendingOk(x, s[1..]);
      var rest := InsertAscending(x, s[1..]);
      assert s == [s[0]] + s[1..];
      forall k | 0 <= k < |rest|
        ensures s[0] < rest[k]
      {
        assert rest[k] in rest;
      }
    } else {
      assert forall y :: y in [x] + s <==> y == x || y in s;
    }
  }

  method SortedSet(items: set<nat>) returns (s: seq<nat>)
    ensures Lists(s, items)
  {
    s := [];
    var rest := items;
    while rest != {}
      invariant rest <= items && Lists(s, items - rest)
      decreases |rest|
    {
      var x :| x in rest;
      InsertAscendingOk(x, s);
      s := InsertAscending(x, s);
      rest := rest - {x};
    }
  }

  /** Both maps have the same sequences and nothing differs under any of them. */
  ghost predicate Agree<V(!new)>(canonical: map<nat, V>, projected: map<nat, V>, diff: (V, V) -> seq<Field>) {
    && canonical.Keys == projected.Keys
    && forall s :: s in canonical && s in projected ==> diff(canonical[s], projected[s]) == []
  }

  /** The report lists exactly the differences of the two maps, each once and in order. */
  ghost predicate Exact<V(!new)>(r: Report, canonical: map<nat, V>, projected: map<nat, V>, diff: (V, V) -> seq<Field>) {
    && r.canonicalCount == |canonical| && r.projectionCount == |projected|
    && Lists(r.missing, canonical.Keys - projected.Keys)
    && Lists(r.unexpected, projected.Keys - canonical.Keys)
    && MismatchesAre(r.mismatches, canonical, projected, diff, canonical.Keys * projected.Keys)
  }

  ghost predicate MismatchesAre<V(!new)>(
    mismatches: seq<Mismatch>, canonical: map<nat, V>, projected: map<nat, V>, diff: (V, V) -> seq<Field>, among: set<nat>)
  {
    && (forall i, j :: 0 <= i < j < |mismatches| ==> mismatches[i].sequence < mismatches[j].sequence)
    && (forall m :: m in mismatches <==>
          m.sequence in among && m.sequence in canonical && m.sequence in projected
          && m.fields != [] && m.fields == diff(canonical[m.sequence], projected[m.sequence]))
  }

  /** The comparison of the two sequence-indexed maps. */
  method CompareMaps<V(!new)>(canonical: map<nat, V>, projected: map<nat, V>, diff: (V, V) -> seq<Field>) returns (r: Report)
    ensures Exact(r, canonical, projected, diff)
    ensures r.consistent <==> Agree(canonical, projected, diff)
    ensures ValidReport(r)
  {
    var missing := SortedSet(canonical.Keys - projected.Keys);
    var unexpected := SortedSet(projected.Keys - canonical.Keys);
    var shared := SortedSet(canonical.Keys * projected.Keys);
    var mismatches: seq<Mismatch> := [];
    for k := 0 to |shared|
      invariant MismatchesAre(mismatches, canonical, projected, diff, FirstOf(shared, k))
    {
      assert shared[k] in shared;
      var fields := diff(canonical[shared[k]], projected[shared[k]]);
      NextMismatch(mismatches, canonical, projected, diff, shared, k);
      if fields != [] {
        mismatches := mismatches + [Mismatch(shared[k], fields)];
      }
    }
    AllShared(shared, canonical.Keys * projected.Keys);
    r := Report(missing == [] && unexpected == [] && mismatches == [], |canonical|, |projected|, missing, unexpected, mismatches);
    ReportStatus(r, canonical, projected, diff);
  }

  function FirstOf(s: seq<nat>, k: nat): set<nat>
    requires k <= |s|
  {
    set i | 0 <= i < k :: s[i]
  }

  lemma AllShared(s: seq<nat>, items: set<nat>)
    requires Lists(s, items)
    ensures FirstOf(s, |s|) == items
  {
  }

  lemma NextMismatch<V(!new)>(mismatches: seq<Mismatch>, canonical: map<nat, V>, projected: map<nat, V>,
                              diff: (V, V) -> seq<Field>, shared: seq<nat>, k: nat)
    requires k < |shared| && Ascending(shared) && shared[k] in canonical && shared[k] in projected
    requires MismatchesAre(mismatches, canonical, projected, diff, FirstOf(shared, k))
    ensures var fields := diff(canonical[shared[k]], projected[shared[k]]);
            MismatchesAre(if fields != [] then mismatches + [Mismatch(shared[k], fields)] else mismatches,
                          canonical, projected, diff, FirstOf(shared, k + 1))
  {
    assert FirstOf(shared, k + 1) == FirstOf(shared, k) + {shared[k]};
    forall i | 0 <= i < |mismatches|
      ensures mismatches[i].sequence < shared[k]
    {
      assert mismatches[i] in mismatches;
    }
  }

  /** Equal counts follow from equal key sets, so the status validator never has anything to refuse. */
  lemma ReportStatus<V(!new)>(r: Report, canonical: map<nat, V>, projected: map<nat, V>, diff: (V, V) -> seq<Field>)
    requires Exact(r, canonical, projected, diff)
    requires r.consistent == (r.missing == [] && r.unexpected == [] && r.mismatches == [])
    ensures ValidReport(r) && (r.consistent <==> Agree(canonical, projected, diff))
  {
    NoneListed(r.missing, canonical.Keys - projected.Keys);
    NoneListed(r.unexpected, projected.Keys - canonical.Keys);
    if r.missing == [] && r.unexpected == [] {
      assert canonical.Keys == projected.Keys;
      assert |canonical| == |canonical.Keys| && |projected| == |projected.Keys|;
    }
    if r.consistent {
      forall s | s in canonical && s in projected
        ensures diff(canonical[s], projected[s]) == []
      {
        assert Mismatch(s, diff(canonical[s], projected[s])) !in r.mismatches;
      }
    }
    MismatchDiffers(r.mismatches, canonical, projected, diff, canonical.Keys * projected.Keys);
  }

  lemma MismatchDiffers<V(!new)>(
    mismatches: seq<Mismatch>, canonical: map<nat, V>, projected: map<nat, V>, diff: (V, V) -> seq<Field>, among: set<nat>)
    requires MismatchesAre(mismatches, canonical, projected, diff, among)
    ensures mismatches != [] ==> exists s :: s in canonical && s in projected && diff(canonical[s], projected[s]) != []
  {
    if mismatches != [] {
      var m := mismatches[0];
      assert m in mismatches;
    }
  }

  lemma NoneListed(s: seq<nat>, items: set<nat>)
    requires Lists(s, items)
    ensures s == [] <==> items == {}
  {
    if s != [] {
      assert s[0] in s;
    }
  }

  // --------------------------------------------------- the two verifications

  datatype VerifyError = CanonicalNotUnique | ProjectionNotUnique

  ghost predicate UniqueLog(log: seq<ExecutionEvent>) {
    forall i, j :: 0 <= i < j < |log| ==> log[i].sequence != log[j].sequence
  }

  ghost predicate UniqueRows(rows: seq<Row>) {
    forall i, j :: 0 <= i < j < |rows| ==> rows[i].sequence != rows[j].sequence
  }

  function BySequence(rows: seq<Row>): map<nat, Row> {
    if rows == [] then map[] else BySequence(rows[..|rows| - 1])[rows[|rows| - 1].sequence := rows[|rows| - 1]]
  }

  function EventsBySequence(events: seq<ExecutionEvent>): map<nat, ExecutionEvent> {
    if events == [] then map[]
    else EventsBySequence(events[..|events| - 1])[events[|events| - 1].sequence := events[|events| - 1]]
  }

  /** The fields the provider verification compares; the position in the log is not one of them. */
  function ProviderDiff(expected: Row, actual: Row): (fields: seq<Field>)
    ensures EventTypeField in fields <==> expected.kind != actual.kind
    ensures OccurredAtField in fields <==> expected.occurredAt != actual.occurredAt
    ensures PayloadField in fields <==> Dump(expected.payload) != Dump(actual.payload)
    ensures WholeEventField !in fields && forall i, j :: 0 <= i < j < |fields| ==> fields[i] != fields[j]
  {
    (if expected.kind != actual.kind then [EventTypeField] else [])
    + (if expected.occurredAt != actual.occurredAt then [OccurredAtField] else [])
    + (if Dump(expected.payload) != Dump(actual.payload) then [PayloadField] else [])
  }

  function EventDiff(expected: ExecutionEvent, actual: ExecutionEvent): seq<Field> {
    if expected != actual then [WholeEventField] else []
  }

  ghost predicate UniqueNumbers(s: seq<nat>) {
    forall i, j :: 0 <= i < j < |s| ==> s[i] != s[j]
  }

  lemma LogUniqueness(log: seq<ExecutionEvent>)
    ensures UniqueLog(log) <==> UniqueNumbers(LogSequences(log))
  {
    if UniqueNumbers(LogSequences(log)) {
      forall i, j | 0 <= i < j < |log|
        ensures log[i].sequence != log[j].sequence
      {
        assert LogSequences(log)[i] != LogSequences(log)[j];
      }
    }
  }

  lemma RowUniqueness(rows: seq<Row>)
    ensures UniqueRows(rows) <==> UniqueNumbers(RowSequences(rows))
  {
    if UniqueNumbers(RowSequences(rows)) {
      forall i, j | 0 <= i < j < |rows|
        ensures rows[i].sequence != rows[j].sequence
      {
        assert RowSequences(rows)[i] != RowSequences(rows)[j];
      }
    }
  }

  method HasUniqueSequences(sequences: seq<nat>) returns (unique: bool)
    ensures unique <==> UniqueNumbers(sequences)
  {
    var seen: set<nat> := {};
    for k := 0 to |sequences|
      invariant forall x :: x in seen <==> exists i :: 0 <= i < k && sequences[i] == x
      invariant forall i, j :: 0 <= i < j < k ==> sequences[i] != sequences[j]
    {
      if sequences[k] in seen {
        return false;
      }
      seen := seen + {sequences[k]};
    }
    return true;
  }

  function LogSequences(log: seq<ExecutionEvent>): seq<nat> {
    seq(|log|, i requires 0 <= i < |log| => log[i].sequence)
  }

  function RowSequences(rows: seq<Row>): seq<nat> {
    seq(|rows|, i requires 0 <= i < |rows| => rows[i].sequence)
  }

  /** `compare_provider_history_projection`. */
  method CompareProviderHistory(missionId: MissionId, log: seq<ExecutionEvent>, rows: seq<Row>)
    returns (r: Result<Report, VerifyError>)
    ensures r.Success? <==> UniqueLog(log) && UniqueRows(rows)
    ensures r == Failure(CanonicalNotUnique) <==> !UniqueLog(log)
    ensures r.Success? ==>
              && Exact(r.value, BySequence(RowsOf(missionId, log, |log|)), BySequence(rows), ProviderDiff)
              && ValidReport(r.value)
              && (r.value.consistent <==> Agree(BySequence(RowsOf(missionId, log, |log|)), BySequence(rows), ProviderDiff))
  {
    hide Exact, Agree, RowsOf, BySequence, ValidReport, UniqueLog, UniqueRows, UniqueNumbers;
    LogUniqueness(log);
    RowUniqueness(rows);
    var unique := HasUniqueSequences(LogSequences(log));
    if !unique {
      return Failure(CanonicalNotUnique);
    }
    unique := HasUniqueSequences(RowSequences(rows));
    if !unique {
      return Failure(ProjectionNotUnique);
    }
    var report := CompareMaps(BySequence(RowsOf(missionId, log, |log|)), BySequence(rows), ProviderDiff);
    return Success(report);
  }

  /** `compare_mission_event_projection`. */
  method CompareMissionEvents(log: seq<ExecutionEvent>, projected: seq<ExecutionEvent>) returns (r: Result<Report, VerifyError>)
    ensures r.Success? <==> UniqueLog(log) && UniqueLog(projected)
    ensures r == Failure(CanonicalNotUnique) <==> !UniqueLog(log)
    ensures r.Success? ==>
              && Exact(r.value, EventsBySequence(log), EventsBySequence(projected), EventDiff)
              && ValidReport(r.value)
              && (r.value.consistent <==> EventsBySequence(log) == EventsBySequence(projected))
  {
    hide Exact, EventsBySequence, ValidReport, UniqueLog, UniqueNumbers;
    LogUniqueness(log);
    LogUniqueness(projected);
    var unique := HasUniqueSequences(LogSequences(log));
    if !unique {
      return Failure(CanonicalNotUnique);
    }
    unique := HasUniqueSequences(LogSequences(projected));
    if !unique {
      return Failure(ProjectionNotUnique);
    }
    var report := CompareMaps(EventsBySequence(log), EventsBySequence(projected), EventDiff);
    AgreeMeansEqual(EventsBySequence(log), EventsBySequence(projected));
    return Success(report);
  }

  lemma AgreeMeansEqual(a: map<nat, ExecutionEvent>, b: map<nat, ExecutionEvent>)
    ensures Agree(a, b, EventDiff) <==> a == b
  {
    if Agree(a, b, EventDiff) {
      forall s | s in a
        ensures s in b && a[s] == b[s]
      {
        assert s in a.Keys;
        assert EventDiff(a[s], b[s]) == [];
      }
    }
  }

  // ---------------------------------------------------- rebuild, then verify

  /** What the table holds for one mission. */
  function TableFor(rows: seq<Row>, id: MissionId): seq<Row> {
    if rows == [] then []
    else
      var last := rows[|rows| - 1];
      TableFor(rows[..|rows| - 1], id) + (if last.missionId == id then [last] else [])
  }

  lemma {:induction false} TableForAppend(a: seq<Row>, b: seq<Row>, id: MissionId)
    ensures TableFor(a + b, id) == TableFor(a, id) + TableFor(b, id)
  {
    if b == [] {
      assert a + b == a;
    } else {
      var n := |b| - 1;
      assert (a + b)[..|a + b| - 1] == a + b[..n];
      TableForAppend(a, b[..n], id);
    }
  }

  lemma {:induction false} TableForOne(owner: MissionId, log: seq<ExecutionEvent>, n: nat, id: MissionId)
    requires n <= |log|
    ensures TableFor(RowsOf(owner, log, n), id) == if owner == id then RowsOf(owner, log, n) else []
  {
    hide Parse, KindFor;
    if n > 0 {
      TableForOne(owner, log, n - 1, id);
    }
  }

  ghost predicate DistinctMissions(missions: seq<Stored>) {
    forall i, j :: 0 <= i < j < |missions| ==> missions[i].id != missions[j].id
  }

  lemma {:induction false} TableForNone(missions: seq<Stored>, id: MissionId)
    requires forall i :: 0 <= i < |missions| ==> missions[i].id != id
    ensures TableFor(AllRows(missions), id) == []
  {
    hide RowsOf;
    if missions != [] {
      var n := |missions| - 1;
      TableForNone(missions[..n], id);
      TableForAppend(AllRows(missions[..n]), RowsOf(missions[n].id, missions[n].log, |missions[n].log|), id);
      TableForOne(missions[n].id, missions[n].log, |missions[n].log|, id);
    }
  }

  lemma {:induction false} TableForAll(missions: seq<Stored>, i: nat)
    requires DistinctMissions(missions) && i < |missions|
    ensures TableFor(AllRows(missions), missions[i].id) == RowsOf(missions[i].id, missions[i].log, |missions[i].log|)
  {
    hide RowsOf;
    var n := |missions| - 1;
    var id := missions[i].id;
    var lastRows := RowsOf(missions[n].id, missions[n].log, |missions[n].log|);
    TableForAppend(AllRows(missions[..n]), lastRows, id);
    TableForOne(missions[n].id, missions[n].log, |missions[n].log|, id);
    if i < n {
      TableForAll(missions[..n], i);
    } else {
      TableForNone(missions[..n], id);
    }
  }

  lemma {:induction false} RowSequencesUnique(id: MissionId, log: seq<ExecutionEvent>, n: nat)
    requires n <= |log| && UniqueLog(log)
    ensures UniqueRows(RowsOf(id, log, n))
    ensures forall k :: 0 <= k < |RowsOf(id, log, n)| ==>
              exists i :: 0 <= i < n && log[i].sequence == RowsOf(id, log, n)[k].sequence
  {
    hide Parse, KindFor;
    if n > 0 {
      RowSequencesUnique(id, log, n - 1);
    }
  }

  /** After a rebuild the provider rows of every mission agree with its log. */
  lemma RebuildThenVerify(missions: seq<Stored>, i: nat)
    requires DistinctMissions(missions) && i < |missions| && UniqueLog(missions[i].log)
    ensures var m := missions[i];
            var rows := TableFor(AllRows(missions), m.id);
            && UniqueRows(rows)
            && Agree(BySequence(RowsOf(m.id, m.log, |m.log|)), BySequence(rows), ProviderDiff)
  {
    TableForAll(missions, i);
    RowSequencesUnique(missions[i].id, missions[i].log, |missions[i].log|);
  }

  /**
   Rebuilding the provider history, in batches of whatever size, and verifying any one mission against it: there is a
   report unless the mission's own log repeats a sequence number, and the report is consistent.
   */
  method RebuildAndVerifyProviderHistory(missions: seq<Stored>, table: Table<Row>, batchSize: int, i: nat)
    returns (r: Result<Report, VerifyError>)
    requires DistinctMissions(missions) && i < |missions|
    modifies table
    ensures table.rows == AllRows(missions)
    ensures r.Success? <==> UniqueLog(missions[i].log)
    ensures r.Success? ==> r.value.consistent && r.value.canonicalCount == r.value.projectionCount
    ensures r.Failure? ==> r == Failure(CanonicalNotUnique)
  {
    hide RowsOf, BySequence, TableFor, UniqueLog, UniqueRows, Agree, AllRows, DistinctMissions;
    var processedMissions, processedEvents, insertedRows := RebuildProviderHistory(missions, table, batchSize);
    if UniqueLog(missions[i].log) {
      RebuildThenVerify(missions, i);
    }
    r := CompareProviderHistory(missions[i].id, missions[i].log, TableFor(table.rows, missions[i].id));
  }

  /** What the event table holds for one mission. */
  function EventTableFor(rows: seq<(MissionId, ExecutionEvent)>, id: MissionId): seq<ExecutionEvent> {
    if rows == [] then []
    else
      var last := rows[|rows| - 1];
      EventTableFor(rows[..|rows| - 1], id) + (if last.0 == id then [last.1] else [])
  }

  lemma {:induction false} EventTableForAppend(
    a: seq<(MissionId, ExecutionEvent)>, b: seq<(MissionId, ExecutionEvent)>, id: MissionId)
    ensures EventTableFor(a + b, id) == EventTableFor(a, id) + EventTableFor(b, id)
  {
    if b == [] {
      assert a + b == a;
    } else {
      var n := |b| - 1;
      assert (a + b)[..|a + b| - 1] == a + b[..n];
      EventTableForAppend(a, b[..n], id);
    }
  }

  lemma {:induction false} EventTableForOne(m: Stored, id: MissionId)
    ensures EventTableFor(EventsOf(m), id) == if m.id == id then m.log else []
    decreases |m.log|
  {
    if m.log != [] {
      var n := |m.log| - 1;
      var earlier := Stored(m.id, m.log[..n]);
      assert EventsOf(m)[..n] == EventsOf(earlier);
      assert m.log == m.log[..n] + [m.log[n]];
      EventTableForOne(earlier, id);
    }
  }

  /** What the event table holds for an id is the log of the mission that has it, if there is one. */
  lemma {:induction false} EventTableForAll(missions: seq<Stored>, id: MissionId)
    requires DistinctMissions(missions)
    ensures (forall k :: 0 <= k < |missions| ==> missions[k].id != id) ==> EventTableFor(AllEvents(missions), id) == []
    ensures forall i :: 0 <= i < |missions| && missions[i].id == id ==> EventTableFor(AllEvents(missions), id) == missions[i].log
  {
    hide EventsOf;
    if missions != [] {
      var n := |missions| - 1;
      EventTableForAll(missions[..n], id);
      EventTableForAppend(AllEvents(missions[..n]), EventsOf(missions[n]), id);
      EventTableForOne(missions[n], id);
      forall i | 0 <= i < |missions| && missions[i].id == id
        ensures EventTableFor(AllEvents(missions), id) == missions[i].log
      {
        if i < n {
          assert missions[..n][i].id == id;
        } else {
          assert forall k :: 0 <= k < n ==> missions[..n][k].id != id;
        }
      }
    }
  }

  /** The same for the event table, which holds whole events. */
  method RebuildAndVerifyMissionEvents(
    missions: seq<Stored>, table: Table<(MissionId, ExecutionEvent)>, batchSize: int, i: nat)
    returns (r: Result<Report, VerifyError>)
    requires DistinctMissions(missions) && i < |missions|
    modifies table
    ensures table.rows == AllEvents(missions)
    ensures r.Success? <==> UniqueLog(missions[i].log)
    ensures r.Success? ==> r.value.consistent && r.value.canonicalCount == r.value.projectionCount
    ensures r.Failure? ==> r == Failure(CanonicalNotUnique)
  {
    hide UniqueLog, EventTableFor, AllEvents, EventsBySequence;
    var processedMissions, insertedEvents := RebuildMissionEvents(missions, table, batchSize);
    EventTableForAll(missions, missions[i].id);
    r := CompareMissionEvents(missions[i].log, EventTableFor(table.rows, missions[i].id));
  }

  /** After a rebuild the event table holds every mission's log, event by event. */
  lemma RebuiltEventsAreTheLog(missions: seq<Stored>, i: nat)
    requires DistinctMissions(missions) && i < |missions|
    ensures EventTableFor(AllEvents(missions), missions[i].id) == missions[i].log
  {
    EventTableForAll(missions, missions[i].id);
  }
}
