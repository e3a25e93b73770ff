/**
 When a provider projection that the verification calls consistent pages like the canonical log: the verification does
 not compare the position in the log, and pages order events of equal time by it
 (app/services/provider_history_verification.py:98-157, app/services/provider_resolution_history.py:362-398).
 */
module ProjectionOrder {
  import opened Wrappers
  import opened Sorting
  import opened MissionDomain
  import opened EventPayloads
  import opened EventUpcasting
  import opened EventStore
  import P = EventProjections
  import opened HistoryPages
  import opened HistoryIncrements

  // ---------------------------------------------------------------- what is shown

  /** One item of a page, as the client sees it. */
  datatype Item = Item(sequence: nat, occurredAt: int, kind: Option<PayloadKind>, payload: JsonObject)

  function ItemOf(x: Row): Item {
    Item(x.value.sequence, x.major,
         if x.value.content.Some? then Some(x.value.content.value.kind) else None,
         if x.value.content.Some? then Dump(x.value.content.value.payload) else map[])
  }

  function Items(rows: seq<Row>): (r: seq<Item>)
    ensures |r| == |rows|
  {
    seq(|rows|, i requires 0 <= i < |rows| => ItemOf(rows[i]))
  }

  /** The pages of a client that follows the cursors it is given, each page with its own limit. */
  function Walk(missionId: nat, rows: seq<Row>, cursor: Option<Cursor>, limits: seq<nat>): seq<Page>
    requires forall i :: 0 <= i < |limits| ==> limits[i] >= 1
    decreases |limits|
  {
    if limits == [] then []
    else
      var p := PageFrom(missionId, After(StableSort(rows), cursor), limits[0]);
      [p] + (if p.hasMore then Walk(missionId, rows, p.next, limits[1..]) else [])
  }

  function Shown(pages: seq<Page>): seq<seq<Item>> {
    seq(|pages|, i requires 0 <= i < |pages| => Items(pages[i].items))
  }

  /** The pages that cut a list of items at the limits. */
  function Cut(items: seq<Item>, limits: seq<nat>): seq<seq<Item>>
    requires forall i :: 0 <= i < |limits| ==> limits[i] >= 1
    decreases |limits|
  {
    if limits == [] then []
    else if |items| > limits[0] then [items[..limits[0]]] + Cut(items[limits[0]..], limits[1..])
    else [items]
  }

  /** Rows without ties are paged by cutting the sorted list. */
  lemma {:induction false} StrictWalk(missionId: nat, rows: seq<Row>, done: nat, limits: seq<nat>)
    requires Strict(StableSort(rows)) && done <= |StableSort(rows)|
    requires forall i :: 0 <= i < |limits| ==> limits[i] >= 1
    ensures Shown(Walk(missionId, rows, CursorTo(missionId, StableSort(rows), done), limits))
         == Cut(Items(StableSort(rows))[done..], limits)
    decreases |limits|
  {
    hide StableSort, After, Strict;
    if limits != [] {
      var sorted := StableSort(rows);
      StrictSuffix(missionId, sorted, done);
      var rest := sorted[done..];
      var p := PageFrom(missionId, rest, limits[0]);
      assert Items(sorted)[done..] == Items(rest);
      if p.hasMore {
        var next := done + limits[0];
        assert p.items == rest[..limits[0]] && Items(p.items) == Items(rest)[..limits[0]];
        assert p.next == CursorTo(missionId, sorted, next);
        StrictWalk(missionId, rows, next, limits[1..]);
        assert Items(sorted)[next..] == Items(rest)[limits[0]..];
        ShownMore(p, Walk(missionId, rows, p.next, limits[1..]));
      } else {
        assert p.items == rest;
        ShownMore(p, []);
      }
    }
  }

  lemma ShownMore(p: Page, more: seq<Page>)
    ensures Shown([p] + more) == [Items(p.items)] + Shown(more)
  {
  }

  // ------------------------------------------------- rows that correspond

  ghost predicate DistinctSequences(rows: seq<Row>) {
    forall x, y :: x in rows && y in rows && x.value.sequence == y.value.sequence ==> x == y
  }

  ghost predicate NoRowTwice(rows: seq<Row>) {
    forall i, j :: 0 <= i < j < |rows| ==> rows[i] != rows[j]
  }

  ghost predicate ShownIn(x: Row, rows: seq<Row>) {
    exists y :: y in rows && ItemOf(y) == ItemOf(x)
  }

  /** Both lists hold the same items, under the same sequences. */
  ghost predicate Correspond(canonical: seq<Row>, projected: seq<Row>) {
    && DistinctSequences(canonical) && DistinctSequences(projected)
    && NoRowTwice(projected)
    && (forall x :: x in canonical ==> ShownIn(x, projected))
    && (forall y :: y in projected ==> ShownIn(y, canonical))
  }

  /** The positions order events of equal time as the log does. */
  ghost predicate SameTieOrder(canonical: seq<Row>, projected: seq<Row>) {
    forall x, y, x', y' ::
      x in canonical && y in canonical && x' in projected && y' in projected && ItemOf(x') == ItemOf(x) && ItemOf(y') == ItemOf(y)
      && x.major == y.major && x.minor < y.minor ==>
        x'.minor < y'.minor
  }

  /** The canonical row of a projected one. */
  ghost function Canon(canonical: seq<Row>, y: Row): (x: Row)
    requires ShownIn(y, canonical)
    ensures x in canonical && ItemOf(x) == ItemOf(y)
  {
    var x :| x in canonical && ItemOf(x) == ItemOf(y);
    x
  }

  lemma PlacesDiffer(rows: seq<Row>, x: Row, y: Row)
    requires DistinctPlaces(rows) && x in rows && y in rows && x != y
    ensures x.minor != y.minor
  {
    var i :| 0 <= i < |rows| && rows[i] == x;
    var j :| 0 <= j < |rows| && rows[j] == y;
    assert i < j || j < i;
  }

  lemma CorrespondsTo(canonical: seq<Row>, projected: seq<Row>, a: Row)
    requires Correspond(canonical, projected) && a in projected
    ensures ShownIn(a, canonical)
  {
  }

  lemma OneRowEach(canonical: seq<Row>, projected: seq<Row>, a: Row, b: Row)
    requires Correspond(canonical, projected) && a in projected && b in projected && a != b
    requires ShownIn(a, canonical) && ShownIn(b, canonical)
    ensures Canon(canonical, a) != Canon(canonical, b)
  {
    assert a.value.sequence != b.value.sequence;
    assert Canon(canonical, a).value.sequence == ItemOf(a).sequence && Canon(canonical, b).value.sequence == ItemOf(b).sequence;
  }

  lemma TiesAlike(canonical: seq<Row>, projected: seq<Row>, x: Row, y: Row, x': Row, y': Row)
    requires SameTieOrder(canonical, projected)
    requires x in canonical && y in canonical && x' in projected && y' in projected
    requires ItemOf(x') == ItemOf(x) && ItemOf(y') == ItemOf(y) && x.major == y.major && x.minor < y.minor
    ensures x'.minor < y'.minor
  {
  }

  /** Positions that order ties as the log does put two projected rows as their canonical rows are put. */
  lemma SameSide(canonical: seq<Row>, projected: seq<Row>, a: Row, b: Row)
    requires Correspond(canonical, projected) && DistinctPlaces(canonical) && SameTieOrder(canonical, projected)
    requires a in projected && b in projected && a != b && NotAfter(a, b)
    ensures StrictlyBefore(a, b)
    ensures ShownIn(a, canonical) && ShownIn(b, canonical) && StrictlyBefore(Canon(canonical, a), Canon(canonical, b))
  {
    hide Correspond, SameTieOrder, DistinctPlaces;
    CorrespondsTo(canonical, projected, a);
    CorrespondsTo(canonical, projected, b);
    var x, y := Canon(canonical, a), Canon(canonical, b);
    assert x.major == a.major && y.major == b.major;
    OneRowEach(canonical, projected, a, b);
    if a.major == b.major {
      PlacesDiffer(canonical, x, y);
      if x.minor < y.minor {
        TiesAlike(canonical, projected, x, y, a, b);
      } else {
        TiesAlike(canonical, projected, y, x, b, a);
      }
    }
  }

  lemma SortedNoRowTwice(rows: seq<Row>)
    requires NoRowTwice(rows)
    ensures NoRowTwice(StableSort(rows))
  {
    hide StableSort;
    ArrangedNoRowTwice(rows, StableSort(rows));
  }

  lemma ArrangedNoRowTwice(rows: seq<Row>, s: seq<Row>)
    requires NoRowTwice(rows) && multiset(s) == multiset(rows)
    ensures NoRowTwice(s)
  {
    forall i, j | 0 <= i < j < |s|
      ensures s[i] != s[j]
    {
      if s[i] == s[j] {
        assert s == s[..i] + [s[i]] + s[i + 1..j] + [s[j]] + s[j + 1..];
        assert multiset(s)[s[i]] >= 2;
        OnceOnly(rows, s[i]);
        assert false;
      }
    }
  }

  lemma {:induction false} OnceOnly(rows: seq<Row>, x: Row)
    requires NoRowTwice(rows)
    ensures multiset(rows)[x] <= 1
  {
    if rows != [] {
      assert rows == [rows[0]] + rows[1..];
      OnceOnly(rows[1..], x);
      if rows[0] == x {
        assert x !in rows[1..];
      }
    }
  }

  /** A strictly ordered sequence is determined by the set of its items. */
  lemma {:induction false} StrictSameSet(s: seq<Row>, t: seq<Row>)
    requires Strict(s) && Strict(t) && forall x :: x in s <==> x in t
    ensures s == t
  {
    if s == [] {
      assert forall i :: 0 <= i < |t| ==> t[i] in s;
    } else {
      assert s[0] in s && s[0] in t;
      assert t[0] in t && t[0] in s;
      FirstOrBefore(s, t[0]);
      FirstOrBefore(t, s[0]);
      forall x
        ensures x in s[1..] <==> x in t[1..]
      {
        TailMember(s, x);
        TailMember(t, x);
      }
      StrictSameSet(s[1..], t[1..]);
    }
  }

  lemma TailMember(s: seq<Row>, x: Row)
    requires Strict(s) && s != []
    ensures x in s[1..] <==> x in s && x != s[0]
  {
    assert s == [s[0]] + s[1..];
    if x in s[1..] {
      var i :| 0 <= i < |s[1..]| && s[1..][i] == x;
      assert StrictlyBefore(s[0], s[i + 1]);
    }
  }

  // ------------------------------------------- the order is right: every walk is

  ghost function Canons(canonical: seq<Row>, rows: seq<Row>): (r: seq<Row>)
    requires forall i :: 0 <= i < |rows| ==> ShownIn(rows[i], canonical)
    ensures |r| == |rows| && forall i :: 0 <= i < |rows| ==> r[i] == Canon(canonical, rows[i])
  {
    seq(|rows|, i requires 0 <= i < |rows| => Canon(canonical, rows[i]))
  }

  lemma OrderGivesItems(canonical: seq<Row>, projected: seq<Row>)
    requires Correspond(canonical, projected) && DistinctPlaces(canonical) && SameTieOrder(canonical, projected)
    ensures Strict(StableSort(projected)) && Items(StableSort(projected)) == Items(StableSort(canonical))
  {
    hide Correspond, SameTieOrder, DistinctPlaces, NoRowTwice, StableSort, ShownIn;
    var s, c := StableSort(projected), StableSort(canonical);
    SortIsSorted(projected);
    NoTwice(canonical, projected);
    forall i | 0 <= i < |s|
      ensures s[i] in projected && ShownIn(s[i], canonical)
    {
      assert s[i] in s;
      SortHasSameItems(projected, s[i]);
      CorrespondsTo(canonical, projected, s[i]);
    }
    var t := Canons(canonical, s);
    forall i, j | 0 <= i < j < |s|
      ensures StrictlyBefore(s[i], s[j]) && StrictlyBefore(t[i], t[j])
    {
      SortedDiffer(s, i, j);
      assert NotAfter(s[i], s[j]);
      SameSide(canonical, projected, s[i], s[j]);
    }
    SortedIsStrict(canonical);
    forall x
      ensures x in t <==> x in c
    {
      SortHasSameItems(canonical, x);
      CanonMember(canonical, projected, s, x);
    }
    StrictSameSet(t, c);
    SameItems(s, t);
  }

  lemma SameItems(s: seq<Row>, t: seq<Row>)
    requires |s| == |t| && forall i :: 0 <= i < |s| ==> ItemOf(s[i]) == ItemOf(t[i])
    ensures Items(s) == Items(t)
  {
  }

  lemma NoTwice(canonical: seq<Row>, projected: seq<Row>)
    requires Correspond(canonical, projected)
    ensures NoRowTwice(StableSort(projected))
  {
    SortedNoRowTwice(projected);
  }

  lemma SortedDiffer(s: seq<Row>, i: nat, j: nat)
    requires NoRowTwice(s) && i < j < |s|
    ensures s[i] != s[j]
  {
  }

  lemma CanonMember(canonical: seq<Row>, projected: seq<Row>, s: seq<Row>, x: Row)
    requires Correspond(canonical, projected) && s == StableSort(projected)
    requires forall i :: 0 <= i < |s| ==> ShownIn(s[i], canonical)
    ensures x in Canons(canonical, s) <==> x in canonical
  {
    hide StableSort;
    var t := Canons(canonical, s);
    if x in canonical {
      assert ShownIn(x, projected);
      var y :| y in projected && ItemOf(y) == ItemOf(x);
      SortHasSameItems(projected, y);
      var i :| 0 <= i < |s| && s[i] == y;
      assert t[i].value.sequence == x.value.sequence;
      assert t[i] == x;
    }
  }

  // ------------------------------------------ every walk is right: so is the order

  function Ones(n: nat): (r: seq<nat>)
    ensures |r| == n && forall i :: 0 <= i < n ==> r[i] == 1
  {
    seq(n, i => 1)
  }

  function Flat(pages: seq<Page>): seq<Row> {
    if pages == [] then [] else pages[0].items + Flat(pages[1..])
  }

  function FlatItems(pages: seq<seq<Item>>): seq<Item> {
    if pages == [] then [] else pages[0] + FlatItems(pages[1..])
  }

  lemma {:induction false} FlatShown(pages: seq<Page>)
    ensures FlatItems(Shown(pages)) == Items(Flat(pages))
  {
    if pages != [] {
      FlatShown(pages[1..]);
      assert pages == [pages[0]] + pages[1..];
      ShownMore(pages[0], pages[1..]);
      assert Shown(pages)[1..] == Shown(pages[1..]);
      assert Items(pages[0].items + Flat(pages[1..])) == Items(pages[0].items) + Items(Flat(pages[1..]));
    }
  }

  /** With one item a page, the pages of a list are its items. */
  lemma {:induction false} CutOnes(items: seq<Item>, n: nat)
    requires n >= |items| && n >= 1
    ensures FlatItems(Cut(items, Ones(n))) == items
    decreases n
  {
    assert Ones(n)[1..] == Ones(n - 1);
    if |items| > 1 {
      CutOnes(items[1..], n - 1);
      assert [items[0]] + items[1..] == items;
      assert items[..1] == [items[0]];
    } else {
      assert FlatItems([items]) == items + FlatItems([]);
    }
  }

  /** Rows read one by one along the cursors strictly follow each other, ties or not. */
  lemma {:induction false} OneByOne(missionId: nat, rows: seq<Row>, cursor: Option<Cursor>, n: nat)
    ensures var r := Flat(Walk(missionId, rows, cursor, Ones(n)));
            Strict(r) && forall x :: x in r ==> x in rows && HistoryPages.Follows(x, cursor)
    decreases n
  {
    hide StableSort, After;
    if n > 0 {
      assert Ones(n)[1..] == Ones(n - 1);
      var rest := After(StableSort(rows), cursor);
      var p := PageFrom(missionId, rest, 1);
      AfterMembers(rows, cursor);
      var pages := Walk(missionId, rows, cursor, Ones(n));
      if p.hasMore {
        assert p.items == [rest[0]] && rest[0] in rest;
        OneByOne(missionId, rows, p.next, n - 1);
        assert pages[1..] == Walk(missionId, rows, p.next, Ones(n - 1));
        OneThenMore(rest[0], Flat(pages[1..]), missionId, cursor);
        assert Flat(pages) == [rest[0]] + Flat(pages[1..]);
      } else {
        assert pages == [p] && Flat(pages[1..]) == [];
        assert Flat(pages) == p.items;
        assert |rest| == 1 ==> rest[0] in rest;
      }
    }
  }

  lemma OneThenMore(x: Row, more: seq<Row>, missionId: nat, cursor: Option<Cursor>)
    requires Strict(more) && HistoryPages.Follows(x, cursor)
    requires forall y :: y in more ==> HistoryPages.Follows(y, Some(Cursor(missionId, x.major, x.minor)))
    ensures Strict([x] + more) && forall y :: y in more ==> HistoryPages.Follows(y, cursor)
  {
    forall j | 0 <= j < |more|
      ensures StrictlyBefore(x, more[j])
    {
      assert more[j] in more;
    }
  }

  lemma AfterMembers(rows: seq<Row>, cursor: Option<Cursor>)
    ensures forall x :: x in After(StableSort(rows), cursor) ==> x in rows && HistoryPages.Follows(x, cursor)
  {
    hide StableSort;
    AfterIn(StableSort(rows), cursor);
    forall x | x in After(StableSort(rows), cursor)
      ensures x in rows
    {
      SortHasSameItems(rows, x);
    }
  }

  lemma {:induction false} AfterIn(rows: seq<Row>, cursor: Option<Cursor>)
    ensures forall x :: x in After(rows, cursor) ==> x in rows && HistoryPages.Follows(x, cursor)
  {
    if rows != [] {
      AfterIn(rows[1..], cursor);
    }
  }

  /** Rows that show the canonical items in strict order witness the order of ties. */
  lemma ItemsGiveOrder(canonical: seq<Row>, projected: seq<Row>, r: seq<Row>)
    requires Correspond(canonical, projected) && DistinctPlaces(canonical)
    requires Strict(r) && (forall x :: x in r ==> x in projected) && Items(r) == Items(StableSort(canonical))
    ensures SameTieOrder(canonical, projected)
  {
    hide Correspond, DistinctPlaces, StableSort, Strict, Items, ItemOf;
    forall x, y, x', y' |
      x in canonical && y in canonical && x' in projected && y' in projected && ItemOf(x') == ItemOf(x) && ItemOf(y') == ItemOf(y)
      && x.major == y.major && x.minor < y.minor
      ensures x'.minor < y'.minor
    {
      TieWitness(canonical, projected, r, x, y, x', y');
    }
  }

  lemma TieWitness(canonical: seq<Row>, projected: seq<Row>, r: seq<Row>, x: Row, y: Row, x': Row, y': Row)
    requires Correspond(canonical, projected) && DistinctPlaces(canonical)
    requires Strict(r) && (forall z :: z in r ==> z in projected) && Items(r) == Items(StableSort(canonical))
    requires x in canonical && y in canonical && x' in projected && y' in projected
    requires ItemOf(x') == ItemOf(x) && ItemOf(y') == ItemOf(y) && x.major == y.major && x.minor < y.minor
    ensures x'.minor < y'.minor
  {
    hide Correspond, DistinctPlaces, StableSort;
    var c := StableSort(canonical);
    SortedIsStrict(canonical);
    var i := PlaceOf(canonical, projected, r, x, x');
    var j := PlaceOf(canonical, projected, r, y, y');
    assert j < i ==> StrictlyBefore(c[j], c[i]);
    assert i < j;
    assert StrictlyBefore(r[i], r[j]);
  }

  lemma PlaceOf(canonical: seq<Row>, projected: seq<Row>, r: seq<Row>, x: Row, x': Row) returns (i: nat)
    requires Correspond(canonical, projected)
    requires (forall z :: z in r ==> z in projected) && Items(r) == Items(StableSort(canonical))
    requires x in canonical && x' in projected && ItemOf(x') == ItemOf(x)
    ensures i < |r| && i < |StableSort(canonical)| && StableSort(canonical)[i] == x && r[i] == x'
  {
    hide StableSort;
    var c := StableSort(canonical);
    SortHasSameItems(canonical, x);
    i :| 0 <= i < |c| && c[i] == x;
    assert Items(r)[i] == Items(c)[i];
    assert r[i] in r && r[i].value.sequence == x'.value.sequence;
  }

  // -------------------------------------------------------------- the theorem

  ghost predicate PagesAlike(missionId: nat, canonical: seq<Row>, projected: seq<Row>) {
    forall limits: seq<nat> :: (forall i :: 0 <= i < |limits| ==> limits[i] >= 1) ==>
      Shown(Walk(missionId, projected, None, limits)) == Shown(Walk(missionId, canonical, None, limits))
  }

  /** Following the cursors shows the same on every page, for all limits, exactly when ties are ordered alike. */
  lemma PagesAlikeExactly(missionId: nat, canonical: seq<Row>, projected: seq<Row>)
    requires Correspond(canonical, projected) && DistinctPlaces(canonical)
    ensures PagesAlike(missionId, canonical, projected) <==> SameTieOrder(canonical, projected)
  {
    hide Correspond, SameTieOrder, StableSort, Strict, DistinctPlaces;
    if SameTieOrder(canonical, projected) {
      OrderGivesItems(canonical, projected);
      SortedIsStrict(canonical);
      forall limits: seq<nat> | forall i :: 0 <= i < |limits| ==> limits[i] >= 1
        ensures Shown(Walk(missionId, projected, None, limits)) == Shown(Walk(missionId, canonical, None, limits))
      {
        StrictWalk(missionId, projected, 0, limits);
        StrictWalk(missionId, canonical, 0, limits);
      }
    }
    if PagesAlike(missionId, canonical, projected) {
      AlikeGivesOrder(missionId, canonical, projected);
    }
  }

  lemma AlikeGivesOrder(missionId: nat, canonical: seq<Row>, projected: seq<Row>)
    requires Correspond(canonical, projected) && DistinctPlaces(canonical) && PagesAlike(missionId, canonical, projected)
    ensures SameTieOrder(canonical, projected)
  {
    hide Correspond, SameTieOrder, StableSort, Strict, DistinctPlaces;
    var n := |canonical| + 1;
    var read := Walk(missionId, projected, None, Ones(n));
    SortedIsStrict(canonical);
    StrictWalk(missionId, canonical, 0, Ones(n));
    var items := Items(StableSort(canonical));
    assert items[0..] == items;
    CutOnes(items, n);
    FlatShown(read);
    OneByOne(missionId, projected, None, n);
    ItemsGiveOrder(canonical, projected, Flat(read));
  }

  // -------------------------------------------- the tables and their verification

  /** A table row as the pages read it. */
  function PageRow(r: P.Row): Row {
    Keyed(r.occurredAt, r.legacyEventIndex, LogEvent(r.sequence, r.occurredAt, Some(Content(r.kind, r.payload))))
  }

  function PageRows(rows: seq<P.Row>): (r: seq<Row>)
    ensures |r| == |rows|
  {
    seq(|rows|, i requires 0 <= i < |rows| => PageRow(rows[i]))
  }

  /** The log as the pages read it. */
  function EventOf(missionId: MissionId, e: ExecutionEvent, index: nat): LogEvent {
    LogEvent(e.sequence, e.timestamp,
             match P.ToRow(missionId, e, index)
             case Some(row) => Some(Content(row.kind, row.payload))
             case None => None)
  }

  function LogOf(missionId: MissionId, log: seq<ExecutionEvent>): (r: Log)
    ensures |r| == |log|
  {
    seq(|log|, i requires 0 <= i < |log| => EventOf(missionId, log[i], i))
  }

  /**
   A history made from a log that loads skips nothing: exactly the events of the three provider types are shown, since
   their payloads were read when the log was.
   */
  lemma NothingIsSkipped(mission: MissionId, raws: seq<Raw>, missionId: Option<MissionId>, derive: DeriveId, drawn: nat -> Drawn)
    requires Restore(raws, missionId, derive, drawn).Success?
    ensures var log := Restore(raws, missionId, derive, drawn).value;
            forall i :: 0 <= i < |log| ==> (LogOf(mission, log)[i].IsProvider() <==> KindFor(log[i].eventType).Some?)
  {
    hide Restore, KindFor, Parse, GenericTypes, Dump;
    var log := Restore(raws, missionId, derive, drawn).value;
    RestoredIsNormal(raws, missionId, derive, drawn);
    forall i | 0 <= i < |log|
      ensures LogOf(mission, log)[i].IsProvider() <==> KindFor(log[i].eventType).Some?
    {
      assert Writable(log[i]);
    }
  }

  lemma {:induction false} CanonicalRows(missionId: MissionId, log: seq<ExecutionEvent>, n: nat)
    requires n <= |log|
    ensures ProviderRows(LogOf(missionId, log), n) == PageRows(P.RowsOf(missionId, log, n))
  {
    hide Parse, KindFor;
    if n > 0 {
      CanonicalRows(missionId, log, n - 1);
      assert LogOf(missionId, log)[n - 1] == EventOf(missionId, log[n - 1], n - 1);
      var row := P.ToRow(missionId, log[n - 1], n - 1);
      if row.Some? {
        PageRowsMore(P.RowsOf(missionId, log, n - 1), row.value);
      }
    }
  }

  lemma PageRowsMore(rows: seq<P.Row>, row: P.Row)
    ensures PageRows(rows + [row]) == PageRows(rows) + [PageRow(row)]
  {
  }

  /** With unique sequences the map holds every row under its sequence. */
  lemma {:induction false} InMap(rows: seq<P.Row>)
    requires P.UniqueRows(rows)
    ensures forall i :: 0 <= i < |rows| ==>
              rows[i].sequence in P.BySequence(rows) && P.BySequence(rows)[rows[i].sequence] == rows[i]
    ensures forall s :: s in P.BySequence(rows) ==> exists i :: 0 <= i < |rows| && rows[i].sequence == s
  {
    if rows != [] {
      InMap(rows[..|rows| - 1]);
    }
  }

  lemma UniqueCorrespond(rows: seq<P.Row>)
    requires P.UniqueRows(rows)
    ensures DistinctSequences(PageRows(rows)) && NoRowTwice(PageRows(rows))
  {
    var r := PageRows(rows);
    forall x, y | x in r && y in r && x.value.sequence == y.value.sequence
      ensures x == y
    {
      var i :| 0 <= i < |r| && r[i] == x;
      var j :| 0 <= j < |r| && r[j] == y;
      assert rows[i].sequence == rows[j].sequence;
    }
    forall i, j | 0 <= i < j < |r|
      ensures r[i] != r[j]
    {
      assert rows[i].sequence != rows[j].sequence;
    }
  }

  /** Under each sequence that both maps have, nothing shown differs. */
  lemma AgreeShows(a: seq<P.Row>, b: seq<P.Row>, x: Row)
    requires P.UniqueRows(a) && P.UniqueRows(b) && x in PageRows(a)
    requires P.Agree(P.BySequence(a), P.BySequence(b), P.ProviderDiff) || P.Agree(P.BySequence(b), P.BySequence(a), P.ProviderDiff)
    ensures ShownIn(x, PageRows(b))
  {
    hide Dump, P.BySequence;
    InMap(a);
    InMap(b);
    var i :| 0 <= i < |a| && PageRows(a)[i] == x;
    var s := a[i].sequence;
    assert s in P.BySequence(a).Keys;
    assert s in P.BySequence(b).Keys;
    var j :| 0 <= j < |b| && b[j].sequence == s;
    assert P.BySequence(b)[s] == b[j];
    var mine, theirs := a[i], b[j];
    assert P.ProviderDiff(mine, theirs) == [] || P.ProviderDiff(theirs, mine) == [];
    assert ItemOf(PageRows(b)[j]) == ItemOf(x);
    assert PageRows(b)[j] in PageRows(b);
  }

  lemma AgreeCorrespond(canonical: seq<P.Row>, rows: seq<P.Row>)
    requires P.UniqueRows(canonical) && P.UniqueRows(rows)
    requires P.Agree(P.BySequence(canonical), P.BySequence(rows), P.ProviderDiff)
    ensures Correspond(PageRows(canonical), PageRows(rows))
  {
    hide ShownIn, P.Agree, P.UniqueRows, DistinctSequences, NoRowTwice;
    UniqueCorrespond(canonical);
    UniqueCorrespond(rows);
    forall x | x in PageRows(canonical)
      ensures ShownIn(x, PageRows(rows))
    {
      AgreeShows(canonical, rows, x);
    }
    forall y | y in PageRows(rows)
      ensures ShownIn(y, PageRows(canonical))
    {
      AgreeShows(rows, canonical, y);
    }
  }

  /** The pages of a walk are those the two reading paths return for the cursors it follows. */
  lemma WalkReads(missionId: nat, log: Log, rows: seq<Row>, cursor: Option<Cursor>, limit: nat)
    requires limit >= 1 && (cursor.Some? ==> cursor.value.missionId == missionId)
    ensures Walk(missionId, Rows(log), cursor, [limit])[0] == ReadPage(missionId, log, cursor, limit).value
    ensures Walk(missionId, rows, cursor, [limit])[0] == ReadProjectionPage(missionId, rows, cursor, limit).value
  {
    hide After, StableSort;
    TakeTake(After(StableSort(rows), cursor), limit);
  }

  /**
   A projection that the verification calls consistent shows the same as the log on every page, for all limits, when
   the cursors are followed, exactly when its positions order events of equal time as the log does.
   */
  lemma ConsistentPagesExactly(missionId: MissionId, log: seq<ExecutionEvent>, rows: seq<P.Row>)
    requires P.UniqueLog(log) && P.UniqueRows(rows)
    requires P.Agree(P.BySequence(P.RowsOf(missionId, log, |log|)), P.BySequence(rows), P.ProviderDiff)
    ensures PagesAlike(missionId, Rows(LogOf(missionId, log)), PageRows(rows))
            <==> SameTieOrder(Rows(LogOf(missionId, log)), PageRows(rows))
  {
    hide P.Agree, P.UniqueRows, Correspond, PagesAlike, SameTieOrder;
    P.RowSequencesUnique(missionId, log, |log|);
    AgreeCorrespond(P.RowsOf(missionId, log, |log|), rows);
    CanonicalRows(missionId, log, |log|);
    RowsDistinct(LogOf(missionId, log), |log|);
    PagesAlikeExactly(missionId, Rows(LogOf(missionId, log)), PageRows(rows));
  }

  // ----------------------------------------------------------------- an example

  const CHOSEN := SelectionChanged(None, Some("a"))
  const DROPPED := SelectionChanged(Some("a"), None)

  function ChoiceEvent(sequence: nat, payload: Payload): ExecutionEvent {
    ExecutionEvent(sequence, 1, None, sequence, 0, "provider_selection_changed", "", Dump(payload))
  }

  /** Two choices of provider at one instant. */
  const TWO_CHOICES := [ChoiceEvent(1, CHOSEN), ChoiceEvent(2, DROPPED)]

  /** Their rows, with the positions the wrong way round. */
  const SWAPPED := [P.Row(1, 1, SelectionChangedKind, 0, CHOSEN, 1), P.Row(1, 2, SelectionChangedKind, 0, DROPPED, 0)]

  lemma ChoiceRows()
    ensures P.RowsOf(1, TWO_CHOICES, 2) == [P.Row(1, 1, SelectionChangedKind, 0, CHOSEN, 0), P.Row(1, 2, SelectionChangedKind, 0, DROPPED, 1)]
  {
    hide Dump, Parse;
    PayloadRoundTrip(CHOSEN);
    PayloadRoundTrip(DROPPED);
    assert P.RowsOf(1, TWO_CHOICES, 0) == [];
    assert P.RowsOf(1, TWO_CHOICES, 1) == [P.Row(1, 1, SelectionChangedKind, 0, CHOSEN, 0)];
  }

  lemma TwoInMap(a: P.Row, b: P.Row)
    requires a.sequence != b.sequence
    ensures P.UniqueRows([a, b]) && P.BySequence([a, b]) == map[a.sequence := a, b.sequence := b]
  {
    assert [a, b][..1] == [a] && [a][..0] == [];
    assert P.BySequence([a]) == map[a.sequence := a];
  }

  lemma SwappedAgree()
    ensures P.UniqueLog(TWO_CHOICES) && P.UniqueRows(SWAPPED)
    ensures P.Agree(P.BySequence(P.RowsOf(1, TWO_CHOICES, |TWO_CHOICES|)), P.BySequence(SWAPPED), P.ProviderDiff)
  {
    hide Dump, P.BySequence, P.ToRow, P.RowsOf;
    ChoiceRows();
    var first, second := P.Row(1, 1, SelectionChangedKind, 0, CHOSEN, 0), P.Row(1, 2, SelectionChangedKind, 0, DROPPED, 1);
    TwoInMap(first, second);
    TwoInMap(SWAPPED[0], SWAPPED[1]);
    assert SWAPPED == [SWAPPED[0], SWAPPED[1]];
  }

  lemma CanonicalFirst()
    ensures ReadPage(1, LogOf(1, TWO_CHOICES), None, 1).Success?
    ensures Items(ReadPage(1, LogOf(1, TWO_CHOICES), None, 1).value.items) == [Item(1, 0, Some(SelectionChangedKind), Dump(CHOSEN))]
  {
    hide Dump, P.ToRow, P.RowsOf, ReadPage, StableSort;
    ChoiceRows();
    var first, second := P.Row(1, 1, SelectionChangedKind, 0, CHOSEN, 0), P.Row(1, 2, SelectionChangedKind, 0, DROPPED, 1);
    CanonicalRows(1, TWO_CHOICES, 2);
    assert PageRows([first, second]) == [PageRow(first), PageRow(second)];
    SortTwo(PageRow(first), PageRow(second));
    FirstPage(LogOf(1, TWO_CHOICES), PageRow(first), PageRow(second));
    assert Items([PageRow(first)]) == [ItemOf(PageRow(first))];
  }

  lemma ProjectedFirst()
    ensures ReadProjectionPage(1, PageRows(SWAPPED), None, 1).Success?
    ensures Items(ReadProjectionPage(1, PageRows(SWAPPED), None, 1).value.items)
         == [Item(2, 0, Some(SelectionChangedKind), Dump(DROPPED))]
  {
    hide Dump, ReadProjectionPage, StableSort;
    assert PageRows(SWAPPED) == [PageRow(SWAPPED[0]), PageRow(SWAPPED[1])];
    SortTwo(PageRow(SWAPPED[0]), PageRow(SWAPPED[1]));
    FirstShown(PageRows(SWAPPED), PageRow(SWAPPED[1]), PageRow(SWAPPED[0]));
    assert Items([PageRow(SWAPPED[1])]) == [ItemOf(PageRow(SWAPPED[1]))];
  }

  /** The verification calls the swapped rows consistent, and the first page shows the second event first. */
  lemma ConsistentButPagedOtherwise()
    ensures P.UniqueLog(TWO_CHOICES) && P.UniqueRows(SWAPPED)
    ensures P.Agree(P.BySequence(P.RowsOf(1, TWO_CHOICES, |TWO_CHOICES|)), P.BySequence(SWAPPED), P.ProviderDiff)
    ensures var canonical, projected := ReadPage(1, LogOf(1, TWO_CHOICES), None, 1), ReadProjectionPage(1, PageRows(SWAPPED), None, 1);
            && canonical.Success? && projected.Success?
            && Items(canonical.value.items) != Items(projected.value.items)
  {
    hide *;
    SwappedAgree();
    CanonicalFirst();
    ProjectedFirst();
  }

  lemma SortTwo(x: Row, y: Row)
    ensures StableSort([x, y]) == if NotAfter(x, y) then [x, y] else [y, x]
  {
    assert [x, y][1..] == [y] && [y][1..] == [];
    assert StableSort([y]) == [y];
  }

  lemma FirstShown(rows: seq<Row>, x: Row, y: Row)
    requires StableSort(rows) == [x, y]
    ensures ReadProjectionPage(1, rows, None, 1).Success? && ReadProjectionPage(1, rows, None, 1).value.items == [x]
  {
    AllFollow([x, y]);
    assert Take(Take([x, y], 2), 1) == [x];
  }

  lemma FirstPage(log: Log, x: Row, y: Row)
    requires Ordered(log) == [x, y]
    ensures ReadPage(1, log, None, 1).Success? && ReadPage(1, log, None, 1).value.items == [x]
  {
    AllFollow([x, y]);
  }

  lemma {:induction false} AllFollow(rows: seq<Row>)
    ensures After(rows, None) == rows
  {
    if rows != [] {
      AllFollow(rows[1..]);
    }
  }
}
