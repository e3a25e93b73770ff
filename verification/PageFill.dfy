/**
 Mapping captured page controls to people and to the task's intent
 (app/services/page_field_mapper.py, app/domain/page_fill_plan.py).

 Text matching is abstract: a control comes with the profile fields, the intent fields and the search terms whose
 words its label, name or options contain.
 */
module PageFill {
  import opened Wrappers

  type ControlId = nat
  type PersonId = nat

  datatype ControlKind =
    | Text | Date | Email | Tel | Number | Select | Radio | Checkbox | Button | Link | Clickable | Canvas | Svg | Other

  datatype ProfileField = FirstName | LastName | BirthDate | DocumentNumber

  datatype IntentField = Origin | Destination | RequestedDate | EarliestTime | LatestTime | RequestedQuantity | SearchTerm

  datatype Control = Control(
    id: ControlId, kind: ControlKind, required: bool, disabled: bool,
    profileMatches: set<ProfileField>, intentMatches: set<IntentField>, termMatches: set<nat>)

  /** What the task asks for: the intent fields it has a value for and the number of its search terms. */
  datatype Intent = Intent(available: set<IntentField>, terms: nat)

  datatype ProfileBinding = ProfileBinding(control: ControlId, field: ProfileField, person: PersonId, sensitive: bool)

  datatype IntentBinding = IntentBinding(control: ControlId, field: IntentField, term: Option<nat>)

  datatype FillPlan = FillPlan(bindings: seq<ProfileBinding>, intents: seq<IntentBinding>, unmatched: seq<ControlId>)

  const MAX_CONTROLS: nat := 300
  const MAX_TERMS: nat := 20

  // ------------------------------------------------------------- the detectors

  const PROFILE_ORDER: seq<ProfileField> := [FirstName, LastName, BirthDate, DocumentNumber]
  const INTENT_ORDER: seq<IntentField> := [Origin, Destination, RequestedDate, EarliestTime, LatestTime, RequestedQuantity]

  function FirstProfile(order: seq<ProfileField>, matches: set<ProfileField>): Option<ProfileField> {
    if order == [] then None
    else if order[0] in matches then Some(order[0])
    else FirstProfile(order[1..], matches)
  }

  /** `_detect_profile_field`. */
  function DetectProfile(c: Control): Option<ProfileField> {
    if c.disabled || c.kind in {Button, Link, Checkbox, Radio, Select} then None
    else FirstProfile(PROFILE_ORDER, c.profileMatches)
  }

  function FirstIntent(order: seq<IntentField>, wanted: set<IntentField>): (r: Option<IntentField>)
    ensures r.Some? ==> r.value in wanted && r.value in order
  {
    if order == [] then None
    else if order[0] in wanted then Some(order[0])
    else FirstIntent(order[1..], wanted)
  }

  /** The first term from `index` on that is not bound and matches. */
  function FirstTerm(index: nat, terms: nat, bound: set<nat>, matches: set<nat>): (r: Option<nat>)
    ensures r.Some? ==> index <= r.value < terms && r.value !in bound && r.value in matches
    decreases terms - index
  {
    if index >= terms then None
    else if index !in bound && index in matches then Some(index)
    else FirstTerm(index + 1, terms, bound, matches)
  }

  /** `_detect_intent_binding`. */
  function DetectIntent(intent: Option<Intent>, c: Control, boundFields: set<IntentField>, boundTerms: set<nat>)
    : (r: Option<IntentBinding>)
    ensures r.Some? ==>
              && intent.Some? && !c.disabled && r.value.control == c.id
              && (r.value.field == SearchTerm <==> r.value.term.Some?)
              && (r.value.term.Some? ==> r.value.term.value < intent.value.terms && r.value.term.value !in boundTerms)
              && (r.value.term.None? ==> r.value.field !in boundFields)
  {
    if intent.None? || c.disabled || c.kind in {Button, Link} then None
    else
      match FirstIntent(INTENT_ORDER, (c.intentMatches * intent.value.available) - boundFields)
      case Some(field) => Some(IntentBinding(c.id, field, None))
      case None =>
        match FirstTerm(0, intent.value.terms, boundTerms, c.termMatches)
        case Some(index) => Some(IntentBinding(c.id, SearchTerm, Some(index)))
        case None => None
  }

  // ----------------------------------------------------------------- the mapper

  /** The accumulators of the loop. */
  datatype State = State(
    occurrences: map<ProfileField, nat>, bindings: seq<ProfileBinding>, intents: seq<IntentBinding>,
    boundFields: set<IntentField>, boundTerms: set<nat>, unmatched: seq<ControlId>)

  function Seen(occurrences: map<ProfileField, nat>, field: ProfileField): nat {
    if field in occurrences then occurrences[field] else 0
  }

  function Counted(s: State, c: Control): State {
    match DetectProfile(c)
    case Some(field) => s.(occurrences := s.occurrences[field := Seen(s.occurrences, field) + 1])
    case None => s
  }

  /** What becomes of one control. */
  datatype Effect = ToPerson(b: ProfileBinding) | ToIntent(i: IntentBinding) | LeftOver | Ignored

  function EffectOf(s: State, c: Control, people: seq<PersonId>, intent: Option<Intent>): Effect {
    var field := DetectProfile(c);
    if field.Some? && Seen(s.occurrences, field.value) < |people| then
      ToPerson(ProfileBinding(c.id, field.value, people[Seen(s.occurrences, field.value)], field.value == DocumentNumber))
    else
      match DetectIntent(intent, c, s.boundFields, s.boundTerms)
      case Some(i) => ToIntent(i)
      case None => if c.required && !c.disabled then LeftOver else Ignored
  }

  function Apply(s: State, e: Effect, id: ControlId): State {
    match e
    case ToPerson(b) => s.(bindings := s.bindings + [b])
    case ToIntent(i) =>
      if i.term.Some? then s.(intents := s.intents + [i], boundTerms := s.boundTerms + {i.term.value})
      else s.(intents := s.intents + [i], boundFields := s.boundFields + {i.field})
    case LeftOver => s.(unmatched := s.unmatched + [id])
    case Ignored => s
  }

  /** One control. */
  function Map(s: State, c: Control, people: seq<PersonId>, intent: Option<Intent>): State {
    Apply(Counted(s, c), EffectOf(s, c, people, intent), c.id)
  }

  function MapAll(controls: seq<Control>, people: seq<PersonId>, intent: Option<Intent>): State {
    if controls == [] then State(map[], [], [], {}, {}, [])
    else Map(MapAll(controls[..|controls| - 1], people, intent), controls[|controls| - 1], people, intent)
  }

  function PlanOf(s: State): FillPlan {
    FillPlan(s.bindings, s.intents, s.unmatched)
  }

  datatype FillError = UnknownPerson | InvalidPlan

  /** `build_page_fill_plan`; the plan's own validators have the last word. */
  method BuildPageFillPlan(controls: seq<Control>, personIds: seq<PersonId>, identities: set<PersonId>, intent: Option<Intent>)
    returns (r: Result<FillPlan, FillError>)
    ensures r == if exists p :: p in personIds && p !in identities then Failure(UnknownPerson)
                 else if ValidPlan(PlanOf(MapAll(controls, personIds, intent))) then Success(PlanOf(MapAll(controls, personIds, intent)))
                 else Failure(InvalidPlan)
  {
    hide DetectProfile, DetectIntent, ValidPlan;
    if exists p :: p in personIds && p !in identities {
      return Failure(UnknownPerson);
    }
    var occurrences: map<ProfileField, nat> := map[];
    var bindings: seq<ProfileBinding> := [];
    var intents: seq<IntentBinding> := [];
    var boundFields: set<IntentField> := {};
    var boundTerms: set<nat> := {};
    var unmatched: seq<ControlId> := [];
    for k := 0 to |controls|
      invariant State(occurrences, bindings, intents, boundFields, boundTerms, unmatched)
             == MapAll(controls[..k], personIds, intent)
    {
      var control := controls[k];
      assert controls[..k + 1][..k] == controls[..k];
      var field := DetectProfile(control);
      if field.Some? {
        var index := Seen(occurrences, field.value);
        occurrences := occurrences[field.value := index + 1];
        if index < |personIds| {
          bindings := bindings + [ProfileBinding(control.id, field.value, personIds[index], field.value == DocumentNumber)];
          continue;
        }
      }
      var binding := DetectIntent(intent, control, boundFields, boundTerms);
      if binding.Some? {
        intents := intents + [binding.value];
        if binding.value.field == SearchTerm {
          boundTerms := boundTerms + {binding.value.term.value};
        } else {
          boundFields := boundFields + {binding.value.field};
        }
        continue;
      }
      if control.required && !control.disabled {
        unmatched := unmatched + [control.id];
      }
    }
    assert controls[..|controls|] == controls;
    var plan := FillPlan(bindings, intents, unmatched);
    if ValidPlan(plan) {
      return Success(plan);
    }
    return Failure(InvalidPlan);
  }

  // ---------------------------------------------------------------- validity

  predicate UniqueIds(ids: seq<ControlId>) {
    forall i, j :: 0 <= i < j < |ids| ==> ids[i] != ids[j]
  }

  function BoundIds(p: FillPlan): seq<ControlId> {
    seq(|p.bindings|, i requires 0 <= i < |p.bindings| => p.bindings[i].control)
    + seq(|p.intents|, i requires 0 <= i < |p.intents| => p.intents[i].control)
  }

  /** Every check of `PageFillPlan` and of its bindings. */
  predicate ValidPlan(p: FillPlan) {
    && |p.bindings| <= MAX_CONTROLS && |p.intents| <= MAX_CONTROLS && |p.unmatched| <= MAX_CONTROLS
    && UniqueIds(p.unmatched)
    && UniqueIds(BoundIds(p))
    && (forall i :: 0 <= i < |p.unmatched| ==> p.unmatched[i] !in BoundIds(p))
    && (forall i, j :: 0 <= i < j < |p.intents| ==> (p.intents[i].field, p.intents[i].term) != (p.intents[j].field, p.intents[j].term))
    && (forall i :: 0 <= i < |p.intents| ==>
          && (p.intents[i].field == SearchTerm <==> p.intents[i].term.Some?)
          && (p.intents[i].term.Some? ==> p.intents[i].term.value < MAX_TERMS))
  }

  ghost predicate DistinctControls(controls: seq<Control>) {
    forall i, j :: 0 <= i < j < |controls| ==> controls[i].id != controls[j].id
  }

  // ------------------------------------------------------------ what is where

  predicate InProfile(p: FillPlan, id: ControlId) {
    exists b :: b in p.bindings && b.control == id
  }

  predicate InIntent(p: FillPlan, id: ControlId) {
    exists b :: b in p.intents && b.control == id
  }

  /** How many of the three lists the control is in. */
  function Places(p: FillPlan, id: ControlId): nat {
    (if InProfile(p, id) then 1 else 0) + (if InIntent(p, id) then 1 else 0) + (if id in p.unmatched then 1 else 0)
  }

  ghost predicate Known(controls: seq<Control>, id: ControlId) {
    exists i :: 0 <= i < |controls| && controls[i].id == id
  }

  /** The plan lists known controls only, each at most once, and every required enabled one exactly once. */
  ghost predicate Covers(controls: seq<Control>, p: FillPlan) {
    && (forall id :: Places(p, id) <= 1)
    && (forall id :: Places(p, id) == 1 ==> Known(controls, id))
    && (forall i :: 0 <= i < |controls| ==>
          && (controls[i].disabled ==> Places(p, controls[i].id) == 0)
          && (controls[i].required && !controls[i].disabled ==> Places(p, controls[i].id) == 1))
  }

  /** No control is listed twice. */
  ghost predicate Separate(p: FillPlan) {
    && (forall i, j :: 0 <= i < j < |p.bindings| ==> p.bindings[i].control != p.bindings[j].control)
    && (forall i, j :: 0 <= i < j < |p.intents| ==> p.intents[i].control != p.intents[j].control)
    && UniqueIds(p.unmatched)
    && (forall b, i :: b in p.bindings && i in p.intents ==> b.control != i.control)
    && (forall b :: b in p.bindings ==> b.control !in p.unmatched)
    && (forall i :: i in p.intents ==> i.control !in p.unmatched)
  }

  /** An intent key is used up by the binding that has it. */
  ghost predicate KeysTracked(s: State, intent: Option<Intent>) {
    && (forall b :: b in s.intents ==>
          && (b.field == SearchTerm <==> b.term.Some?)
          && (if b.term.Some? then b.term.value in s.boundTerms && intent.Some? && b.term.value < intent.value.terms
              else b.field in s.boundFields))
    && (forall i, j :: 0 <= i < j < |s.intents| ==> (s.intents[i].field, s.intents[i].term) != (s.intents[j].field, s.intents[j].term))
  }

  ghost predicate OnlyKnown(controls: seq<Control>, p: FillPlan) {
    && (forall b :: b in p.bindings ==> Known(controls, b.control))
    && (forall b :: b in p.intents ==> Known(controls, b.control))
    && (forall id :: id in p.unmatched ==> Known(controls, id))
    && |p.bindings| + |p.intents| + |p.unmatched| <= |controls|
  }

  /** Whatever becomes of a control is recorded under its own id; a disabled one is ignored, a required one never. */
  lemma EffectIs(s: State, c: Control, people: seq<PersonId>, intent: Option<Intent>)
    ensures var e := EffectOf(s, c, people, intent);
            && (e.ToPerson? ==> e.b.control == c.id)
            && (e.ToIntent? ==> e.i.control == c.id)
            && (c.disabled ==> e == Ignored)
            && (c.required && !c.disabled ==> e != Ignored)
  {
  }

  lemma NewIdStaysSeparate(s: State, e: Effect, id: ControlId)
    requires Separate(PlanOf(s)) && Places(PlanOf(s), id) == 0
    requires e.ToPerson? ==> e.b.control == id
    requires e.ToIntent? ==> e.i.control == id
    ensures Separate(PlanOf(Apply(s, e, id)))
  {
  }

  lemma KeysStayTracked(s: State, c: Control, people: seq<PersonId>, intent: Option<Intent>)
    requires KeysTracked(s, intent)
    ensures KeysTracked(Map(s, c, people, intent), intent)
  {
    hide FirstProfile;
  }

  /** One more control is listed exactly where its effect says, and nowhere else. */
  lemma PlacesAfter(s: State, e: Effect, id: ControlId, other: ControlId)
    requires Places(PlanOf(s), id) == 0
    requires e.ToPerson? ==> e.b.control == id
    requires e.ToIntent? ==> e.i.control == id
    ensures Places(PlanOf(Apply(s, e, id)), other)
         == if other == id then (if e == Ignored then 0 else 1) else Places(PlanOf(s), other)
  {
    var p, q := PlanOf(s), PlanOf(Apply(s, e, id));
    match e
    case ToPerson(b) =>
      assert forall x :: x in q.bindings <==> x in p.bindings || x == b;
      assert InProfile(q, other) <==> InProfile(p, other) || other == id by {
        if other == id {
          assert b in q.bindings;
        }
      }
    case ToIntent(i) =>
      assert forall x :: x in q.intents <==> x in p.intents || x == i;
      assert InIntent(q, other) <==> InIntent(p, other) || other == id by {
        if other == id {
          assert i in q.intents;
        }
      }
    case LeftOver =>
    case Ignored =>
  }

  lemma UnknownHasNoPlace(controls: seq<Control>, p: FillPlan, id: ControlId)
    requires OnlyKnown(controls, p) && !Known(controls, id)
    ensures Places(p, id) == 0
  {
  }

  lemma OnlyKnownStays(controls: seq<Control>, c: Control, s: State, e: Effect)
    requires OnlyKnown(controls, PlanOf(s))
    requires e.ToPerson? ==> e.b.control == c.id
    requires e.ToIntent? ==> e.i.control == c.id
    ensures OnlyKnown(controls + [c], PlanOf(Apply(s, e, c.id)))
  {
    var longer := controls + [c];
    assert longer[|controls|].id == c.id;
    assert Known(longer, c.id);
    forall id | Known(controls, id)
      ensures Known(longer, id)
    {
      var i :| 0 <= i < |controls| && controls[i].id == id;
      assert longer[i].id == id;
    }
  }

  /** The loop's invariant. */
  ghost predicate MappedOk(controls: seq<Control>, s: State, intent: Option<Intent>) {
    OnlyKnown(controls, PlanOf(s)) && Separate(PlanOf(s)) && KeysTracked(s, intent) && Covers(controls, PlanOf(s))
  }

  lemma {:induction false} MapAllOk(controls: seq<Control>, people: seq<PersonId>, intent: Option<Intent>)
    requires DistinctControls(controls)
    ensures MappedOk(controls, MapAll(controls, people, intent), intent)
  {
    hide Map, OnlyKnown, Separate, KeysTracked, Covers, Known;
    if controls == [] {
      NothingMapped(people, intent);
    } else {
      var n := |controls| - 1;
      var earlier, c := controls[..n], controls[n];
      MapAllOk(earlier, people, intent);
      var s := MapAll(earlier, people, intent);
      assert controls == earlier + [c];
      NewControl(controls, n);
      UnknownHasNoPlace(earlier, PlanOf(s), c.id);
      MapOk(earlier, c, s, people, intent);
    }
  }

  lemma NothingMapped(people: seq<PersonId>, intent: Option<Intent>)
    ensures MappedOk([], MapAll([], people, intent), intent)
  {
  }

  lemma NewControl(controls: seq<Control>, n: nat)
    requires DistinctControls(controls) && n < |controls|
    ensures DistinctControls(controls[..n]) && !Known(controls[..n], controls[n].id)
  {
  }

  lemma MapOk(controls: seq<Control>, c: Control, s: State, people: seq<PersonId>, intent: Option<Intent>)
    requires MappedOk(controls, s, intent) && Places(PlanOf(s), c.id) == 0 && !Known(controls, c.id)
    ensures MappedOk(controls + [c], Map(s, c, people, intent), intent)
  {
    hide EffectOf, Apply, OnlyKnown, Separate, KeysTracked, Known, Places;
    var counted, e := Counted(s, c), EffectOf(s, c, people, intent);
    assert PlanOf(counted) == PlanOf(s);
    EffectIs(s, c, people, intent);
    OnlyKnownStays(controls, c, counted, e);
    NewIdStaysSeparate(counted, e, c.id);
    KeysStayTracked(s, c, people, intent);
    forall id
      ensures Places(PlanOf(Map(s, c, people, intent)), id)
           == if id == c.id then (if e == Ignored then 0 else 1) else Places(PlanOf(s), id)
    {
      PlacesAfter(counted, e, c.id, id);
    }
    CoversMore(controls, c, PlanOf(s), PlanOf(Map(s, c, people, intent)), e);
  }

  lemma CoversMore(controls: seq<Control>, c: Control, p: FillPlan, q: FillPlan, e: Effect)
    requires Covers(controls, p) && !Known(controls, c.id)
    requires c.disabled ==> e == Ignored
    requires c.required && !c.disabled ==> e != Ignored
    requires forall id :: Places(q, id) == if id == c.id then (if e == Ignored then 0 else 1) else Places(p, id)
    ensures Covers(controls + [c], q)
  {
    hide Places;
    var longer := controls + [c];
    forall id | Places(q, id) == 1
      ensures Known(longer, id)
    {
      if id == c.id {
        assert longer[|controls|].id == id;
      } else {
        var i :| 0 <= i < |controls| && controls[i].id == id;
        assert longer[i].id == id;
      }
    }
    forall i | 0 <= i < |longer|
      ensures longer[i].disabled ==> Places(q, longer[i].id) == 0
      ensures longer[i].required && !longer[i].disabled ==> Places(q, longer[i].id) == 1
    {
      assert i < |controls| ==> longer[i] == controls[i] && Known(controls, controls[i].id);
    }
  }

  /** The uniqueness checks of the plan say that its lists are separate; its other checks always hold. */
  lemma SeparateIsValid(controls: seq<Control>, s: State, intent: Option<Intent>)
    requires OnlyKnown(controls, PlanOf(s)) && KeysTracked(s, intent) && |controls| <= MAX_CONTROLS
    requires intent.Some? ==> intent.value.terms <= MAX_TERMS
    ensures ValidPlan(PlanOf(s)) <==> Separate(PlanOf(s))
  {
    hide Known;
    var p := PlanOf(s);
    BoundAre(p);
    if Separate(p) {
      SeparateIsUnique(p);
    }
    if ValidPlan(p) {
      UniqueIsSeparate(p);
    }
  }

  lemma BoundAre(p: FillPlan)
    ensures var ids, m := BoundIds(p), |p.bindings|;
            && |ids| == m + |p.intents|
            && (forall i :: 0 <= i < m ==> ids[i] == p.bindings[i].control)
            && (forall i :: m <= i < |ids| ==> ids[i] == p.intents[i - m].control)
  {
  }

  lemma SeparateIsUnique(p: FillPlan)
    requires Separate(p)
    ensures UniqueIds(BoundIds(p)) && forall i :: 0 <= i < |p.unmatched| ==> p.unmatched[i] !in BoundIds(p)
  {
    BoundAre(p);
    var ids, m := BoundIds(p), |p.bindings|;
    assert forall i :: 0 <= i < m ==> p.bindings[i] in p.bindings;
    assert forall i :: 0 <= i < |p.intents| ==> p.intents[i] in p.intents;
    forall i, j | 0 <= i < j < |ids|
      ensures ids[i] != ids[j]
    {
    }
    forall i | 0 <= i < |p.unmatched|
      ensures p.unmatched[i] !in ids
    {
      forall k | 0 <= k < |ids|
        ensures ids[k] != p.unmatched[i]
      {
        assert p.unmatched[i] in p.unmatched;
        assert k < m ==> p.bindings[k] in p.bindings;
      }
    }
  }

  lemma UniqueIsSeparate(p: FillPlan)
    requires UniqueIds(p.unmatched) && UniqueIds(BoundIds(p))
    requires forall i :: 0 <= i < |p.unmatched| ==> p.unmatched[i] !in BoundIds(p)
    ensures Separate(p)
  {
    BoundAre(p);
    var ids, m := BoundIds(p), |p.bindings|;
    forall i, j | 0 <= i < j < |p.bindings|
      ensures p.bindings[i].control != p.bindings[j].control
    {
      assert ids[i] != ids[j];
    }
    forall i, j | 0 <= i < j < |p.intents|
      ensures p.intents[i].control != p.intents[j].control
    {
      assert ids[m + i] != ids[m + j];
    }
    forall b, t | b in p.bindings && t in p.intents
      ensures b.control != t.control
    {
      var i :| 0 <= i < m && p.bindings[i] == b;
      var j :| 0 <= j < |p.intents| && p.intents[j] == t;
      assert ids[i] != ids[m + j];
    }
    forall b | b in p.bindings
      ensures b.control !in p.unmatched
    {
      var i :| 0 <= i < m && p.bindings[i] == b;
      assert ids[i] in ids;
    }
    forall t | t in p.intents
      ensures t.control !in p.unmatched
    {
      var j :| 0 <= j < |p.intents| && p.intents[j] == t;
      assert ids[m + j] in ids;
    }
  }

  // ------------------------------------------------------ controls that share an id

  /** What becomes of the control at a position. */
  function EffectAt(controls: seq<Control>, people: seq<PersonId>, intent: Option<Intent>, i: nat): Effect
    requires i < |controls|
  {
    EffectOf(MapAll(controls[..i], people, intent), controls[i], people, intent)
  }

  /** No two controls that the loop puts in a list share an id. */
  ghost predicate PlacedOnce(controls: seq<Control>, people: seq<PersonId>, intent: Option<Intent>) {
    forall i, j :: 0 <= i < j < |controls| && controls[i].id == controls[j].id ==>
      EffectAt(controls, people, intent, i) == Ignored || EffectAt(controls, people, intent, j) == Ignored
  }

  predicate Placed(p: FillPlan, id: ControlId) {
    InProfile(p, id) || InIntent(p, id) || id in p.unmatched
  }

  /** A listed control stays listed, and only the new one can join. */
  lemma PlacedAfter(s: State, e: Effect, id: ControlId, other: ControlId)
    requires e.ToPerson? ==> e.b.control == id
    requires e.ToIntent? ==> e.i.control == id
    ensures Placed(PlanOf(Apply(s, e, id)), other) <==> Placed(PlanOf(s), other) || (other == id && e != Ignored)
  {
    var p, q := PlanOf(s), PlanOf(Apply(s, e, id));
    match e
    case ToPerson(b) =>
      assert forall x :: x in q.bindings <==> x in p.bindings || x == b;
      assert b in q.bindings;
    case ToIntent(i) =>
      assert forall x :: x in q.intents <==> x in p.intents || x == i;
      assert i in q.intents;
    case LeftOver =>
    case Ignored =>
  }

  /** The lists are separate after one more control exactly when they were and the control is not listed again. */
  lemma SeparateAfter(s: State, e: Effect, id: ControlId)
    requires e.ToPerson? ==> e.b.control == id
    requires e.ToIntent? ==> e.i.control == id
    ensures Separate(PlanOf(Apply(s, e, id))) <==> Separate(PlanOf(s)) && (e == Ignored || !Placed(PlanOf(s), id))
  {
    if Separate(PlanOf(s)) && !Placed(PlanOf(s), id) {
      NewIdStaysSeparate(s, e, id);
    }
    if Separate(PlanOf(Apply(s, e, id))) {
      SeparateBefore(s, e, id);
    }
  }

  lemma SeparateBefore(s: State, e: Effect, id: ControlId)
    requires e.ToPerson? ==> e.b.control == id
    requires e.ToIntent? ==> e.i.control == id
    requires Separate(PlanOf(Apply(s, e, id)))
    ensures Separate(PlanOf(s)) && (e == Ignored || !Placed(PlanOf(s), id))
  {
    var p, q := PlanOf(s), PlanOf(Apply(s, e, id));
    match e
    case ToPerson(b) =>
      assert q.bindings[..|p.bindings|] == p.bindings && q.bindings[|p.bindings|] == b;
      assert b in q.bindings && forall x :: x in p.bindings ==> x in q.bindings;
      assert forall k :: 0 <= k < |p.bindings| ==> q.bindings[k] == p.bindings[k] && p.bindings[k].control != id;
    case ToIntent(i) =>
      assert q.intents[..|p.intents|] == p.intents && q.intents[|p.intents|] == i;
      assert i in q.intents && forall x :: x in p.intents ==> x in q.intents;
      assert forall k :: 0 <= k < |p.intents| ==> q.intents[k] == p.intents[k] && p.intents[k].control != id;
    case LeftOver =>
      assert q.unmatched[|p.unmatched|] == id && forall k :: 0 <= k < |p.unmatched| ==> q.unmatched[k] == p.unmatched[k];
      assert id in q.unmatched && forall x :: x in p.unmatched ==> x in q.unmatched;
    case Ignored =>
  }

  /** What is in the lists is what some control put there. */
  lemma {:induction false} PlacedIffListed(controls: seq<Control>, people: seq<PersonId>, intent: Option<Intent>, id: ControlId)
    ensures Placed(PlanOf(MapAll(controls, people, intent)), id) <==>
            exists i :: 0 <= i < |controls| && controls[i].id == id && EffectAt(controls, people, intent, i) != Ignored
  {
    hide EffectOf, Apply, Placed;
    if controls == [] {
      NothingPlaced(people, intent, id);
    } else {
      var n := |controls| - 1;
      var earlier, c := controls[..n], controls[n];
      PlacedIffListed(earlier, people, intent, id);
      var s := MapAll(earlier, people, intent);
      EffectIs(s, c, people, intent);
      PlacedAfter(Counted(s, c), EffectOf(s, c, people, intent), c.id, id);
      assert PlanOf(Counted(s, c)) == PlanOf(s);
      EffectsSame(controls, people, intent, n);
      assert EffectAt(controls, people, intent, n) == EffectOf(s, c, people, intent);
    }
  }

  lemma NothingPlaced(people: seq<PersonId>, intent: Option<Intent>, id: ControlId)
    ensures !Placed(PlanOf(MapAll([], people, intent)), id)
  {
  }

  lemma EffectsSame(controls: seq<Control>, people: seq<PersonId>, intent: Option<Intent>, n: nat)
    requires n <= |controls|
    ensures forall i :: 0 <= i < n ==> EffectAt(controls[..n], people, intent, i) == EffectAt(controls, people, intent, i)
  {
    hide EffectOf, MapAll;
    forall i | 0 <= i < n
      ensures EffectAt(controls[..n], people, intent, i) == EffectAt(controls, people, intent, i)
    {
      assert controls[..n][..i] == controls[..i];
    }
  }

  lemma {:induction false} SeparateIffPlacedOnce(controls: seq<Control>, people: seq<PersonId>, intent: Option<Intent>)
    ensures Separate(PlanOf(MapAll(controls, people, intent))) <==> PlacedOnce(controls, people, intent)
  {
    hide EffectOf, Apply, Placed, Separate, EffectAt;
    if controls == [] {
      NothingSeparate(people, intent);
    } else {
      var n := |controls| - 1;
      var earlier, c := controls[..n], controls[n];
      SeparateIffPlacedOnce(earlier, people, intent);
      PlacedIffListed(earlier, people, intent, c.id);
      var s := MapAll(earlier, people, intent);
      EffectIs(s, c, people, intent);
      SeparateAfter(Counted(s, c), EffectOf(s, c, people, intent), c.id);
      assert PlanOf(Counted(s, c)) == PlanOf(s);
      EffectsSame(controls, people, intent, n);
      EffectAtEnd(controls, people, intent);
    }
  }

  lemma EffectAtEnd(controls: seq<Control>, people: seq<PersonId>, intent: Option<Intent>)
    requires controls != []
    ensures var n := |controls| - 1;
            EffectAt(controls, people, intent, n) == EffectOf(MapAll(controls[..n], people, intent), controls[n], people, intent)
  {
  }

  lemma NothingSeparate(people: seq<PersonId>, intent: Option<Intent>)
    ensures Separate(PlanOf(MapAll([], people, intent)))
  {
  }

  /** What holds of the lists whatever the ids are. */
  lemma {:induction false} MapAllTracks(controls: seq<Control>, people: seq<PersonId>, intent: Option<Intent>)
    ensures OnlyKnown(controls, PlanOf(MapAll(controls, people, intent))) && KeysTracked(MapAll(controls, people, intent), intent)
  {
    hide EffectOf, Apply, OnlyKnown, KeysTracked;
    if controls == [] {
      NothingTracked(people, intent);
    } else {
      var n := |controls| - 1;
      var earlier, c := controls[..n], controls[n];
      MapAllTracks(earlier, people, intent);
      var s := MapAll(earlier, people, intent);
      EffectIs(s, c, people, intent);
      KeysStayTracked(s, c, people, intent);
      assert PlanOf(Counted(s, c)) == PlanOf(s);
      OnlyKnownStays(earlier, c, Counted(s, c), EffectOf(s, c, people, intent));
      assert controls == earlier + [c];
    }
  }

  lemma NothingTracked(people: seq<PersonId>, intent: Option<Intent>)
    ensures OnlyKnown([], PlanOf(MapAll([], people, intent))) && KeysTracked(MapAll([], people, intent), intent)
  {
  }

  // ------------------------------------------------------------- the k-th person

  /** How many controls are detected for a profile field. */
  function Detected(controls: seq<Control>, field: ProfileField): nat {
    if controls == [] then 0
    else
      Detected(controls[..|controls| - 1], field) + (if DetectProfile(controls[|controls| - 1]) == Some(field) then 1 else 0)
  }

  /** Control `i` is the k-th one of its field, and the k-th person gets it. */
  ghost predicate IsBinding(controls: seq<Control>, people: seq<PersonId>, i: nat, b: ProfileBinding)
    requires i < |controls|
  {
    && DetectProfile(controls[i]) == Some(b.field)
    && Detected(controls[..i], b.field) < |people|
    && b.control == controls[i].id
    && b.person == people[Detected(controls[..i], b.field)]
    && (b.sensitive <==> b.field == DocumentNumber)
  }

  lemma {:induction false} OccurrencesCount(controls: seq<Control>, people: seq<PersonId>, intent: Option<Intent>, field: ProfileField)
    ensures Seen(MapAll(controls, people, intent).occurrences, field) == Detected(controls, field)
  {
    hide DetectProfile, DetectIntent;
    if controls != [] {
      OccurrencesCount(controls[..|controls| - 1], people, intent, field);
    }
  }

  /** The bindings are exactly: the k-th control detected for a field goes to the k-th person, as far as people go. */
  lemma {:induction false} KthControlToKthPerson(controls: seq<Control>, people: seq<PersonId>, intent: Option<Intent>, b: ProfileBinding)
    ensures b in MapAll(controls, people, intent).bindings <==>
            exists i :: 0 <= i < |controls| && IsBinding(controls, people, i, b)
  {
    hide DetectProfile, DetectIntent, IsBinding;
    if controls != [] {
      var n := |controls| - 1;
      var earlier := controls[..n];
      KthControlToKthPerson(earlier, people, intent, b);
      forall i | 0 <= i < n
        ensures IsBinding(controls, people, i, b) <==> IsBinding(earlier, people, i, b)
      {
        SameBinding(controls, people, n, i, b);
      }
      LastBinding(controls, people, intent, b);
    }
  }

  lemma SameBinding(controls: seq<Control>, people: seq<PersonId>, n: nat, i: nat, b: ProfileBinding)
    requires i < n <= |controls|
    ensures IsBinding(controls, people, i, b) <==> IsBinding(controls[..n], people, i, b)
  {
    assert controls[..n][..i] == controls[..i];
  }

  lemma OneBinding(s: State, control: Control, people: seq<PersonId>, intent: Option<Intent>, b: ProfileBinding)
    ensures b in Map(s, control, people, intent).bindings <==>
            || b in s.bindings
            || (&& DetectProfile(control) == Some(b.field)
                && Seen(s.occurrences, b.field) < |people|
                && b == ProfileBinding(control.id, b.field, people[Seen(s.occurrences, b.field)], b.field == DocumentNumber))
  {
    hide DetectProfile, DetectIntent, Seen;
  }

  lemma LastBinding(controls: seq<Control>, people: seq<PersonId>, intent: Option<Intent>, b: ProfileBinding)
    requires controls != []
    ensures var n := |controls| - 1;
            b in MapAll(controls, people, intent).bindings <==>
            b in MapAll(controls[..n], people, intent).bindings || IsBinding(controls, people, n, b)
  {
    hide DetectProfile, DetectIntent, Map, Seen, Detected;
    var n := |controls| - 1;
    OneBinding(MapAll(controls[..n], people, intent), controls[n], people, intent, b);
    OccurrencesCount(controls[..n], people, intent, b.field);
  }

  // --------------------------------------------- which controls end up in a list

  /** The control is detected for a field for which fewer controls than people were detected before it. */
  predicate GoesToPerson(controls: seq<Control>, people: seq<PersonId>, i: nat)
    requires i < |controls|
  {
    DetectProfile(controls[i]).Some? && Detected(controls[..i], DetectProfile(controls[i]).value) < |people|
  }

  datatype Taken = Taken(fields: set<IntentField>, terms: set<nat>)

  /** What the first `n` controls take of the intent: each that goes to nobody its first free field, or else term. */
  function TakenBefore(controls: seq<Control>, people: seq<PersonId>, intent: Option<Intent>, n: nat): Taken
    requires n <= |controls|
  {
    if n == 0 then Taken({}, {})
    else
      var earlier := TakenBefore(controls, people, intent, n - 1);
      if GoesToPerson(controls, people, n - 1) then earlier
      else
        match DetectIntent(intent, controls[n - 1], earlier.fields, earlier.terms)
        case None => earlier
        case Some(b) =>
          if b.term.Some? then Taken(earlier.fields, earlier.terms + {b.term.value})
          else Taken(earlier.fields + {b.field}, earlier.terms)
  }

  /** It goes to a person, finds something free in the intent, or has to be filled in by hand. */
  predicate Listed(controls: seq<Control>, people: seq<PersonId>, intent: Option<Intent>, i: nat)
    requires i < |controls|
  {
    var taken := TakenBefore(controls, people, intent, i);
    || GoesToPerson(controls, people, i)
    || DetectIntent(intent, controls[i], taken.fields, taken.terms).Some?
    || (controls[i].required && !controls[i].disabled)
  }

  ghost predicate ListedOnce(controls: seq<Control>, people: seq<PersonId>, intent: Option<Intent>) {
    forall i, j :: 0 <= i < j < |controls| && controls[i].id == controls[j].id ==>
      !Listed(controls, people, intent, i) || !Listed(controls, people, intent, j)
  }

  lemma {:induction false} TakenIs(controls: seq<Control>, people: seq<PersonId>, intent: Option<Intent>, n: nat)
    requires n <= |controls|
    ensures var s, taken := MapAll(controls[..n], people, intent), TakenBefore(controls, people, intent, n);
            s.boundFields == taken.fields && s.boundTerms == taken.terms
  {
    hide DetectProfile, DetectIntent, Seen, Detected;
    if n > 0 {
      var s := MapAll(controls[..n - 1], people, intent);
      TakenIs(controls, people, intent, n - 1);
      assert controls[..n][..n - 1] == controls[..n - 1];
      if DetectProfile(controls[n - 1]).Some? {
        OccurrencesCount(controls[..n - 1], people, intent, DetectProfile(controls[n - 1]).value);
      }
    }
  }

  lemma ListedIs(controls: seq<Control>, people: seq<PersonId>, intent: Option<Intent>, i: nat)
    requires i < |controls|
    ensures Listed(controls, people, intent, i) <==> EffectAt(controls, people, intent, i) != Ignored
  {
    hide DetectProfile, DetectIntent, Seen, Detected, MapAll, TakenBefore;
    TakenIs(controls, people, intent, i);
    if DetectProfile(controls[i]).Some? {
      OccurrencesCount(controls[..i], people, intent, DetectProfile(controls[i]).value);
    }
  }

  lemma OnceIs(controls: seq<Control>, people: seq<PersonId>, intent: Option<Intent>)
    ensures ListedOnce(controls, people, intent) <==> PlacedOnce(controls, people, intent)
  {
    hide Listed, EffectAt;
    forall i | 0 <= i < |controls|
      ensures Listed(controls, people, intent, i) <==> EffectAt(controls, people, intent, i) != Ignored
    {
      ListedIs(controls, people, intent, i);
    }
  }

  // ------------------------------------------------------------- main results

  /**
   For any snapshot the page model accepts whose control ids differ: the plan passes every one of its own checks;
   every required enabled control is in exactly one of the three lists and no control is in two; disabled controls
   are in none.
   */
  lemma PlanIsValidAndComplete(controls: seq<Control>, people: seq<PersonId>, intent: Option<Intent>)
    requires DistinctControls(controls) && |controls| <= MAX_CONTROLS
    requires intent.Some? ==> intent.value.terms <= MAX_TERMS
    ensures ValidPlan(PlanOf(MapAll(controls, people, intent)))
    ensures Covers(controls, PlanOf(MapAll(controls, people, intent)))
  {
    hide OnlyKnown, Separate, KeysTracked, Covers;
    MapAllOk(controls, people, intent);
    SeparateIsValid(controls, MapAll(controls, people, intent), intent);
  }

  /**
   The snapshot model does not ask for different ids.  For any snapshot it accepts, the plan passes its own checks exactly
   when no two of the controls that go to a person, take something of the intent or have to be filled in share an id.
   */
  lemma ValidExactly(controls: seq<Control>, people: seq<PersonId>, intent: Option<Intent>)
    requires |controls| <= MAX_CONTROLS && (intent.Some? ==> intent.value.terms <= MAX_TERMS)
    ensures ValidPlan(PlanOf(MapAll(controls, people, intent))) <==> ListedOnce(controls, people, intent)
  {
    hide OnlyKnown, Separate, KeysTracked, PlacedOnce, ListedOnce, ValidPlan;
    OnceIs(controls, people, intent);
    MapAllTracks(controls, people, intent);
    SeparateIsValid(controls, MapAll(controls, people, intent), intent);
    SeparateIffPlacedOnce(controls, people, intent);
  }

  /** So two required enabled controls that share an id always make the mapper fail. */
  lemma SharedIdIsRefused(controls: seq<Control>, people: seq<PersonId>, intent: Option<Intent>, i: nat, j: nat)
    requires |controls| <= MAX_CONTROLS && (intent.Some? ==> intent.value.terms <= MAX_TERMS)
    requires i < j < |controls| && controls[i].id == controls[j].id
    requires controls[i].required && !controls[i].disabled && controls[j].required && !controls[j].disabled
    ensures !ValidPlan(PlanOf(MapAll(controls, people, intent)))
  {
    hide ValidPlan;
    ValidExactly(controls, people, intent);
    assert Listed(controls, people, intent, i) && Listed(controls, people, intent, j);
  }

  /** One such snapshot: two required fields for the first name with one id. */
  lemma SharedIdExample()
    ensures var c := Control(1, Text, true, false, {FirstName}, {}, {});
            !ValidPlan(PlanOf(MapAll([c, c], [5, 6], None)))
  {
    SharedIdIsRefused([Control(1, Text, true, false, {FirstName}, {}, {}), Control(1, Text, true, false, {FirstName}, {}, {})], [5, 6], None, 0, 1);
  }
}
