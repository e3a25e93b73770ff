/**
 Which field of which person, and which part of the intent, a control is bound to, told by the control itself and by
 what its page lists before it (app/services/page_field_mapper.py).
 */
module PageFillFields {
  import opened Wrappers
  import opened PageFill

  // ------------------------------------------------------------- profile fields

  /** The first of the four profile fields whose words a control that can be filled in contains. */
  predicate FirstMatch(c: Control, f: ProfileField) {
    && !c.disabled && c.kind !in {Button, Link, Checkbox, Radio, Select}
    && f in c.profileMatches
    && match f {
         case FirstName => true
         case LastName => FirstName !in c.profileMatches
         case BirthDate => FirstName !in c.profileMatches && LastName !in c.profileMatches
         case DocumentNumber => FirstName !in c.profileMatches && LastName !in c.profileMatches && BirthDate !in c.profileMatches
       }
  }

  /** How many of the controls have this first match. */
  function Matches(controls: seq<Control>, f: ProfileField): nat {
    if controls == [] then 0
    else Matches(controls[..|controls| - 1], f) + (if FirstMatch(controls[|controls| - 1], f) then 1 else 0)
  }

  lemma {:induction false} FirstProfileIs(order: seq<ProfileField>, matches: set<ProfileField>) returns (i: nat)
    ensures match FirstProfile(order, matches) {
              case None => forall k :: 0 <= k < |order| ==> order[k] !in matches
              case Some(f) => i < |order| && order[i] == f && f in matches && forall k :: 0 <= k < i ==> order[k] !in matches
            }
  {
    i := 0;
    if order != [] && order[0] !in matches {
      i := FirstProfileIs(order[1..], matches);
      assert forall k :: 0 <= k < |order| - 1 ==> order[1..][k] == order[k + 1];
      assert forall k :: 0 < k < |order| ==> order[k] == order[1..][k - 1];
      i := i + 1;
    }
  }

  lemma DetectsFirstMatch(c: Control, f: ProfileField)
    ensures DetectProfile(c) == Some(f) <==> FirstMatch(c, f)
  {
    hide FirstProfile;
    var i := FirstProfileIs(PROFILE_ORDER, c.profileMatches);
    assert PROFILE_ORDER[0] == FirstName && PROFILE_ORDER[1] == LastName;
    assert PROFILE_ORDER[2] == BirthDate && PROFILE_ORDER[3] == DocumentNumber;
  }

  lemma {:induction false} DetectedMatches(controls: seq<Control>, f: ProfileField)
    ensures Detected(controls, f) == Matches(controls, f)
  {
    hide DetectProfile, FirstMatch;
    if controls != [] {
      DetectedMatches(controls[..|controls| - 1], f);
      DetectsFirstMatch(controls[|controls| - 1], f);
    }
  }

  /**
   The plan binds a control to a field of a person exactly where the field is the control's first match and the person's
   place among the people is the number of earlier controls with this first match; document numbers alone are sensitive.
   */
  lemma BindingsExactly(controls: seq<Control>, people: seq<PersonId>, intent: Option<Intent>, b: ProfileBinding)
    ensures b in PlanOf(MapAll(controls, people, intent)).bindings <==>
            exists i :: 0 <= i < |controls| && BindsTo(controls, people, i, b)
  {
    hide DetectProfile, FirstMatch, IsBinding, BindsTo;
    KthControlToKthPerson(controls, people, intent, b);
    forall i | 0 <= i < |controls|
      ensures IsBinding(controls, people, i, b) <==> BindsTo(controls, people, i, b)
    {
      BindsIs(controls, people, i, b);
    }
  }

  ghost predicate BindsTo(controls: seq<Control>, people: seq<PersonId>, i: nat, b: ProfileBinding)
    requires i < |controls|
  {
    && FirstMatch(controls[i], b.field)
    && Matches(controls[..i], b.field) < |people|
    && b == ProfileBinding(controls[i].id, b.field, people[Matches(controls[..i], b.field)], b.field == DocumentNumber)
  }

  lemma BindsIs(controls: seq<Control>, people: seq<PersonId>, i: nat, b: ProfileBinding)
    requires i < |controls|
    ensures IsBinding(controls, people, i, b) <==> BindsTo(controls, people, i, b)
  {
    hide DetectProfile, FirstMatch, Detected, Matches;
    DetectsFirstMatch(controls[i], b.field);
    DetectedMatches(controls[..i], b.field);
  }

  // ------------------------------------------------------------------ the intent

  /** The field is asked for, the control contains its words, and no intent binding so far has it. */
  ghost predicate FreeField(c: Control, intent: Option<Intent>, bound: seq<IntentBinding>, f: IntentField) {
    && intent.Some? && f in intent.value.available && f in c.intentMatches && f != SearchTerm
    && forall t :: t in bound && t.term.None? ==> t.field != f
  }

  ghost predicate FreeTerm(c: Control, intent: Option<Intent>, bound: seq<IntentBinding>, k: nat) {
    && intent.Some? && k < intent.value.terms && k in c.termMatches
    && forall t :: t in bound && t.term.Some? ==> t.term.value != k
  }

  /** The place of an intent field among the others. */
  function Place(f: IntentField): nat {
    match f
    case Origin => 0
    case Destination => 1
    case RequestedDate => 2
    case EarliestTime => 3
    case LatestTime => 4
    case RequestedQuantity => 5
    case SearchTerm => 6
  }

  /** What an enabled control that is no button or link takes: its first free field, or else its first free term. */
  ghost predicate Takes(c: Control, intent: Option<Intent>, bound: seq<IntentBinding>, t: IntentBinding) {
    && intent.Some? && !c.disabled && c.kind !in {Button, Link} && t.control == c.id
    && match t.term {
         case None => FreeField(c, intent, bound, t.field) && forall f :: FreeField(c, intent, bound, f) ==> Place(t.field) <= Place(f)
         case Some(k) =>
           && t.field == SearchTerm && FreeTerm(c, intent, bound, k) && (forall f :: !FreeField(c, intent, bound, f))
           && forall other :: FreeTerm(c, intent, bound, other) ==> k <= other
       }
  }

  ghost predicate FieldsTracked(s: State) {
    && (forall f :: f in s.boundFields <==> exists t :: t in s.intents && t.term.None? && t.field == f)
    && (forall k :: k in s.boundTerms <==> exists t :: t in s.intents && t.term.Some? && t.term.value == k)
  }

  lemma {:induction false} FieldsAreTracked(controls: seq<Control>, people: seq<PersonId>, intent: Option<Intent>)
    ensures FieldsTracked(MapAll(controls, people, intent))
  {
    hide DetectProfile, DetectIntent, FieldsTracked;
    if controls == [] {
      NothingTracked(people, intent);
    } else {
      var n := |controls| - 1;
      FieldsAreTracked(controls[..n], people, intent);
      TrackedMore(MapAll(controls[..n], people, intent), controls[n], people, intent);
    }
  }

  lemma NothingTracked(people: seq<PersonId>, intent: Option<Intent>)
    ensures FieldsTracked(MapAll([], people, intent))
  {
  }

  lemma TrackedMore(s: State, c: Control, people: seq<PersonId>, intent: Option<Intent>)
    requires FieldsTracked(s)
    ensures FieldsTracked(Map(s, c, people, intent))
  {
    hide DetectProfile, DetectIntent;
    var r := Map(s, c, people, intent);
    match EffectOf(s, c, people, intent)
    case ToIntent(i) =>
      assert forall t :: t in r.intents <==> t in s.intents || t == i;
    case _ =>
  }

  lemma {:induction false} FirstTermIs(index: nat, terms: nat, bound: set<nat>, matches: set<nat>)
    ensures match FirstTerm(index, terms, bound, matches) {
              case None => forall k :: index <= k < terms ==> k in bound || k !in matches
              case Some(k) => index <= k < terms && k !in bound && k in matches
                              && forall other :: index <= other < k ==> other in bound || other !in matches
            }
    decreases terms - index
  {
    if index < terms && !(index !in bound && index in matches) {
      FirstTermIs(index + 1, terms, bound, matches);
    }
  }

  lemma {:induction false} FirstIntentAt(order: seq<IntentField>, wanted: set<IntentField>) returns (i: nat)
    ensures match FirstIntent(order, wanted) {
              case None => forall k :: 0 <= k < |order| ==> order[k] !in wanted
              case Some(f) => i < |order| && order[i] == f && f in wanted && forall k :: 0 <= k < i ==> order[k] !in wanted
            }
  {
    i := 0;
    if order != [] && order[0] !in wanted {
      i := FirstIntentAt(order[1..], wanted);
      assert forall k :: 0 < k < |order| ==> order[k] == order[1..][k - 1];
      i := i + 1;
    }
  }

  lemma FirstIntentIs(wanted: set<IntentField>)
    ensures match FirstIntent(INTENT_ORDER, wanted) {
              case None => forall f :: f in wanted ==> f == SearchTerm
              case Some(f) => f in wanted && f != SearchTerm && forall other :: other in wanted ==> Place(f) <= Place(other)
            }
  {
    hide FirstIntent;
    var i := FirstIntentAt(INTENT_ORDER, wanted);
    var o := INTENT_ORDER;
    forall other | other in wanted && other != SearchTerm
      ensures o[Place(other)] == other
    {
    }
    forall k | 0 <= k < 6
      ensures Place(o[k]) == k && o[k] != SearchTerm
    {
    }
  }

  lemma DetectsWhatItTakes(s: State, c: Control, intent: Option<Intent>, t: IntentBinding)
    requires FieldsTracked(s)
    ensures DetectIntent(intent, c, s.boundFields, s.boundTerms) == Some(t) <==> Takes(c, intent, s.intents, t)
  {
    if intent.Some? && !c.disabled && c.kind !in {Button, Link} {
      var wanted := (c.intentMatches * intent.value.available) - s.boundFields;
      FieldsAre(s, c, intent, wanted);
      FirstIntentIs(wanted);
      FirstTermIs(0, intent.value.terms, s.boundTerms, c.termMatches);
      TermsAre(s, c, intent);
      TakesIs(s, c, intent, wanted, t);
    }
  }

  lemma FieldsAre(s: State, c: Control, intent: Option<Intent>, wanted: set<IntentField>)
    requires FieldsTracked(s) && intent.Some? && wanted == (c.intentMatches * intent.value.available) - s.boundFields
    ensures forall f :: FreeField(c, intent, s.intents, f) <==> f in wanted && f != SearchTerm
  {
  }

  lemma TermsAre(s: State, c: Control, intent: Option<Intent>)
    requires FieldsTracked(s) && intent.Some?
    ensures forall k: nat :: FreeTerm(c, intent, s.intents, k) <==> k < intent.value.terms && k in c.termMatches && k !in s.boundTerms
  {
  }

  lemma TakesIs(s: State, c: Control, intent: Option<Intent>, wanted: set<IntentField>, t: IntentBinding)
    requires intent.Some? && !c.disabled && c.kind !in {Button, Link}
    requires wanted == (c.intentMatches * intent.value.available) - s.boundFields
    requires forall f :: FreeField(c, intent, s.intents, f) <==> f in wanted && f != SearchTerm
    requires forall k: nat :: FreeTerm(c, intent, s.intents, k) <==> k < intent.value.terms && k in c.termMatches && k !in s.boundTerms
    requires match FirstIntent(INTENT_ORDER, wanted) {
               case None => forall f :: f in wanted ==> f == SearchTerm
               case Some(f) => f in wanted && f != SearchTerm && forall other :: other in wanted ==> Place(f) <= Place(other)
             }
    requires match FirstTerm(0, intent.value.terms, s.boundTerms, c.termMatches) {
               case None => forall k :: 0 <= k < intent.value.terms ==> k in s.boundTerms || k !in c.termMatches
               case Some(k) => 0 <= k < intent.value.terms && k !in s.boundTerms && k in c.termMatches
                               && forall other :: 0 <= other < k ==> other in s.boundTerms || other !in c.termMatches
             }
    ensures DetectIntent(intent, c, s.boundFields, s.boundTerms) == Some(t) <==> Takes(c, intent, s.intents, t)
  {
    hide FreeField, FreeTerm, FirstIntent, FirstTerm;
    match FirstIntent(INTENT_ORDER, wanted)
    case Some(f) =>
      assert FreeField(c, intent, s.intents, f);
      if Takes(c, intent, s.intents, t) {
        assert t.term.None? && Place(t.field) <= Place(f);
      }
    case None =>
      match FirstTerm(0, intent.value.terms, s.boundTerms, c.termMatches) {
        case Some(k) =>
          assert FreeTerm(c, intent, s.intents, k);
        case None =>
      }
  }

  /**
   What one more control adds to the plan.  It goes to a person if its first match still has one; or else it takes what it
   can of the intent; or else it is left to fill in by hand if it is required and enabled.
   */
  lemma OneMoreControl(controls: seq<Control>, c: Control, people: seq<PersonId>, intent: Option<Intent>)
    ensures var before, after := PlanOf(MapAll(controls, people, intent)), PlanOf(MapAll(controls + [c], people, intent));
            var person := exists f :: FirstMatch(c, f) && Matches(controls, f) < |people|;
            && (after.intents == before.intents <==> person || forall t :: !Takes(c, intent, before.intents, t))
            && (after.intents != before.intents ==>
                  exists t :: Takes(c, intent, before.intents, t) && after.intents == before.intents + [t])
            && after.unmatched ==
               (if !person && (forall t :: !Takes(c, intent, before.intents, t)) && c.required && !c.disabled
                then before.unmatched + [c.id] else before.unmatched)
  {
    hide DetectProfile, DetectIntent, FirstMatch, Takes, FieldsTracked, Detected, Matches, MapAll;
    var s := MapAll(controls, people, intent);
    FieldsAreTracked(controls, people, intent);
    LastMapped(controls, c, people, intent);
    var person := exists f :: FirstMatch(c, f) && Matches(controls, f) < |people|;
    forall f
      ensures DetectProfile(c) == Some(f) <==> FirstMatch(c, f)
      ensures Seen(s.occurrences, f) == Matches(controls, f)
    {
      DetectsFirstMatch(c, f);
      OccurrencesCount(controls, people, intent, f);
      DetectedMatches(controls, f);
    }
    forall t
      ensures DetectIntent(intent, c, s.boundFields, s.boundTerms) == Some(t) <==> Takes(c, intent, s.intents, t)
    {
      DetectsWhatItTakes(s, c, intent, t);
    }
    OneMoreMapped(s, c, people, intent, person);
  }

  lemma LastMapped(controls: seq<Control>, c: Control, people: seq<PersonId>, intent: Option<Intent>)
    ensures MapAll(controls + [c], people, intent) == Map(MapAll(controls, people, intent), c, people, intent)
  {
    assert (controls + [c])[..|controls|] == controls;
  }

  lemma OneMoreMapped(s: State, c: Control, people: seq<PersonId>, intent: Option<Intent>, person: bool)
    requires person <==> DetectProfile(c).Some? && Seen(s.occurrences, DetectProfile(c).value) < |people|
    requires forall t :: DetectIntent(intent, c, s.boundFields, s.boundTerms) == Some(t) <==> Takes(c, intent, s.intents, t)
    ensures var after := Map(s, c, people, intent);
            && (after.intents == s.intents <==> person || forall t :: !Takes(c, intent, s.intents, t))
            && (after.intents != s.intents ==> exists t :: Takes(c, intent, s.intents, t) && after.intents == s.intents + [t])
            && after.unmatched ==
               (if !person && (forall t :: !Takes(c, intent, s.intents, t)) && c.required && !c.disabled
                then s.unmatched + [c.id] else s.unmatched)
  {
    hide DetectProfile, DetectIntent, Takes, Seen;
    var found := DetectIntent(intent, c, s.boundFields, s.boundTerms);
    if found.Some? {
      assert Takes(c, intent, s.intents, found.value);
      assert |s.intents + [found.value]| == |s.intents| + 1;
    } else {
      assert forall t :: !Takes(c, intent, s.intents, t);
    }
  }
}
