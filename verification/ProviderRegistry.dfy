/**
 The registry of provider adapters and the resolver over it (app/adapters/registry.py, app/adapters/base.py:32-52,
 app/services/provider_resolver.py).  The registry never changes, there is one mission type, and providers are named by
 whatever identifies them.
 */
module ProviderRegistry {
  import opened Wrappers
  import opened MissionDomain

  /** A declared capability for the mission type. */
  datatype Capability = Capability(supportsAutoPurchase: bool)

  datatype Adapter<Id> = Adapter(id: Id, capabilities: set<Capability>)

  predicate Supports<Id>(a: Adapter<Id>) {
    a.capabilities != {}
  }

  predicate SupportsMode<Id>(a: Adapter<Id>, mode: Mode) {
    if mode != AutoPurchase then a.capabilities != {} else Capability(true) in a.capabilities
  }

  function Find<Id(==)>(registry: seq<Adapter<Id>>, id: Id): (r: Option<Adapter<Id>>)
    ensures r.Some? ==> r.value in registry && r.value.id == id
  {
    if registry == [] then None
    else if registry[0].id == id then Some(registry[0])
    else Find(registry[1..], id)
  }

  /** The adapters that support the mission type, and the mode if one is given, in their order. */
  function Supporting<Id>(registry: seq<Adapter<Id>>, mode: Option<Mode>): (ids: seq<Id>)
    ensures forall id :: id in ids ==> exists a :: a in registry && a.id == id
  {
    if registry == [] then []
    else
      var rest := Supporting(registry[1..], mode);
      if Supports(registry[0]) && (mode.Some? ==> SupportsMode(registry[0], mode.value)) then [registry[0].id] + rest else rest
  }

  datatype ResolveError<Id> =
    | NotRegistered(id: Id) | NoMissionType(id: Id) | NoExecutionMode(explicit: Option<Id>) | NoSupport | Ambiguous(ids: seq<Id>)

  /** `ProviderResolver.resolve` for a mission with this provider choice and mode. */
  function Resolve<Id(==)>(registry: seq<Adapter<Id>>, choice: Option<Id>, mode: Mode): Result<Id, ResolveError<Id>> {
    if choice.Some? then
      match Find(registry, choice.value)
      case None => Failure(NotRegistered(choice.value))
      case Some(adapter) =>
        if !Supports(adapter) then Failure(NoMissionType(adapter.id))
        else if !SupportsMode(adapter, mode) then Failure(NoExecutionMode(Some(adapter.id)))
        else Success(adapter.id)
    else
      var able := Supporting(registry, Some(mode));
      if Supporting(registry, None) != [] && able == [] then Failure(NoExecutionMode(None))
      else if able == [] then Failure(NoSupport)
      else if |able| > 1 then Failure(Ambiguous(able))
      else Success(able[0])
  }

  /** The provider a choice can resolve to, if it can resolve at all. */
  function OneProvider<Id(==)>(registry: seq<Adapter<Id>>, choice: Option<Id>): Option<Id> {
    match Resolve(registry, choice, RequireConfirmation)
    case Success(id) => Some(id)
    case Failure(_) =>
      match Resolve(registry, choice, AutoPurchase)
      case Success(id) => Some(id)
      case Failure(_) => None
  }

  /** What supports automatic purchase supports the mission type, and every other mode asks for no more than the type. */
  lemma {:induction false} SupportingModes<Id>(registry: seq<Adapter<Id>>, mode: Mode)
    ensures mode != AutoPurchase ==> Supporting(registry, Some(mode)) == Supporting(registry, None)
    ensures forall id :: id in Supporting(registry, Some(mode)) ==> id in Supporting(registry, None)
  {
    if registry != [] {
      SupportingModes(registry[1..], mode);
    }
  }

  /** Whenever a choice resolves, whatever the mode, it resolves to its one provider, which is registered. */
  lemma ModeDoesNotMatter<Id>(registry: seq<Adapter<Id>>, choice: Option<Id>, mode: Mode)
    requires Resolve(registry, choice, mode).Success?
    ensures OneProvider(registry, choice) == Some(Resolve(registry, choice, mode).value)
    ensures Find(registry, Resolve(registry, choice, mode).value).Some?
  {
    SupportingModes(registry, mode);
    SupportingModes(registry, RequireConfirmation);
    if choice.None? {
      var id := Supporting(registry, Some(mode))[0];
      assert id in Supporting(registry, Some(mode));
      var a :| a in registry && a.id == id;
      FoundAgain(registry, a);
    }
  }

  lemma {:induction false} FoundAgain<Id>(registry: seq<Adapter<Id>>, a: Adapter<Id>)
    requires a in registry
    ensures Find(registry, a.id).Some?
  {
    if registry[0].id != a.id {
      assert a in registry[1..];
      FoundAgain(registry[1..], a);
    }
  }

  // ------------------------------------------------- which provider it is

  /** The adapter at a place declares support for the mission type, and for automatic purchase where that is the mode. */
  ghost predicate Serves<Id(!new)>(registry: seq<Adapter<Id>>, i: nat, mode: Mode)
    requires i < |registry|
  {
    if mode == AutoPurchase then Capability(true) in registry[i].capabilities else registry[i].capabilities != {}
  }

  /** The first adapter registered under an identifier. */
  ghost predicate Named<Id(!new)>(registry: seq<Adapter<Id>>, i: nat, id: Id)
    requires i < |registry|
  {
    registry[i].id == id && forall j :: 0 <= j < i ==> registry[j].id != id
  }

  lemma {:induction false} FindsFirst<Id(!new)>(registry: seq<Adapter<Id>>, id: Id)
    ensures Find(registry, id).None? <==> forall i :: 0 <= i < |registry| ==> registry[i].id != id
    ensures forall i :: 0 <= i < |registry| && Named(registry, i, id) ==> Find(registry, id) == Some(registry[i])
    ensures Find(registry, id).Some? ==> exists i :: 0 <= i < |registry| && Named(registry, i, id)
  {
    if registry != [] {
      var rest := registry[1..];
      FindsFirst(rest, id);
      if registry[0].id == id {
        assert Named(registry, 0, id);
      } else {
        assert forall i :: 0 < i < |registry| ==> rest[i - 1] == registry[i];
        if Find(rest, id).Some? {
          var i :| 0 <= i < |rest| && Named(rest, i, id);
          assert Named(registry, i + 1, id);
        }
        forall i | 0 <= i < |registry| && Named(registry, i, id)
          ensures Find(registry, id) == Some(registry[i])
        {
          assert i > 0 && Named(rest, i - 1, id);
        }
      }
    }
  }

  ghost predicate SomeServes<Id(!new)>(registry: seq<Adapter<Id>>, mode: Mode) {
    exists i :: 0 <= i < |registry| && Serves(registry, i, mode)
  }

  ghost predicate TwoServe<Id(!new)>(registry: seq<Adapter<Id>>, mode: Mode) {
    exists i, j :: 0 <= i < j < |registry| && Serves(registry, i, mode) && Serves(registry, j, mode)
  }

  /** Adapters that serve are at the front or further back. */
  lemma ServesAfterFirst<Id(!new)>(registry: seq<Adapter<Id>>, mode: Mode)
    requires registry != []
    ensures SomeServes(registry, mode) <==> Serves(registry, 0, mode) || SomeServes(registry[1..], mode)
    ensures TwoServe(registry, mode) <==>
            TwoServe(registry[1..], mode) || (Serves(registry, 0, mode) && SomeServes(registry[1..], mode))
  {
    hide SomeServes, TwoServe;
    FurtherBack(registry, mode);
    FurtherFront(registry, mode);
  }

  lemma FurtherBack<Id(!new)>(registry: seq<Adapter<Id>>, mode: Mode)
    requires registry != []
    ensures var rest := registry[1..];
            && (SomeServes(rest, mode) ==> SomeServes(registry, mode))
            && (Serves(registry, 0, mode) ==> SomeServes(registry, mode))
            && (TwoServe(rest, mode) ==> TwoServe(registry, mode))
            && (Serves(registry, 0, mode) && SomeServes(rest, mode) ==> TwoServe(registry, mode))
  {
    var rest := registry[1..];
    if SomeServes(rest, mode) {
      var i :| 0 <= i < |rest| && Serves(rest, i, mode);
      assert Serves(registry, i + 1, mode);
    }
    if TwoServe(rest, mode) {
      var i, j :| 0 <= i < j < |rest| && Serves(rest, i, mode) && Serves(rest, j, mode);
      assert Serves(registry, i + 1, mode) && Serves(registry, j + 1, mode);
    }
  }

  lemma FurtherFront<Id(!new)>(registry: seq<Adapter<Id>>, mode: Mode)
    requires registry != []
    ensures var rest := registry[1..];
            && (SomeServes(registry, mode) ==> Serves(registry, 0, mode) || SomeServes(rest, mode))
            && (TwoServe(registry, mode) ==> TwoServe(rest, mode) || (Serves(registry, 0, mode) && SomeServes(rest, mode)))
  {
    var rest := registry[1..];
    if SomeServes(registry, mode) {
      var i :| 0 <= i < |registry| && Serves(registry, i, mode);
      assert i > 0 ==> Serves(rest, i - 1, mode);
    }
    if TwoServe(registry, mode) {
      var i, j :| 0 <= i < j < |registry| && Serves(registry, i, mode) && Serves(registry, j, mode);
      assert Serves(rest, j - 1, mode);
      assert i > 0 ==> Serves(rest, i - 1, mode);
    }
  }

  lemma {:induction false} SupportingPlaces<Id(!new)>(registry: seq<Adapter<Id>>, mode: Mode)
    ensures Supporting(registry, Some(mode)) != [] <==> SomeServes(registry, mode)
    ensures |Supporting(registry, Some(mode))| >= 2 <==> TwoServe(registry, mode)
  {
    if registry != [] {
      hide SomeServes, TwoServe;
      SupportingPlaces(registry[1..], mode);
      ServesAfterFirst(registry, mode);
      assert Supports(registry[0]) && SupportsMode(registry[0], mode) <==> Serves(registry, 0, mode);
    }
  }

  lemma {:induction false} ServerIsSupporting<Id(!new)>(registry: seq<Adapter<Id>>, i: nat, mode: Mode)
    requires i < |registry| && Serves(registry, i, mode)
    ensures registry[i].id in Supporting(registry, Some(mode))
  {
    if i > 0 {
      ServerIsSupporting(registry[1..], i - 1, mode);
    }
  }

  lemma OneOrTwo<Id(!new)>(registry: seq<Adapter<Id>>, i: nat, mode: Mode)
    requires i < |registry| && Serves(registry, i, mode)
    ensures OnlyServer(registry, i, mode) <==> !TwoServe(registry, mode)
  {
    if !OnlyServer(registry, i, mode) {
      var j :| 0 <= j < |registry| && j != i && Serves(registry, j, mode);
      var a, b := if i < j then i else j, if i < j then j else i;
      assert Serves(registry, a, mode) && Serves(registry, b, mode);
    }
  }

  /**
   A chosen provider is the one if it is registered and serves the mode; without a choice it is the one adapter that
   serves the mode, if there is exactly one.  Every refusal says which of the conditions failed.
   */
  lemma ResolvesExactly<Id(!new)>(registry: seq<Adapter<Id>>, choice: Option<Id>, mode: Mode)
    ensures choice.Some? ==>
              var r, id := Resolve(registry, choice, mode), choice.value;
              && (r == Failure(NotRegistered(id)) <==> forall i :: 0 <= i < |registry| ==> registry[i].id != id)
              && (forall i :: 0 <= i < |registry| && Named(registry, i, id) ==>
                    && (r == Success(id) <==> Serves(registry, i, mode))
                    && (r == Failure(NoMissionType(id)) <==> registry[i].capabilities == {})
                    && (r == Failure(NoExecutionMode(Some(id))) <==> registry[i].capabilities != {} && !Serves(registry, i, mode)))
    ensures choice.None? ==>
              var r := Resolve(registry, choice, mode);
              && (r.Success? ==> exists i :: 0 <= i < |registry| && OnlyServer(registry, i, mode) && registry[i].id == r.value)
              && (forall i :: 0 <= i < |registry| && OnlyServer(registry, i, mode) ==> r == Success(registry[i].id))
              && (r == Failure(NoSupport) <==> forall i :: 0 <= i < |registry| ==> registry[i].capabilities == {})
              && (r.Failure? && r.error.Ambiguous? <==> TwoServe(registry, mode))
  {
    hide Supporting, Find;
    if choice.Some? {
      FindsFirst(registry, choice.value);
    } else {
      AutomaticExactly(registry, mode);
    }
  }

  ghost predicate OnlyServer<Id(!new)>(registry: seq<Adapter<Id>>, i: nat, mode: Mode)
    requires i < |registry|
  {
    Serves(registry, i, mode) && forall j :: 0 <= j < |registry| && j != i ==> !Serves(registry, j, mode)
  }

  lemma AutomaticExactly<Id(!new)>(registry: seq<Adapter<Id>>, mode: Mode)
    ensures var r := Resolve(registry, None, mode);
            && (r.Success? ==> exists i :: 0 <= i < |registry| && OnlyServer(registry, i, mode) && registry[i].id == r.value)
            && (forall i :: 0 <= i < |registry| && OnlyServer(registry, i, mode) ==> r == Success(registry[i].id))
            && (r == Failure(NoSupport) <==> forall i :: 0 <= i < |registry| ==> registry[i].capabilities == {})
            && (r.Failure? && r.error.Ambiguous? <==> TwoServe(registry, mode))
  {
    hide Supporting, TwoServe, OnlyServer;
    SupportingPlaces(registry, mode);
    SupportingPlaces(registry, RequireConfirmation);
    SupportingModes(registry, mode);
    SupportingModes(registry, RequireConfirmation);
    forall i | 0 <= i < |registry| && Serves(registry, i, mode)
      ensures registry[i].id in Supporting(registry, Some(mode))
      ensures OnlyServer(registry, i, mode) <==> !TwoServe(registry, mode)
    {
      ServerIsSupporting(registry, i, mode);
      OneOrTwo(registry, i, mode);
    }
    OnlyServerServes(registry, mode);
    assert forall i :: 0 <= i < |registry| ==> (Serves(registry, i, RequireConfirmation) <==> registry[i].capabilities != {});
  }

  lemma OnlyServerServes<Id(!new)>(registry: seq<Adapter<Id>>, mode: Mode)
    ensures forall i :: 0 <= i < |registry| && OnlyServer(registry, i, mode) ==> Serves(registry, i, mode)
  {
  }
}
