/**
 * Which units drive which groups of a tree, and the entity types that follow
 * (src/haDiscoveryTree.js, lines 42-146 and 244-384).
 */
module TreeClassification {
  import LineSpec
  import opened Options
  import opened TreeData
  import opened UnitClassifier

  datatype Pair = Pair(app: string, group: string)

  function TypeOf(u: Unit): string {
    match u.unitType
    case Some(t) => LineSpec.Trim(t)
    case None => ""
  }

  function PairsOfGroups(app: string, groups: seq<Option<string>>): set<Pair> {
    if groups == [] then {}
    else (if groups[0].Some? then {Pair(app, groups[0].value)} else {}) + PairsOfGroups(app, groups[1..])
  }

  function PairsOfApp(a: App, targetApps: seq<string>): set<Pair> {
    if a.address.Some? && a.address.value in targetApps && a.groups.Some? then
      PairsOfGroups(a.address.value, a.groups.value)
    else {}
  }

  function PairsOfApps(apps: seq<App>, targetApps: seq<string>): set<Pair> {
    if apps == [] then {} else PairsOfApp(apps[0], targetApps) + PairsOfApps(apps[1..], targetApps)
  }

  /** The application/group pairs a unit drives on the target applications. */
  function Pairs(u: Unit, targetApps: seq<string>): set<Pair> {
    if u.application.Structured? then PairsOfApps(u.application.apps, targetApps)
    else set a, g | a in targetApps && a in AppItems(u) && g in GroupItems(u) :: Pair(a, g)
  }

  ghost predicate Driven(units: seq<Unit>, targetApps: seq<string>, k: Pair) {
    exists i :: 0 <= i < |units| && k in Pairs(units[i], targetApps)
  }

  /** The types of all units driving a group, blank ones included. */
  function TypesOn(units: seq<Unit>, targetApps: seq<string>, k: Pair): set<string> {
    set u | u in units && k in Pairs(u, targetApps) :: TypeOf(u)
  }

  predicate UnitHasDeviceData(u: Unit) {
    if u.application.Structured? then
      exists i :: 0 <= i < |u.application.apps| && IsReal(u.application.apps[i])
                  && u.application.apps[i].address.value != [] && u.application.apps[i].groups.Some?
    else OnRealApplication(u) && GroupItems(u) != []
  }

  predicate NoRealGroups(apps: seq<App>) {
    forall i :: 0 <= i < |apps| && IsReal(apps[i]) ==> apps[i].groups.None?
  }

  /** On a real application, but no group bindings yet, and not of a family that never has any. */
  predicate UnitHasUnsyncedGroups(u: Unit) {
    && !IsGrouplessInputUnit(u.unitType)
    && OnRealApplication(u)
    && if u.application.Structured? then NoRealGroups(u.application.apps) else GroupItems(u) == []
  }

  predicate NetworkHasUnsyncedUnits(units: seq<Unit>) {
    exists i :: 0 <= i < |units| && UnitHasUnsyncedGroups(units[i])
  }

  /** What discovery concludes for a group from the units of the whole tree. */
  ghost function Conclusion(c: Settings, units: seq<Unit>, targetApps: seq<string>, k: Pair): Option<EntityType> {
    EntityTypeOf(c, if Driven(units, targetApps, k) then Some(TypesOn(units, targetApps, k)) else None,
                 NetworkHasUnsyncedUnits(units))
  }

  ghost predicate SomeDriver(units: seq<Unit>, targetApps: seq<string>, k: Pair, category: Option<Category>) {
    exists i :: 0 <= i < |units| && k in Pairs(units[i], targetApps) && CategoriseUnitType(TypeOf(units[i])) == category
  }

  predicate DrivesNoLoad(category: Option<Category>) {
    category == Some(Input) || category == Some(Management)
  }

  lemma TypesAreDrivers(units: seq<Unit>, targetApps: seq<string>, k: Pair, category: Option<Category>)
    ensures Includes(TypesOn(units, targetApps, k), category) <==> SomeDriver(units, targetApps, k, category)
  {
    hide CategoriseUnitType, Pairs, TypeOf;
    var types := TypesOn(units, targetApps, k);
    if Includes(types, category) {
      var t :| t in types && CategoriseUnitType(t) == category;
      var u :| u in units && k in Pairs(u, targetApps) && TypeOf(u) == t;
      var i :| 0 <= i < |units| && units[i] == u;
      assert k in Pairs(units[i], targetApps) && CategoriseUnitType(TypeOf(units[i])) == category;
    }
    if i :| 0 <= i < |units| && k in Pairs(units[i], targetApps) && CategoriseUnitType(TypeOf(units[i])) == category {
      assert units[i] in units && TypeOf(units[i]) in types;
    }
  }

  /**
   * Read-only is concluded exactly when some unit driving the group is an input, every unit driving it
   * is an input or a management unit, and no unit of the whole network is still unsynced.
   */
  lemma BinarySensorIff(c: Settings, units: seq<Unit>, targetApps: seq<string>, k: Pair)
    requires c.typeFromUnit && c.autoType
    ensures Conclusion(c, units, targetApps, k) == Some(BinarySensor) <==>
            && SomeDriver(units, targetApps, k, Some(Input))
            && (forall i :: 0 <= i < |units| && k in Pairs(units[i], targetApps) ==>
                  DrivesNoLoad(CategoriseUnitType(TypeOf(units[i]))))
            && (forall i :: 0 <= i < |units| ==> !UnitHasUnsyncedGroups(units[i]))
  {
    hide CategoriseUnitType, Pairs, TypeOf, UnitHasUnsyncedGroups, TypesOn, Includes;
    TypesAreDrivers(units, targetApps, k, Some(Dimmer));
    TypesAreDrivers(units, targetApps, k, Some(Relay));
    TypesAreDrivers(units, targetApps, k, Some(Input));
    TypesAreDrivers(units, targetApps, k, None);
    assert SomeDriver(units, targetApps, k, Some(Input)) ==> Driven(units, targetApps, k);
    NoLoadOrUnknown(units, targetApps, k);
    hide SomeDriver;
  }

  lemma EveryCategory(o: Option<Category>)
    ensures DrivesNoLoad(o) || o == Some(Dimmer) || o == Some(Relay) || o == None
  {
    match o
    case None =>
    case Some(category) =>
      match category
      case Dimmer =>
      case Relay =>
      case Input =>
      case Management =>
  }

  lemma NoLoadOrUnknown(units: seq<Unit>, targetApps: seq<string>, k: Pair)
    ensures (forall i :: 0 <= i < |units| && k in Pairs(units[i], targetApps) ==>
               DrivesNoLoad(CategoriseUnitType(TypeOf(units[i])))) <==>
            && !SomeDriver(units, targetApps, k, Some(Dimmer))
            && !SomeDriver(units, targetApps, k, Some(Relay))
            && !SomeDriver(units, targetApps, k, None)
  {
    hide CategoriseUnitType, Pairs, TypeOf;
    forall i | 0 <= i < |units| && k in Pairs(units[i], targetApps)
      ensures var o := CategoriseUnitType(TypeOf(units[i]));
              || DrivesNoLoad(o)
              || ((o == Some(Dimmer) || o == Some(Relay) || o == None) && SomeDriver(units, targetApps, k, o))
    {
      var o := CategoriseUnitType(TypeOf(units[i]));
      assert SomeDriver(units, targetApps, k, o);
      EveryCategory(o);
    }
  }

  /**
   * A group with a dimmer or a relay on it is always a light, whatever else drives it and however
   * incomplete the tree.
   */
  lemma LoadIsAlwaysLight(c: Settings, units: seq<Unit>, targetApps: seq<string>, k: Pair)
    requires c.typeFromUnit && c.autoType
    ensures Conclusion(c, units, targetApps, k) == Some(LightDimmable)
            <==> SomeDriver(units, targetApps, k, Some(Dimmer))
    ensures Conclusion(c, units, targetApps, k) == Some(LightOnOff) <==>
            SomeDriver(units, targetApps, k, Some(Relay)) && !SomeDriver(units, targetApps, k, Some(Dimmer))
  {
    hide CategoriseUnitType, Pairs, TypeOf, UnitHasUnsyncedGroups, TypesOn, Includes;
    TypesAreDrivers(units, targetApps, k, Some(Dimmer));
    TypesAreDrivers(units, targetApps, k, Some(Relay));
    assert SomeDriver(units, targetApps, k, Some(Dimmer)) ==> Driven(units, targetApps, k);
    assert SomeDriver(units, targetApps, k, Some(Relay)) ==> Driven(units, targetApps, k);
  }

  /** The order of the units in the document does not matter. */
  lemma UnitOrderDoesNotMatter(c: Settings, t1: seq<Unit>, t2: seq<Unit>, targetApps: seq<string>, k: Pair)
    requires forall u :: u in t1 <==> u in t2
    ensures Driven(t1, targetApps, k) <==> Driven(t2, targetApps, k)
    ensures TypesOn(t1, targetApps, k) == TypesOn(t2, targetApps, k)
    ensures Conclusion(c, t1, targetApps, k) == Conclusion(c, t2, targetApps, k)
  {
    hide Pairs, UnitHasUnsyncedGroups, EntityTypeOf;
    DrivenFollows(t1, t2, targetApps, k);
    DrivenFollows(t2, t1, targetApps, k);
    assert TypesOn(t1, targetApps, k) == TypesOn(t2, targetApps, k);
  }

  lemma DrivenFollows(t1: seq<Unit>, t2: seq<Unit>, targetApps: seq<string>, k: Pair)
    requires forall u :: u in t1 ==> u in t2
    ensures Driven(t1, targetApps, k) ==> Driven(t2, targetApps, k)
    ensures NetworkHasUnsyncedUnits(t1) ==> NetworkHasUnsyncedUnits(t2)
  {
    hide Pairs, UnitHasUnsyncedGroups;
    if i :| 0 <= i < |t1| && k in Pairs(t1[i], targetApps) {
      assert t1[i] in t2;
    }
    if i :| 0 <= i < |t1| && UnitHasUnsyncedGroups(t1[i]) {
      assert t1[i] in t2;
    }
  }

  lemma {:induction false} PairsNeedApp(apps: seq<App>, targetApps: seq<string>)
    requires PairsOfApps(apps, targetApps) != {}
    ensures exists i :: 0 <= i < |apps| && apps[i].address.Some? && apps[i].address.value in targetApps
                        && apps[i].groups.Some?
  {
    if PairsOfApp(apps[0], targetApps) == {} {
      PairsNeedApp(apps[1..], targetApps);
      var i :| 0 <= i < |apps| - 1 && apps[1..][i].address.Some? && apps[1..][i].address.value in targetApps
               && apps[1..][i].groups.Some?;
      assert apps[i + 1] == apps[1..][i];
    }
  }

  /** A unit that drives a group on a load application carries device data and is never taken for unsynced. */
  lemma DrivingUnitIsSynced(u: Unit, targetApps: seq<string>)
    requires Pairs(u, targetApps) != {} && MANAGEMENT_APP !in targetApps && [] !in targetApps
    ensures UnitHasDeviceData(u) && !UnitHasUnsyncedGroups(u)
  {
    if u.application.Structured? {
      PairsNeedApp(u.application.apps, targetApps);
    } else {
      var k :| k in Pairs(u, targetApps);
      assert k.app in AppItems(u) && k.group in GroupItems(u);
    }
  }

  /** No application object has a blank address. */
  predicate AddressesFilled(u: Unit) {
    u.application.Structured? ==>
      forall i :: 0 <= i < |u.application.apps| ==> u.application.apps[i].address != Some("")
  }

  /**
   * The two judgements about a unit fit together: device data needs a real application, and a unit on
   * one is unsynced exactly when it has no device data and is not of a family that never has groups.
   */
  lemma UnsyncedIffNoData(u: Unit)
    requires AddressesFilled(u)
    ensures UnitHasUnsyncedGroups(u) <==>
            OnRealApplication(u) && !UnitHasDeviceData(u) && !IsGrouplessInputUnit(u.unitType)
    ensures UnitHasDeviceData(u) ==> OnRealApplication(u)
  {
    if u.application.Structured? {
      var apps := u.application.apps;
      assert forall i :: 0 <= i < |apps| && IsReal(apps[i]) ==> apps[i].address.value != [];
      assert NoRealGroups(apps) <==> forall i :: 0 <= i < |apps| && IsReal(apps[i]) ==> apps[i].groups.None?;
    }
  }

  // The loops.

  /** A unit's groups are added to those already discovered. */
  ghost predicate Discovered(found: map<string, set<string>>, k: Pair) {
    k.app in found && k.group in found[k.app]
  }

  method AddGroups(found: map<string, set<string>>, app: string, groups: seq<Option<string>>)
    returns (r: map<string, set<string>>)
    ensures forall k :: Discovered(r, k) <==> Discovered(found, k) || k in PairsOfGroups(app, groups)
  {
    r := if app in found then found else found[app := {}];
    assert groups[0..] == groups;
    for i := 0 to |groups|
      invariant app in r
      invariant forall k :: Discovered(found, k) || k in PairsOfGroups(app, groups) <==>
                            Discovered(r, k) || k in PairsOfGroups(app, groups[i..])
    {
      assert groups[i..][1..] == groups[i + 1..];
      if groups[i].Some? && groups[i].value !in r[app] {
        r := r[app := r[app] + {groups[i].value}];
      }
    }
  }

  method CollectUnitGroups(u: Unit, found: map<string, set<string>>, targetApps: seq<string>)
    returns (r: map<string, set<string>>)
    ensures forall k :: Discovered(r, k) <==> Discovered(found, k) || k in Pairs(u, targetApps)
  {
    r := found;
    if u.application.Structured? {
      var apps := u.application.apps;
      assert apps[0..] == apps;
      for i := 0 to |apps|
        invariant forall k :: Discovered(found, k) || k in PairsOfApps(apps, targetApps) <==>
                              Discovered(r, k) || k in PairsOfApps(apps[i..], targetApps)
      {
        hide Discovered, PairsOfGroups;
        assert apps[i..][1..] == apps[i + 1..];
        var a := apps[i];
        if a.address.Some? && a.address.value in targetApps && a.groups.Some? {
          r := AddGroups(r, a.address.value, a.groups.value);
        }
      }
      return;
    }
    r := AddFlat(AppItems(u), GroupItems(u), r, targetApps);
  }

  method AddFlat(apps: seq<string>, items: seq<string>, found: map<string, set<string>>, targetApps: seq<string>)
    returns (r: map<string, set<string>>)
    ensures forall k :: Discovered(r, k) <==>
                        Discovered(found, k) || (k.app in targetApps && k.app in apps && k.group in items)
  {
    r := found;
    if items == [] {
      return;
    }
    var groups := set g | g in items;
    for i := 0 to |targetApps|
      invariant forall k :: Discovered(r, k) <==>
                            Discovered(found, k) || (k.app in targetApps[..i] && k.app in apps && k.group in groups)
    {
      var app := targetApps[i];
      assert targetApps[..i + 1] == targetApps[..i] + [app];
      if app in apps {
        MergeDiscovers(r, app, groups);
        r := r[app := (if app in r then r[app] else {}) + groups];
      }
    }
    assert targetApps[..|targetApps|] == targetApps;
  }

  lemma MergeDiscovers(found: map<string, set<string>>, app: string, groups: set<string>)
    ensures var r := found[app := (if app in found then found[app] else {}) + groups];
            forall k :: Discovered(r, k) <==> Discovered(found, k) || (k.app == app && k.group in groups)
  {
  }

  method CollectAllGroups(units: seq<Unit>, targetApps: seq<string>) returns (r: map<string, set<string>>)
    ensures forall k :: Discovered(r, k) <==> Driven(units, targetApps, k)
  {
    hide Pairs;
    r := map[];
    for i := 0 to |units|
      invariant forall k :: Discovered(r, k) <==> Driven(units[..i], targetApps, k)
    {
      DrivenOneMore(units, targetApps, i);
      hide Driven, Discovered;
      r := CollectUnitGroups(units[i], r, targetApps);
    }
    assert units[..|units|] == units;
  }

  lemma DrivenOneMore(units: seq<Unit>, targetApps: seq<string>, i: nat)
    requires i < |units|
    ensures forall k :: Driven(units[..i + 1], targetApps, k) <==>
                        Driven(units[..i], targetApps, k) || k in Pairs(units[i], targetApps)
  {
    hide Pairs;
    forall k
      ensures Driven(units[..i + 1], targetApps, k) <==>
              Driven(units[..i], targetApps, k) || k in Pairs(units[i], targetApps)
    {
      assert forall j :: 0 <= j < i ==> units[..i + 1][j] == units[..i][j];
      assert units[..i + 1][i] == units[i];
    }
  }

  lemma TypesOneMore(units: seq<Unit>, targetApps: seq<string>, i: nat, k: Pair)
    requires i < |units|
    ensures TypesOn(units[..i + 1], targetApps, k) ==
            TypesOn(units[..i], targetApps, k) + if k in Pairs(units[i], targetApps) then {TypeOf(units[i])} else {}
  {
    hide Pairs, TypeOf;
    assert units[..i + 1] == units[..i] + [units[i]];
  }

  /** The index: exactly the driven groups, each with the types of all its drivers; and the unknown types among them. */
  method CollectUnitTypeData(units: seq<Unit>, targetApps: seq<string>)
    returns (index: map<Pair, set<string>>, unknownTypes: set<string>)
    ensures forall k :: k in index <==> Driven(units, targetApps, k)
    ensures forall k :: k in index ==> index[k] == TypesOn(units, targetApps, k)
    ensures forall t :: t in unknownTypes <==> UnknownDriver(units, targetApps, t)
  {
    hide Pairs, TypeOf, CategoriseUnitType, TypesOn, Driven, UnknownDriver;
    index, unknownTypes := map[], {};
    NothingBefore(units, targetApps);
    for i := 0 to |units|
      invariant forall k :: k in index <==> Driven(units[..i], targetApps, k)
      invariant forall k :: k in index ==> index[k] == TypesOn(units[..i], targetApps, k)
      invariant forall t :: t in unknownTypes <==> UnknownDriver(units[..i], targetApps, t)
    {
      var unitType, driven := TypeOf(units[i]), Pairs(units[i], targetApps);
      DrivenOneMore(units, targetApps, i);
      UnknownOneMore(units, targetApps, i);
      forall k
        ensures TypesOn(units[..i + 1], targetApps, k) ==
                TypesOn(units[..i], targetApps, k) + if k in driven then {unitType} else {}
        ensures !Driven(units[..i], targetApps, k) ==> TypesOn(units[..i], targetApps, k) == {}
      {
        TypesOneMore(units, targetApps, i, k);
        TypesNeedDriver(units[..i], targetApps, k);
      }
      index := map k | k in index.Keys + driven ::
        (if k in index then index[k] else {}) + if k in driven then {unitType} else {};
      if unitType != [] && CategoriseUnitType(unitType).None? && driven != {} {
        unknownTypes := unknownTypes + {unitType};
      }
    }
    assert units[..|units|] == units;
  }

  ghost predicate UnknownDriver(units: seq<Unit>, targetApps: seq<string>, t: string) {
    exists i :: 0 <= i < |units| && Pairs(units[i], targetApps) != {} && TypeOf(units[i]) == t
                && t != [] && CategoriseUnitType(t).None?
  }

  lemma NothingBefore(units: seq<Unit>, targetApps: seq<string>)
    ensures forall k :: !Driven(units[..0], targetApps, k)
    ensures forall t :: !UnknownDriver(units[..0], targetApps, t)
  {
  }

  lemma TypesNeedDriver(units: seq<Unit>, targetApps: seq<string>, k: Pair)
    ensures !Driven(units, targetApps, k) ==> TypesOn(units, targetApps, k) == {}
  {
    hide Pairs, TypeOf;
    if u :| u in units && k in Pairs(u, targetApps) {
      var i :| 0 <= i < |units| && units[i] == u;
      assert k in Pairs(units[i], targetApps);
    }
  }

  lemma UnknownOneMore(units: seq<Unit>, targetApps: seq<string>, i: nat)
    requires i < |units|
    ensures forall t :: UnknownDriver(units[..i + 1], targetApps, t) <==>
                        || UnknownDriver(units[..i], targetApps, t)
                        || (Pairs(units[i], targetApps) != {} && TypeOf(units[i]) == t && t != []
                             && CategoriseUnitType(t).None?)
  {
    hide Pairs, TypeOf, CategoriseUnitType;
    forall t
      ensures UnknownDriver(units[..i + 1], targetApps, t) <==>
              || UnknownDriver(units[..i], targetApps, t)
              || (Pairs(units[i], targetApps) != {} && TypeOf(units[i]) == t && t != []
                             && CategoriseUnitType(t).None?)
    {
      assert units[..i + 1][i] == units[i];
      assert forall j :: 0 <= j < i ==> units[..i + 1][j] == units[..i][j];
    }
  }

  /** The type index and the discovered groups always have the same application/group domain. */
  method DiscoverAndIndex(units: seq<Unit>, targetApps: seq<string>)
    returns (found: map<string, set<string>>, index: map<Pair, set<string>>)
    ensures forall k :: Discovered(found, k) <==> k in index
  {
    hide Driven, Discovered;
    found := CollectAllGroups(units, targetApps);
    var unknownTypes;
    index, unknownTypes := CollectUnitTypeData(units, targetApps);
  }

  /** A run's classification of one group: index the tree, then look the group up in the index. */
  method ClassifyGroup(c: Settings, units: seq<Unit>, targetApps: seq<string>, k: Pair) returns (r: Option<EntityType>)
    ensures r == Conclusion(c, units, targetApps, k)
  {
    hide Driven, TypesOn, EntityTypeOf;
    var index, unknownTypes := CollectUnitTypeData(units, targetApps);
    r := EntityTypeForGroup(c, if k in index then Some(index[k]) else None, NetworkHasUnsyncedUnits(units));
  }
}
