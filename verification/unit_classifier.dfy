/** Unit types and what a group driven by them is (src/unitTypeClassifier.js). */
module UnitClassifier {
  import LineSpec
  import opened Options
  import opened TreeData

  datatype Category = Dimmer | Relay | Input | Management

  datatype EntityType = LightDimmable | LightOnOff | BinarySensor

  /** `autoType` is false only when the setting is explicitly false. */
  datatype Settings = Settings(typeFromUnit: bool, autoType: bool)

  function Upper(ch: char): char {
    if 'a' <= ch <= 'z' then ((ch as int - 'a' as int) + 'A' as int) as char else ch
  }

  /** A case-insensitive anchored pattern; only ASCII letters fold. */
  predicate Starts(s: string, prefix: string) {
    |prefix| <= |s| && forall i :: 0 <= i < |prefix| ==> Upper(s[i]) == prefix[i]
  }

  function CategoriseUnitType(rawType: string): Option<Category> {
    var t := LineSpec.Trim(rawType);
    if Starts(t, "DIM") then Some(Dimmer)
    else if Starts(t, "REL") then Some(Relay)
    else if Starts(t, "SEN") || Starts(t, "KEY") || Starts(t, "BCN") then Some(Input)
    else if Starts(t, "PC_") || Starts(t, "PCLOCAL") || Starts(t, "TEXT") then Some(Management)
    else None
  }

  predicate IsGrouplessInputUnit(unitType: Option<string>) {
    unitType.Some? && (Starts(LineSpec.Trim(unitType.value), "KEY") || Starts(LineSpec.Trim(unitType.value), "BCN"))
  }

  predicate Includes(types: set<string>, category: Option<Category>) {
    exists t :: t in types && CategoriseUnitType(t) == category
  }

  /** A dimmer beats a relay, a relay an input; an unknown type or an incomplete tree blocks the last one only. */
  function EntityTypeOf(c: Settings, types: Option<set<string>>, treeIncomplete: bool): Option<EntityType> {
    if !c.typeFromUnit || !c.autoType || types.None? then None
    else if Includes(types.value, Some(Dimmer)) then Some(LightDimmable)
    else if Includes(types.value, Some(Relay)) then Some(LightOnOff)
    else if Includes(types.value, Some(Input)) && !Includes(types.value, None) && !treeIncomplete then
      Some(BinarySensor)
    else None
  }

  method EntityTypeForGroup(c: Settings, types: Option<set<string>>, treeIncomplete: bool)
    returns (r: Option<EntityType>)
    ensures r == EntityTypeOf(c, types, treeIncomplete)
  {
    if !c.typeFromUnit || !c.autoType || types.None? {
      return None;
    }
    var hasDimmer, hasRelay, hasInput, hasUnrecognised := false, false, false, false;
    var todo := types.value;
    while todo != {}
      invariant todo <= types.value
      invariant hasDimmer <==> Includes(types.value - todo, Some(Dimmer))
      invariant hasRelay <==> Includes(types.value - todo, Some(Relay))
      invariant hasInput <==> Includes(types.value - todo, Some(Input))
      invariant hasUnrecognised <==> Includes(types.value - todo, None)
      decreases |todo|
    {
      hide CategoriseUnitType;
      var t :| t in todo;
      var category := CategoriseUnitType(t);
      IncludesOneMore(types.value - todo, t);
      assert types.value - (todo - {t}) == types.value - todo + {t};
      todo := todo - {t};
      if category == Some(Dimmer) {
        hasDimmer := true;
      } else if category == Some(Relay) {
        hasRelay := true;
      } else if category == Some(Input) {
        hasInput := true;
      } else if category == None {
        hasUnrecognised := true;
      }
    }
    assert types.value - todo == types.value;
    if hasDimmer {
      return Some(LightDimmable);
    }
    if hasRelay {
      return Some(LightOnOff);
    }
    if hasInput && !hasUnrecognised && !treeIncomplete {
      return Some(BinarySensor);
    }
    return None;
  }

  lemma IncludesOneMore(types: set<string>, t: string)
    ensures forall k :: Includes(types + {t}, k) <==> Includes(types, k) || CategoriseUnitType(t) == k
  {
    hide CategoriseUnitType;
    forall k
      ensures Includes(types + {t}, k) <==> Includes(types, k) || CategoriseUnitType(t) == k
    {
      if Includes(types, k) {
        var x :| x in types && CategoriseUnitType(x) == k;
        assert x in types + {t};
      }
      assert t in types + {t};
    }
  }
}
