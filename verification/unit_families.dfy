/**
 * Unit families by how their type begins, white space and case aside, and what they make of a group:
 * the classification told without the categories in between.
 */
module UnitFamilies {
  import opened Letters
  import opened LineSpec
  import opened Options
  import opened TreeClassification
  import opened TreeData
  import opened UnitClassifier

  predicate SameLetter(ch: char, upper: char) {
    ch == upper || AreCases(ch, upper)
  }

  /** Behind white space from here on comes the prefix, in whatever case. */
  predicate BeginsAt(rawType: string, from: nat, prefix: string) {
    && from + |prefix| <= |rawType| && AllSpace(rawType[..from])
    && forall i :: 0 <= i < |prefix| ==> SameLetter(rawType[from + i], prefix[i])
  }

  ghost predicate InFamily(rawType: string, prefix: string) {
    exists from: nat :: BeginsAt(rawType, from, prefix)
  }

  predicate IsInk(prefix: string) {
    prefix != [] && forall i :: 0 <= i < |prefix| ==> 'A' <= prefix[i] <= 'Z' || prefix[i] == '_'
  }

  lemma UpperIsSameLetter(ch: char, upper: char)
    requires 'A' <= upper <= 'Z' || upper == '_'
    ensures Upper(ch) == upper <==> SameLetter(ch, upper)
    ensures SameLetter(ch, upper) ==> !IsSpace(ch)
  {
    CasesIff(ch, upper);
    hide AreCases;
  }

  lemma InFamilyIff(rawType: string, prefix: string)
    requires IsInk(prefix)
    ensures Starts(Trim(rawType), prefix) <==> InFamily(rawType, prefix)
  {
    hide SameLetter, IsSpace, Upper, Trim;
    forall ch, i | 0 <= i < |prefix|
      ensures Upper(ch) == prefix[i] <==> SameLetter(ch, prefix[i])
      ensures SameLetter(ch, prefix[i]) ==> !IsSpace(ch)
    {
      UpperIsSameLetter(ch, prefix[i]);
    }
    var kept := Trim(rawType);
    var before, after := TrimStrips(rawType);
    if Starts(kept, prefix) {
      assert rawType[..|before|] == before;
      assert forall i :: 0 <= i < |prefix| ==> rawType[|before| + i] == kept[i];
      assert BeginsAt(rawType, |before|, prefix);
    }
    if from: nat :| BeginsAt(rawType, from, prefix) {
      forall i | from <= i < from + |prefix| ensures !IsSpace(rawType[i]) {
        assert SameLetter(rawType[from + (i - from)], prefix[i - from]);
      }
      KeptFrom(rawType, before, kept, after, from, |prefix|);
      assert forall i :: 0 <= i < |prefix| ==> rawType[from + i] == kept[i];
    }
  }

  /** What is no white space, behind nothing but white space, begins what trimming keeps. */
  lemma KeptFrom(s: string, before: string, kept: string, after: string, from: nat, n: nat)
    requires s == before + kept + after && AllSpace(before) && AllSpace(after)
    requires kept != [] ==> !IsSpace(kept[0])
    requires from + n <= |s| && n > 0 && AllSpace(s[..from]) && forall i :: from <= i < from + n ==> !IsSpace(s[i])
    ensures from == |before| && n <= |kept|
  {
    hide IsSpace;
    assert forall i :: 0 <= i < |before| ==> s[i] == before[i];
    assert forall i :: |before| + |kept| <= i < |s| ==> s[i] == after[i - |before| - |kept|];
    assert forall i :: 0 <= i < from ==> s[..from][i] == s[i];
    assert !IsSpace(s[from]) && !IsSpace(s[from + n - 1]);
    assert kept != [] ==> s[|before|] == kept[0];
  }

  lemma PrefixesAreInk()
    ensures IsInk("DIM") && IsInk("REL") && IsInk("SEN") && IsInk("KEY") && IsInk("BCN")
    ensures IsInk("PC_") && IsInk("PCLOCAL") && IsInk("TEXT")
  {
  }

  ghost predicate IsInput(rawType: string) {
    InFamily(rawType, "SEN") || InFamily(rawType, "KEY") || InFamily(rawType, "BCN")
  }

  ghost predicate IsManagement(rawType: string) {
    InFamily(rawType, "PC_") || InFamily(rawType, "PCLOCAL") || InFamily(rawType, "TEXT")
  }

  /** Each type belongs to the category of its family, of which there are eight, and no order among them matters. */
  lemma FamilyDecidesCategory(rawType: string)
    ensures CategoriseUnitType(rawType) == Some(Dimmer) <==> InFamily(rawType, "DIM")
    ensures CategoriseUnitType(rawType) == Some(Relay) <==> InFamily(rawType, "REL")
    ensures CategoriseUnitType(rawType) == Some(Input) <==> IsInput(rawType)
    ensures CategoriseUnitType(rawType) == Some(Management) <==> IsManagement(rawType)
  {
    PrefixesAreInk();
    InFamilyIff(rawType, "DIM");
    InFamilyIff(rawType, "REL");
    InFamilyIff(rawType, "SEN");
    InFamilyIff(rawType, "KEY");
    InFamilyIff(rawType, "BCN");
    InFamilyIff(rawType, "PC_");
    InFamilyIff(rawType, "PCLOCAL");
    InFamilyIff(rawType, "TEXT");
    hide InFamily, Trim, Upper, IsInk;
    FamiliesAreApart(Trim(rawType));
  }

  lemma FamiliesAreApart(t: string)
    ensures Starts(t, "DIM") ==> !Starts(t, "REL")
    ensures var input := Starts(t, "SEN") || Starts(t, "KEY") || Starts(t, "BCN");
            var management := Starts(t, "PC_") || Starts(t, "PCLOCAL") || Starts(t, "TEXT");
            && (Starts(t, "DIM") || Starts(t, "REL") ==> !input && !management) && (input ==> !management)
  {
    hide Upper;
    assert Starts(t, "DIM") ==> Upper(t[0]) == 'D';
    assert Starts(t, "REL") ==> Upper(t[0]) == 'R';
    assert Starts(t, "SEN") ==> Upper(t[0]) == 'S';
    assert Starts(t, "KEY") ==> Upper(t[0]) == 'K';
    assert Starts(t, "BCN") ==> Upper(t[0]) == 'B';
    assert Starts(t, "PC_") || Starts(t, "PCLOCAL") ==> Upper(t[0]) == 'P';
    assert Starts(t, "TEXT") ==> Upper(t[0]) == 'T';
    hide Starts;
  }

  /** Wall switches and bus couplers, whose empty groups are no sign of a tree still syncing. */
  lemma GrouplessIffSwitch(unitType: Option<string>)
    ensures IsGrouplessInputUnit(unitType) <==>
            unitType.Some? && (InFamily(unitType.value, "KEY") || InFamily(unitType.value, "BCN"))
  {
    PrefixesAreInk();
    if unitType.Some? {
      InFamilyIff(unitType.value, "KEY");
      InFamilyIff(unitType.value, "BCN");
    }
    hide InFamily, Starts;
  }

  ghost predicate Drives(units: seq<Unit>, targetApps: seq<string>, k: Pair, i: int) {
    0 <= i < |units| && k in Pairs(units[i], targetApps)
  }

  /**
   * What discovery concludes of a group: dimmable if a DIM unit drives it; else on/off if a REL unit
   * does; else read-only if a SEN, KEY or BCN unit does, with every other driver of these or the
   * management families and no unit of the network still unsynced.
   */
  lemma ConclusionByFamily(c: UnitClassifier.Settings, units: seq<Unit>, targetApps: seq<string>, k: Pair)
    requires c.typeFromUnit && c.autoType
    ensures var concluded := Conclusion(c, units, targetApps, k);
            var dim := exists i :: Drives(units, targetApps, k, i) && InFamily(TypeOf(units[i]), "DIM");
            var rel := exists i :: Drives(units, targetApps, k, i) && InFamily(TypeOf(units[i]), "REL");
            var sen := exists i :: Drives(units, targetApps, k, i) && IsInput(TypeOf(units[i]));
            var harmless := forall i :: Drives(units, targetApps, k, i) ==>
                                          IsInput(TypeOf(units[i])) || IsManagement(TypeOf(units[i]));
            && (concluded == Some(LightDimmable) <==> dim)
            && (concluded == Some(LightOnOff) <==> rel && !dim)
            && (concluded == Some(BinarySensor) <==> sen && harmless && !NetworkHasUnsyncedUnits(units))
  {
    hide Conclusion, CategoriseUnitType, Pairs, TypeOf, UnitHasUnsyncedGroups, InFamily, IsInput, IsManagement;
    LoadIsAlwaysLight(c, units, targetApps, k);
    BinarySensorIff(c, units, targetApps, k);
    forall rawType
      ensures CategoriseUnitType(rawType) == Some(Dimmer) <==> InFamily(rawType, "DIM")
      ensures CategoriseUnitType(rawType) == Some(Relay) <==> InFamily(rawType, "REL")
      ensures CategoriseUnitType(rawType) == Some(Input) <==> IsInput(rawType)
      ensures CategoriseUnitType(rawType) == Some(Management) <==> IsManagement(rawType)
    {
      FamilyDecidesCategory(rawType);
    }
    assert forall i :: 0 <= i < |units| && k in Pairs(units[i], targetApps) ==> Drives(units, targetApps, k, i);
  }
}
