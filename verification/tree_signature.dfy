/**
 * The fingerprint of a tree's group bindings (src/haDiscoveryTree.js, lines 173-242): equal exactly
 * when the bindings are, whatever the document order and shape.
 */
module TreeSignature {
  import opened Decimals
  import opened Options
  import opened TreeData

  // Comparing ids. Digit strings are numbers here and anything else is not; other JavaScript numerals
  // (signs, fractions, exponents, hexadecimal, surrounding blanks) are not part of this model.

  function NumberOf(s: string): Option<nat> {
    if s != [] && AllDigits(s) then Some(Parse(s)) else None
  }

  predicate TextBefore(a: string, b: string) {
    if a == [] || b == [] then a == [] && b != []
    else a[0] < b[0] || (a[0] == b[0] && TextBefore(a[1..], b[1..]))
  }

  /** Negative, zero or positive, as the source's comparator. */
  function CompareTreeIds(a: string, b: string): int {
    var na, nb := NumberOf(a), NumberOf(b);
    if na.Some? && nb.Some? then na.value - nb.value
    else if a == b then 0
    else if TextBefore(a, b) then -1 else 1
  }

  lemma {:induction false} TextIsTotal(a: string, b: string)
    ensures !(TextBefore(a, b) && TextBefore(b, a))
    ensures a == b <==> !TextBefore(a, b) && !TextBefore(b, a)
  {
    if a != [] && b != [] {
      TextIsTotal(a[1..], b[1..]);
      assert a == [a[0]] + a[1..] && b == [b[0]] + b[1..];
    }
  }

  lemma {:induction false} TextIsTransitive(a: string, b: string, c: string)
    requires TextBefore(a, b) && TextBefore(b, c)
    ensures TextBefore(a, c)
  {
    if a != [] && b != [] && c != [] && a[0] == b[0] == c[0] {
      TextIsTransitive(a[1..], b[1..], c[1..]);
    }
  }

  /** The comparator contradicts itself on no pair. */
  lemma CompareIsAntisymmetric(a: string, b: string)
    ensures CompareTreeIds(a, b) < 0 <==> CompareTreeIds(b, a) > 0
    ensures CompareTreeIds(a, a) == 0
  {
    TextIsTotal(a, b);
  }

  // When the comparator is an order.

  /** Two ids for the same number, such as 1 and 01. */
  predicate Tied(a: string, b: string) {
    a != b && NumberOf(a).Some? && NumberOf(a) == NumberOf(b)
  }

  /** Two numerals, and between them as texts, the wrong way round, something that is no numeral. */
  predicate Knotted(m: string, n: string, x: string) {
    && NumberOf(m).Some? && NumberOf(n).Some? && NumberOf(x).None?
    && NumberOf(m).value < NumberOf(n).value && TextBefore(n, x) && TextBefore(x, m)
  }

  predicate Cycle(a: string, b: string, c: string) {
    CompareTreeIds(a, b) < 0 && CompareTreeIds(b, c) < 0 && CompareTreeIds(c, a) < 0
  }

  /** The comparator goes in a circle on three ids exactly if they are such a knot, whichever comes first. */
  lemma CycleIffKnotted(a: string, b: string, c: string)
    ensures Cycle(a, b, c) <==> Knotted(a, b, c) || Knotted(b, c, a) || Knotted(c, a, b)
  {
    hide NumberOf;
    NumeralTexts(a, b, c);
    NumeralTexts(b, c, a);
    NumeralTexts(c, a, b);
  }

  lemma NumeralTexts(a: string, b: string, c: string)
    ensures TextBefore(a, b) && TextBefore(b, c) ==> TextBefore(a, c)
    ensures !(TextBefore(a, b) && TextBefore(b, a)) && !TextBefore(a, a)
  {
    TextIsTotal(a, b);
    TextIsTotal(a, a);
    if TextBefore(a, b) && TextBefore(b, c) {
      TextIsTransitive(a, b, c);
    }
  }

  /** The comparator tells all of these ids apart and puts them in one order. */
  predicate Consistent(ids: set<string>) {
    && (forall a, b :: a in ids && b in ids ==> !Tied(a, b))
    && (forall m, n, x :: m in ids && n in ids && x in ids ==> !Knotted(m, n, x))
  }

  lemma ConsistentOrder(ids: set<string>, a: string, b: string, c: string)
    requires Consistent(ids) && a in ids && b in ids && c in ids
    ensures CompareTreeIds(a, b) == 0 <==> a == b
    ensures CompareTreeIds(a, b) < 0 && CompareTreeIds(b, c) < 0 ==> CompareTreeIds(a, c) < 0
  {
    assert !Tied(a, b) && !Tied(a, c);
    CycleIffKnotted(a, b, c);
    CompareIsAntisymmetric(a, b);
    CompareIsAntisymmetric(a, c);
    CompareIsAntisymmetric(b, c);
    hide NumberOf;
  }

  /** Canonical decimals, the ids C-Gate sends, are always consistent. */
  lemma CanonicalIsConsistent(ids: set<string>)
    requires forall a :: a in ids ==> Canonical(a)
    ensures Consistent(ids)
  {
    forall a, b | a in ids && b in ids ensures !Tied(a, b) {
      CanonicalIffPrinted(a);
      CanonicalIffPrinted(b);
    }
  }

  // Sorting with that comparator; the built-in sort is stable, and so is this one.

  function InsertId(x: string, s: seq<string>): seq<string> {
    if s == [] || CompareTreeIds(x, s[0]) <= 0 then [x] + s else [s[0]] + InsertId(x, s[1..])
  }

  function SortIds(s: seq<string>): seq<string> {
    if s == [] then [] else InsertId(s[0], SortIds(s[1..]))
  }

  datatype Entry = Entry(address: string, groups: seq<string>)

  function InsertEntry(x: Entry, s: seq<Entry>): seq<Entry> {
    if s == [] || CompareTreeIds(x.address, s[0].address) <= 0 then [x] + s else [s[0]] + InsertEntry(x, s[1..])
  }

  function SortEntries(s: seq<Entry>): seq<Entry> {
    if s == [] then [] else InsertEntry(s[0], SortEntries(s[1..]))
  }

  // From units to entries.

  /** Adds to an insertion-ordered set. */
  function Added(s: seq<string>, x: string): seq<string> {
    if x in s then s else s + [x]
  }

  function AddGroups(s: seq<string>, groups: seq<Option<string>>): seq<string>
    decreases |groups|
  {
    if groups == [] then s
    else AddGroups(if groups[0].Some? then Added(s, groups[0].value) else s, groups[1..])
  }

  function AddApps(s: seq<string>, apps: seq<App>): seq<string>
    decreases |apps|
  {
    if apps == [] then s
    else AddApps(if IsReal(apps[0]) && apps[0].groups.Some? then AddGroups(s, apps[0].groups.value) else s, apps[1..])
  }

  function AddItems(s: seq<string>, items: seq<string>): seq<string>
    decreases |items|
  {
    if items == [] then s else AddItems(Added(s, items[0]), items[1..])
  }

  function NonManagementGroupIds(u: Unit): Option<seq<string>> {
    if !OnRealApplication(u) then None
    else if u.application.Structured? then Some(AddApps([], u.application.apps))
    else Some(AddItems([], GroupItems(u)))
  }

  function AddressOf(u: Unit): string {
    if u.unitAddress.Some? then u.unitAddress.value else u.address.GetOr("")
  }

  /** A unit's entry, if it has one. */
  function EntryOf(u: Unit): seq<Entry> {
    var ids := NonManagementGroupIds(u);
    if ids.Some? then [Entry(AddressOf(u), SortIds(ids.value))] else []
  }

  function EntriesOf(units: seq<Unit>): seq<Entry> {
    if units == [] then [] else EntryOf(units[0]) + EntriesOf(units[1..])
  }

  function Text(e: Entry): string {
    e.address + ":" + Join(e.groups, ',')
  }

  function Texts(s: seq<Entry>): seq<string> {
    if s == [] then [] else [Text(s[0])] + Texts(s[1..])
  }

  function Signature(units: seq<Unit>): string {
    Join(Texts(SortEntries(EntriesOf(units))), '|')
  }

  // What the signature stands for.

  function RealGroups(apps: seq<App>): set<string> {
    if apps == [] then {}
    else
      (if IsReal(apps[0]) && apps[0].groups.Some? then Addresses(apps[0].groups.value) else {}) + RealGroups(apps[1..])
  }

  function Addresses(groups: seq<Option<string>>): set<string> {
    if groups == [] then {} else (if groups[0].Some? then {groups[0].value} else {}) + Addresses(groups[1..])
  }

  /** The group ids a unit carries on real applications. */
  function GroupsOf(u: Unit): set<string> {
    if u.application.Structured? then RealGroups(u.application.apps) else set g | g in GroupItems(u)
  }

  /** The address-to-group-set map over the units on a real application. */
  function Bindings(units: seq<Unit>): map<string, set<string>> {
    if units == [] then map[]
    else
      var rest := Bindings(units[1..]);
      if OnRealApplication(units[0]) then rest[AddressOf(units[0]) := GroupsOf(units[0])] else rest
  }

  /** The addresses of the units that count. */
  function CountedAddresses(units: seq<Unit>): set<string> {
    set i | 0 <= i < |units| && OnRealApplication(units[i]) :: AddressOf(units[i])
  }

  /**
   * Addresses are distinct among the units that count, and the ids that are sorted together, all these
   * addresses and the groups of each unit, are consistent.
   */
  predicate Regular(units: seq<Unit>) {
    && (forall i, j :: 0 <= i < j < |units| && OnRealApplication(units[i]) && OnRealApplication(units[j]) ==>
          AddressOf(units[i]) != AddressOf(units[j]))
    && Consistent(CountedAddresses(units))
    && (forall i :: 0 <= i < |units| && OnRealApplication(units[i]) ==> Consistent(GroupsOf(units[i])))
  }

  /** No id contains what the signature separates ids with, and no group id is empty. */
  predicate Legible(units: seq<Unit>) {
    forall i :: 0 <= i < |units| && OnRealApplication(units[i]) ==>
      Plain(AddressOf(units[i])) && forall g :: g in GroupsOf(units[i]) ==> Plain(g) && g != []
  }

  predicate Plain(id: string) {
    ',' !in id && ':' !in id && '|' !in id
  }

  function Elements(s: seq<string>): set<string> {
    set x | x in s
  }

  // The ids collected for a unit are its groups, each once.

  predicate Distinct(s: seq<string>) {
    forall i, j :: 0 <= i < j < |s| ==> s[i] != s[j]
  }

  lemma {:induction false} AddGroupsAdds(s: seq<string>, groups: seq<Option<string>>)
    requires Distinct(s)
    ensures Distinct(AddGroups(s, groups)) && Elements(AddGroups(s, groups)) == Elements(s) + Addresses(groups)
    decreases |groups|
  {
    if groups != [] {
      AddGroupsAdds(if groups[0].Some? then Added(s, groups[0].value) else s, groups[1..]);
    }
  }

  lemma {:induction false} AddAppsAdds(s: seq<string>, apps: seq<App>)
    requires Distinct(s)
    ensures Distinct(AddApps(s, apps)) && Elements(AddApps(s, apps)) == Elements(s) + RealGroups(apps)
    decreases |apps|
  {
    if apps != [] {
      if IsReal(apps[0]) && apps[0].groups.Some? {
        AddGroupsAdds(s, apps[0].groups.value);
        AddAppsAdds(AddGroups(s, apps[0].groups.value), apps[1..]);
      } else {
        AddAppsAdds(s, apps[1..]);
      }
    }
  }

  lemma {:induction false} AddItemsAdds(s: seq<string>, items: seq<string>)
    requires Distinct(s)
    ensures Distinct(AddItems(s, items)) && Elements(AddItems(s, items)) == Elements(s) + Elements(items)
    decreases |items|
  {
    if items != [] {
      AddItemsAdds(Added(s, items[0]), items[1..]);
      assert Elements(items) == {items[0]} + Elements(items[1..]);
    }
  }

  lemma IdsAreGroups(u: Unit)
    requires OnRealApplication(u)
    ensures var ids := NonManagementGroupIds(u); ids.Some? && Distinct(ids.value) && Elements(ids.value) == GroupsOf(u)
  {
    hide OnRealApplication;
    if u.application.Structured? {
      AddAppsAdds([], u.application.apps);
    } else {
      AddItemsAdds([], GroupItems(u));
    }
  }

  // Sorting consistent ids.

  /** Strictly ascending. */
  predicate Ascending(s: seq<string>) {
    forall i, j :: 0 <= i < j < |s| ==> CompareTreeIds(s[i], s[j]) < 0
  }

  lemma ConsAscends(ids: set<string>, x: string, s: seq<string>)
    requires Consistent(ids) && x in ids && Elements(s) <= ids && Ascending(s)
    requires s != [] ==> CompareTreeIds(x, s[0]) < 0
    ensures Ascending([x] + s) && Elements([x] + s) == {x} + Elements(s)
  {
    hide CompareTreeIds, Consistent;
    assert forall i :: 0 <= i < |s| ==> s[i] in Elements(s);
    forall i | 0 <= i < |s| ensures CompareTreeIds(x, s[i]) < 0 {
      ConsistentOrder(ids, x, s[0], s[i]);
    }
  }

  lemma {:induction false} InsertIdAscends(ids: set<string>, x: string, s: seq<string>)
    requires Consistent(ids) && x in ids && Elements(s) <= ids && Ascending(s) && x !in s
    ensures Ascending(InsertId(x, s)) && Elements(InsertId(x, s)) == {x} + Elements(s)
  {
    hide CompareTreeIds, Consistent;
    if s == [] {
      ConsAscends(ids, x, s);
    } else {
      var first, rest := s[0], s[1..];
      assert s == [first] + rest && first in Elements(s) && Elements(s) == {first} + Elements(rest);
      ConsistentOrder(ids, x, first, first);
      if CompareTreeIds(x, first) <= 0 {
        ConsAscends(ids, x, s);
      } else {
        InsertIdAscends(ids, x, rest);
        var r := InsertId(x, rest);
        CompareIsAntisymmetric(first, x);
        assert r[0] in Elements(r);
        assert CompareTreeIds(first, r[0]) < 0;
        hide Ascending, Elements;
        ConsAscends(ids, first, r);
      }
    }
  }

  lemma {:induction false} SortIdsAscends(ids: set<string>, s: seq<string>)
    requires Consistent(ids) && Distinct(s) && Elements(s) <= ids
    ensures Ascending(SortIds(s)) && Elements(SortIds(s)) == Elements(s)
  {
    hide CompareTreeIds, Consistent;
    if s != [] {
      assert Elements(s) == {s[0]} + Elements(s[1..]);
      SortIdsAscends(ids, s[1..]);
      assert s[0] !in Elements(s[1..]);
      assert s[0] !in SortIds(s[1..]) by { assert s[0] !in Elements(SortIds(s[1..])); }
      InsertIdAscends(ids, s[0], SortIds(s[1..]));
    }
  }

  /** An ascending sequence is determined by its elements, so any correct sort gives the same result. */
  lemma {:induction false} AscendingIsUnique(a: seq<string>, b: seq<string>)
    requires Ascending(a) && Ascending(b) && Elements(a) == Elements(b)
    ensures a == b
  {
    hide CompareTreeIds;
    NoElements(a);
    NoElements(b);
    if a != [] {
      assert a[0] in Elements(a);
      assert b[0] in Elements(b);
      FirstIsLeast(a, b[0]);
      FirstIsLeast(b, a[0]);
      CompareIsAntisymmetric(a[0], b[0]);
      assert Elements(a[1..]) == Elements(a) - {a[0]} by { TailElements(a); }
      assert Elements(b[1..]) == Elements(b) - {b[0]} by { TailElements(b); }
      AscendingIsUnique(a[1..], b[1..]);
      assert a == [a[0]] + a[1..] && b == [b[0]] + b[1..];
    }
  }

  lemma NoElements(s: seq<string>)
    ensures Elements(s) == {} <==> s == []
  {
    assert s != [] ==> s[0] in Elements(s);
  }

  lemma FirstIsLeast(a: seq<string>, x: string)
    requires Ascending(a) && x in a
    ensures x == a[0] || CompareTreeIds(a[0], x) < 0
  {
  }

  lemma TailElements(a: seq<string>)
    requires Ascending(a) && a != []
    ensures Elements(a[1..]) == Elements(a) - {a[0]}
  {
    hide CompareTreeIds;
    CompareIsAntisymmetric(a[0], a[0]);
    assert forall i :: 1 <= i < |a| ==> a[i] != a[0];
  }

  /** Whatever order the ids of a subset are listed in, they are sorted the same. */
  ghost predicate OrderIsIrrelevant(ids: set<string>) {
    forall s, t :: Distinct(s) && Distinct(t) && Elements(s) == Elements(t) <= ids ==> SortIds(s) == SortIds(t)
  }

  /** Sorting with the comparator is independent of the order the ids come in if and only if they are consistent. */
  lemma OrderIsIrrelevantIff(ids: set<string>)
    ensures OrderIsIrrelevant(ids) <==> Consistent(ids)
  {
    hide SortIds, CompareTreeIds, Tied, Knotted;
    if Consistent(ids) {
      forall s, t | Distinct(s) && Distinct(t) && Elements(s) == Elements(t) <= ids ensures SortIds(s) == SortIds(t) {
        SortIdsAscends(ids, s);
        SortIdsAscends(ids, t);
        AscendingIsUnique(SortIds(s), SortIds(t));
      }
    } else if a, b :| a in ids && b in ids && Tied(a, b) {
      TieKeepsOrder(a, b);
      assert Elements([a, b]) == Elements([b, a]) <= ids;
    } else {
      var m, n, x :| m in ids && n in ids && x in ids && Knotted(m, n, x);
      KnotKeepsOrder(m, n, x);
      assert Elements([m, n, x]) == Elements([n, x, m]) <= ids;
    }
  }

  /** Both orders of a tie are left as they are. */
  lemma TieKeepsOrder(a: string, b: string)
    requires Tied(a, b)
    ensures Distinct([a, b]) && Distinct([b, a])
    ensures SortIds([a, b]) == [a, b] && SortIds([b, a]) == [b, a] && [a, b] != [b, a]
  {
    hide NumberOf;
    SortOfOne(a);
    SortOfOne(b);
    assert [a, b][1..] == [b] && [b, a][1..] == [a];
    assert [a, b][0] != [b, a][0];
  }

  lemma SortOfOne(a: string)
    ensures SortIds([a]) == [a]
  {
    assert [a][1..] == [];
  }

  /** Two orders of a knot are each left as they are. */
  lemma KnotKeepsOrder(m: string, n: string, x: string)
    requires Knotted(m, n, x)
    ensures Distinct([m, n, x]) && Distinct([n, x, m])
    ensures SortIds([m, n, x]) == [m, n, x] && SortIds([n, x, m]) == [n, x, m] && [m, n, x] != [n, x, m]
  {
    hide NumberOf;
    CycleIffKnotted(m, n, x);
    SortOfOne(x);
    SortOfOne(m);
    assert [m, n, x][1..] == [n, x] && [n, x][1..] == [x];
    assert [n, x, m][1..] == [x, m] && [x, m][1..] == [m];
    assert SortIds([n, x]) == [n, x] && SortIds([x, m]) == [x, m];
    assert [m, n, x][0] != [n, x, m][0];
  }

  /** Such a knot: as texts 10 comes before 1a and 1a before 2. */
  lemma MixedIdsGoInCircles()
    ensures Knotted("2", "10", "1a") && Cycle("2", "10", "1a")
  {
    assert Parse("2") == 2 by { assert "2"[..0] == ""; }
    assert Parse("10") == 10 by { assert "10"[..1] == "1" && "1"[..0] == ""; }
    assert "1a"[1] == 'a' && !IsDigit('a');
    assert TextBefore("10", "1a") by { assert "10"[1..] == "0" && "1a"[1..] == "a"; }
    CycleIffKnotted("2", "10", "1a");
  }
}
