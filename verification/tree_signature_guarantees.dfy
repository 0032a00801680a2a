/** Equal signatures mean equal bindings, and the loops of the source compute the signature. */
module TreeSignatureGuarantees {
  import opened Decimals
  import opened Options
  import opened TreeData
  import opened TreeSignature

  // Entries in address order.

  predicate AllNormal(s: seq<Entry>) {
    forall i :: 0 <= i < |s| ==> Ascending(s[i].groups)
  }

  predicate AscendingEntries(s: seq<Entry>) {
    AllNormal(s) && forall i, j :: 0 <= i < j < |s| ==> CompareTreeIds(s[i].address, s[j].address) < 0
  }

  function AsMap(s: seq<Entry>): map<string, set<string>> {
    if s == [] then map[] else AsMap(s[1..])[s[0].address := Elements(s[0].groups)]
  }

  lemma {:induction false} AsMapKeys(s: seq<Entry>, a: string)
    ensures a in AsMap(s) <==> exists i :: 0 <= i < |s| && s[i].address == a
  {
    if s != [] {
      AsMapKeys(s[1..], a);
      if a in AsMap(s[1..]) {
        var i :| 0 <= i < |s| - 1 && s[1..][i].address == a;
        assert s[i + 1].address == a;
      }
      if i :| 0 <= i < |s| && s[i].address == a && i > 0 {
        assert s[1..][i - 1].address == a;
      }
    }
  }

  lemma ConsEntryAscends(ids: set<string>, x: Entry, s: seq<Entry>)
    requires Consistent(ids) && x.address in ids && AsMap(s).Keys <= ids && Ascending(x.groups) && AscendingEntries(s)
    requires s != [] ==> CompareTreeIds(x.address, s[0].address) < 0
    ensures AscendingEntries([x] + s) && AsMap([x] + s) == AsMap(s)[x.address := Elements(x.groups)]
  {
    hide CompareTreeIds, Consistent, Ascending, Elements;
    AddressesMapped(s);
    forall i | 0 <= i < |s| ensures CompareTreeIds(x.address, s[i].address) < 0 {
      ConsistentOrder(ids, x.address, s[0].address, s[i].address);
    }
    assert ([x] + s)[1..] == s;
  }

  lemma {:induction false} InsertEntryAscends(ids: set<string>, x: Entry, s: seq<Entry>)
    requires Consistent(ids) && x.address in ids && AsMap(s).Keys <= ids
    requires Ascending(x.groups) && AscendingEntries(s) && x.address !in AsMap(s)
    ensures AscendingEntries(InsertEntry(x, s))
    ensures AsMap(InsertEntry(x, s)) == AsMap(s)[x.address := Elements(x.groups)]
  {
    hide CompareTreeIds, Consistent, Ascending, Elements;
    if s == [] {
      ConsEntryAscends(ids, x, s);
    } else {
      var first, rest := s[0], s[1..];
      AddressesMapped(s);
      ConsistentOrder(ids, x.address, first.address, first.address);
      if CompareTreeIds(x.address, first.address) <= 0 {
        ConsEntryAscends(ids, x, s);
      } else {
        InsertEntryAscends(ids, x, rest);
        var r := InsertEntry(x, rest);
        CompareIsAntisymmetric(first.address, x.address);
        AddressesMapped(r);
        AsMapKeys(rest, r[0].address);
        assert CompareTreeIds(first.address, r[0].address) < 0;
        ConsEntryAscends(ids, first, r);
      }
    }
  }

  lemma AddressesMapped(s: seq<Entry>)
    ensures forall i :: 0 <= i < |s| ==> s[i].address in AsMap(s)
  {
    forall i | 0 <= i < |s| ensures s[i].address in AsMap(s) {
      AsMapKeys(s, s[i].address);
    }
  }

  predicate DistinctAddresses(s: seq<Entry>) {
    forall i, j :: 0 <= i < j < |s| ==> s[i].address != s[j].address
  }

  lemma {:induction false} SortEntriesAscends(ids: set<string>, s: seq<Entry>)
    requires Consistent(ids) && AsMap(s).Keys <= ids && AllNormal(s) && DistinctAddresses(s)
    ensures AscendingEntries(SortEntries(s)) && AsMap(SortEntries(s)) == AsMap(s)
  {
    hide CompareTreeIds, Consistent, Ascending, Elements;
    if s != [] {
      SortEntriesAscends(ids, s[1..]);
      AsMapKeys(s[1..], s[0].address);
      InsertEntryAscends(ids, s[0], SortEntries(s[1..]));
    }
  }

  lemma LeastAddress(a: seq<Entry>, x: string)
    requires AscendingEntries(a) && x in AsMap(a)
    ensures a != [] && (x == a[0].address || CompareTreeIds(a[0].address, x) < 0)
  {
    AsMapKeys(a, x);
    var i :| 0 <= i < |a| && a[i].address == x;
  }

  lemma TailMap(a: seq<Entry>)
    requires AscendingEntries(a) && a != []
    ensures AsMap(a[1..]) == AsMap(a) - {a[0].address}
  {
    hide CompareTreeIds;
    AsMapKeys(a[1..], a[0].address);
    CompareIsAntisymmetric(a[0].address, a[0].address);
    assert forall i :: 1 <= i < |a| ==> a[i].address != a[0].address;
  }

  lemma EmptyMap(s: seq<Entry>)
    ensures AsMap(s) == map[] <==> s == []
  {
    if s != [] {
      assert s[0].address in AsMap(s);
    }
  }

  /** Entries in ascending order are determined by the map they stand for. */
  lemma {:induction false} EntriesAreUnique(a: seq<Entry>, b: seq<Entry>)
    requires AscendingEntries(a) && AscendingEntries(b) && AsMap(a) == AsMap(b)
    ensures a == b
  {
    hide CompareTreeIds;
    if a == [] {
      EmptyMap(b);
    } else {
      assert a[0].address in AsMap(a);
      LeastAddress(b, a[0].address);
      assert b[0].address in AsMap(b);
      LeastAddress(a, b[0].address);
      CompareIsAntisymmetric(a[0].address, b[0].address);
      AscendingIsUnique(a[0].groups, b[0].groups);
      TailMap(a);
      TailMap(b);
      EntriesAreUnique(a[1..], b[1..]);
      assert a == [a[0]] + a[1..] && b == [b[0]] + b[1..];
    }
  }

  // From units to entries.

  lemma {:induction false} EntriesOwned(units: seq<Unit>)
    ensures forall i :: 0 <= i < |EntriesOf(units)| ==> Owned(units, EntriesOf(units)[i].address)
  {
    hide OnRealApplication, NonManagementGroupIds, SortIds;
    if units != [] {
      var rest := EntriesOf(units[1..]);
      EntriesOwned(units[1..]);
      forall i | 0 <= i < |rest| ensures Owned(units, rest[i].address) {
        OwnedLater(units, rest[i].address);
      }
      RealIffIds(units[0]);
    }
  }

  lemma EntryIsBinding(u: Unit)
    requires OnRealApplication(u) ==> Consistent(GroupsOf(u))
    ensures if OnRealApplication(u) then
              |EntryOf(u)| == 1 && EntryOf(u)[0].address == AddressOf(u)
              && Ascending(EntryOf(u)[0].groups) && Elements(EntryOf(u)[0].groups) == GroupsOf(u)
            else EntryOf(u) == []
  {
    hide OnRealApplication, NonManagementGroupIds, GroupsOf, Consistent, SortIds, Ascending;
    RealIffIds(u);
    if OnRealApplication(u) {
      IdsAreGroups(u);
      SortIdsAscends(GroupsOf(u), NonManagementGroupIds(u).value);
    }
  }

  lemma {:induction false} EntriesAreBindings(units: seq<Unit>)
    requires Regular(units)
    ensures var s := EntriesOf(units); AllNormal(s) && DistinctAddresses(s) && AsMap(s) == Bindings(units)
  {
    hide OnRealApplication, GroupsOf, Consistent, Ascending, EntryOf, Elements;
    if units != [] {
      var u, rest := units[0], EntriesOf(units[1..]);
      RegularTail(units);
      EntriesAreBindings(units[1..]);
      EntryIsBinding(u);
      if OnRealApplication(u) {
        EntriesOwned(units[1..]);
        forall i | 0 <= i < |rest| ensures rest[i].address != AddressOf(u) {
          assert Owned(units[1..], rest[i].address);
        }
        var e := EntryOf(u)[0];
        assert EntriesOf(units) == [e] + rest && ([e] + rest)[1..] == rest;
      } else {
        assert EntriesOf(units) == rest;
      }
    }
  }

  lemma ConsistentWithin(ids: set<string>, some: set<string>)
    requires Consistent(ids) && some <= ids
    ensures Consistent(some)
  {
  }

  lemma RegularTail(units: seq<Unit>)
    requires Regular(units) && units != []
    ensures Regular(units[1..])
  {
    var rest := units[1..];
    hide OnRealApplication, Consistent, GroupsOf;
    assert forall i :: 0 <= i < |rest| ==> rest[i] == units[i + 1];
    forall a | a in CountedAddresses(rest) ensures a in CountedAddresses(units) {
      var i :| 0 <= i < |rest| && OnRealApplication(rest[i]) && AddressOf(rest[i]) == a;
      assert OnRealApplication(units[i + 1]);
    }
    ConsistentWithin(CountedAddresses(units), CountedAddresses(rest));
  }

  ghost predicate Owned(units: seq<Unit>, a: string) {
    exists i :: 0 <= i < |units| && OnRealApplication(units[i]) && AddressOf(units[i]) == a
  }

  lemma OwnedLater(units: seq<Unit>, a: string)
    requires units != [] && Owned(units[1..], a)
    ensures Owned(units, a)
  {
    var i :| 0 <= i < |units| - 1 && OnRealApplication(units[1..][i]) && AddressOf(units[1..][i]) == a;
    assert units[i + 1] == units[1..][i];
  }

  lemma RealIffIds(u: Unit)
    ensures OnRealApplication(u) <==> NonManagementGroupIds(u).Some?
  {
  }

  lemma BindingsCounted(units: seq<Unit>)
    ensures Bindings(units).Keys <= CountedAddresses(units)
  {
    forall a | a in Bindings(units) ensures a in CountedAddresses(units) {
      BindingsOwned(units, a);
    }
  }

  // The text determines the entries.

  /** Nothing the text is built with occurs in the ids. */
  predicate Readable(e: Entry) {
    Plain(e.address) && forall g :: g in e.groups ==> Plain(g) && g != []
  }

  predicate AllReadable(s: seq<Entry>) {
    forall i :: 0 <= i < |s| ==> Readable(s[i])
  }

  lemma EntryText(e: Entry)
    requires Readable(e)
    ensures SplitOn(Text(e), ':') == [e.address, Join(e.groups, ',')]
    ensures '|' !in Text(e) && Text(e) != []
  {
    JoinHasNo(e.groups, ':');
    JoinHasNo(e.groups, '|');
    assert Text(e) == e.address + [':'] + Join(e.groups, ',');
    SplitPrefix(e.address, ':', Join(e.groups, ','));
    SplitWhole(Join(e.groups, ','), ':');
  }

  lemma {:induction false} JoinHasNo(parts: seq<string>, ch: char)
    requires (forall p :: p in parts ==> ch !in p) && ch != ','
    ensures ch !in Join(parts, ',')
  {
    if |parts| > 1 {
      JoinHasNo(parts[1..], ch);
    }
  }

  lemma TextInjective(e: Entry, f: Entry)
    requires Readable(e) && Readable(f) && Text(e) == Text(f)
    ensures e == f
  {
    EntryText(e);
    EntryText(f);
    assert [e.address, Join(e.groups, ',')][1] == [f.address, Join(f.groups, ',')][1];
    JoinInjective(e.groups, f.groups, ',');
  }

  lemma {:induction false} TextsInjective(a: seq<Entry>, b: seq<Entry>)
    requires AllReadable(a) && AllReadable(b) && Texts(a) == Texts(b)
    ensures a == b
  {
    hide Readable, Text;
    if a != [] && b != [] {
      assert Texts(a)[0] == Texts(b)[0];
      TextInjective(a[0], b[0]);
      assert Texts(a)[1..] == Texts(a[1..]) && Texts(b)[1..] == Texts(b[1..]);
      TextsInjective(a[1..], b[1..]);
      assert a == [a[0]] + a[1..] && b == [b[0]] + b[1..];
    }
  }

  lemma {:induction false} TextsAreClean(a: seq<Entry>)
    requires AllReadable(a)
    ensures forall t :: t in Texts(a) ==> '|' !in t && t != []
  {
    hide Readable, Text;
    if a != [] {
      EntryText(a[0]);
      TextsAreClean(a[1..]);
    }
  }

  /** What the sorted entries of a tree stand for. */
  lemma SortedEntries(units: seq<Unit>)
    requires Regular(units)
    ensures var s := SortEntries(EntriesOf(units)); AscendingEntries(s) && AsMap(s) == Bindings(units)
  {
    EntriesAreBindings(units);
    BindingsCounted(units);
    hide EntriesOf, Bindings, OnRealApplication, AllNormal, DistinctAddresses, AscendingEntries, Consistent;
    SortEntriesAscends(CountedAddresses(units), EntriesOf(units));
  }

  /** Entries sorted from legible trees can be read back from their texts. */
  lemma {:induction false} MapReadable(s: seq<Entry>, units: seq<Unit>)
    requires AscendingEntries(s) && Legible(units)
    requires forall a :: a in AsMap(s) ==> a in Bindings(units) && AsMap(s)[a] == Bindings(units)[a]
    ensures AllReadable(s)
  {
    forall i | 0 <= i < |s| ensures Readable(s[i]) {
      EntryMapped(s, i);
      BindingsLegible(units, s[i].address);
      assert forall g :: g in s[i].groups ==> g in Elements(s[i].groups);
    }
  }

  lemma {:induction false} EntryMapped(s: seq<Entry>, i: nat)
    requires AscendingEntries(s) && i < |s|
    ensures s[i].address in AsMap(s) && AsMap(s)[s[i].address] == Elements(s[i].groups)
  {
    hide CompareTreeIds;
    if i > 0 {
      EntryMapped(s[1..], i - 1);
      CompareIsAntisymmetric(s[0].address, s[0].address);
    }
  }

  lemma {:induction false} BindingsLegible(units: seq<Unit>, a: string)
    requires Legible(units) && a in Bindings(units)
    ensures Plain(a) && forall g :: g in Bindings(units)[a] ==> Plain(g) && g != []
  {
    hide OnRealApplication, GroupsOf, Plain;
    assert forall i :: 0 <= i < |units[1..]| ==> units[1..][i] == units[i + 1];
    if !(OnRealApplication(units[0]) && AddressOf(units[0]) == a) {
      BindingsLegible(units[1..], a);
    }
  }

  /** Equal bindings have equal signatures, whatever the shape and document order, if the ids are consistent. */
  lemma BindingsDecideSignature(t1: seq<Unit>, t2: seq<Unit>)
    requires Regular(t1) && Regular(t2) && Bindings(t1) == Bindings(t2)
    ensures Signature(t1) == Signature(t2)
  {
    hide Regular, EntriesOf, SortEntries, Bindings, AscendingEntries, AsMap, Texts, Join;
    SortedEntries(t1);
    SortedEntries(t2);
    EntriesAreUnique(SortEntries(EntriesOf(t1)), SortEntries(EntriesOf(t2)));
  }

  /**
   * Trees with distinct unit addresses and consistent, legible ids have equal signatures exactly when
   * they bind the same groups to the same addresses, in either shape and any document order.
   */
  lemma SignatureIffBindings(t1: seq<Unit>, t2: seq<Unit>)
    requires Regular(t1) && Regular(t2) && Legible(t1) && Legible(t2)
    ensures Signature(t1) == Signature(t2) <==> Bindings(t1) == Bindings(t2)
  {
    hide Regular, Legible, EntriesOf, SortEntries, Bindings, Join, AllReadable, AscendingEntries, Texts, AsMap;
    var a, b := SortEntries(EntriesOf(t1)), SortEntries(EntriesOf(t2));
    SortedEntries(t1);
    SortedEntries(t2);
    MapReadable(a, t1);
    MapReadable(b, t2);
    TextsAreClean(a);
    TextsAreClean(b);
    JoinInjective(Texts(a), Texts(b), '|');
    if Signature(t1) == Signature(t2) {
      TextsInjective(a, b);
    }
    if Bindings(t1) == Bindings(t2) {
      BindingsDecideSignature(t1, t2);
    }
  }

  /** The trees C-Gate sends: distinct addresses, and canonical decimals for all ids. */
  predicate Decimal(units: seq<Unit>) {
    && (forall i, j :: 0 <= i < j < |units| && OnRealApplication(units[i]) && OnRealApplication(units[j]) ==>
          AddressOf(units[i]) != AddressOf(units[j]))
    && (forall i :: 0 <= i < |units| && OnRealApplication(units[i]) ==>
          Canonical(AddressOf(units[i])) && forall g :: g in GroupsOf(units[i]) ==> Canonical(g))
  }

  lemma DecimalIsRegular(units: seq<Unit>)
    requires Decimal(units)
    ensures Regular(units) && Legible(units)
  {
    hide OnRealApplication, GroupsOf, Consistent;
    CanonicalIsConsistent(CountedAddresses(units));
    forall i | 0 <= i < |units| && OnRealApplication(units[i]) ensures Consistent(GroupsOf(units[i])) {
      CanonicalIsConsistent(GroupsOf(units[i]));
    }
  }

  // Document order.

  lemma {:induction false} BindingsHas(units: seq<Unit>, u: Unit)
    requires Regular(units) && u in units && OnRealApplication(u)
    ensures AddressOf(u) in Bindings(units) && Bindings(units)[AddressOf(u)] == GroupsOf(u)
  {
    hide OnRealApplication, GroupsOf, Consistent;
    if units[0] != u {
      assert u in units[1..];
      var i :| 0 <= i < |units| && units[i] == u;
      RegularTail(units);
      BindingsHas(units[1..], u);
    }
  }

  lemma {:induction false} BindingsOwned(units: seq<Unit>, a: string)
    requires a in Bindings(units)
    ensures Owned(units, a)
  {
    hide OnRealApplication, GroupsOf;
    if !(OnRealApplication(units[0]) && AddressOf(units[0]) == a) {
      BindingsOwned(units[1..], a);
      OwnedLater(units, a);
    }
  }

  lemma BindingsInclude(t1: seq<Unit>, t2: seq<Unit>)
    requires Regular(t1) && Regular(t2) && forall u :: u in t1 ==> u in t2
    ensures forall a :: a in Bindings(t1) ==> a in Bindings(t2) && Bindings(t1)[a] == Bindings(t2)[a]
  {
    hide Regular, Bindings, GroupsOf, OnRealApplication;
    forall a | a in Bindings(t1)
      ensures a in Bindings(t2) && Bindings(t1)[a] == Bindings(t2)[a]
    {
      BindingsOwned(t1, a);
      var i :| 0 <= i < |t1| && OnRealApplication(t1[i]) && AddressOf(t1[i]) == a;
      BindingsHas(t1, t1[i]);
      BindingsHas(t2, t1[i]);
    }
  }

  /** Listing the same units in another order leaves the signature as it is. */
  lemma UnitOrderDoesNotMatter(t1: seq<Unit>, t2: seq<Unit>)
    requires Regular(t1) && Regular(t2) && forall u :: u in t1 <==> u in t2
    ensures Signature(t1) == Signature(t2)
  {
    hide Regular, Signature, Bindings;
    BindingsInclude(t1, t2);
    BindingsInclude(t2, t1);
    assert Bindings(t1) == Bindings(t2);
    BindingsDecideSignature(t1, t2);
  }

  function Somes(ids: seq<string>): seq<Option<string>> {
    if ids == [] then [] else [Some(ids[0])] + Somes(ids[1..])
  }

  /** A tree of one unit that carries these groups on lighting, in this order. */
  function OneUnit(address: string, ids: seq<string>): Unit {
    Unit(Some(address), None, None, Structured([App(Some("56"), Some(Somes(ids)))]), None)
  }

  lemma {:induction false} AddedInOrder(s: seq<string>, ids: seq<string>)
    requires Distinct(s + ids)
    ensures AddGroups(s, Somes(ids)) == s + ids && Addresses(Somes(ids)) == Elements(ids)
    decreases |ids|
  {
    if ids == [] {
      assert s + ids == s;
    } else {
      var x, rest := ids[0], ids[1..];
      assert x == (s + ids)[|s|] && forall i :: 0 <= i < |s| ==> s[i] == (s + ids)[i];
      assert s + [x] + rest == s + ids && Somes(ids)[1..] == Somes(rest);
      AddedInOrder(s + [x], rest);
      assert Elements(ids) == {x} + Elements(rest);
    }
  }

  lemma OneUnitIds(address: string, ids: seq<string>)
    requires Distinct(ids)
    ensures var u := OneUnit(address, ids);
            OnRealApplication(u) && NonManagementGroupIds(u) == Some(ids) && GroupsOf(u) == Elements(ids)
  {
    var apps := [App(Some("56"), Some(Somes(ids)))];
    assert IsReal(apps[0]) && apps[1..] == [] && [] + ids == ids;
    AddedInOrder([], ids);
    assert AddApps([], apps) == AddApps(AddGroups([], Somes(ids)), []);
    assert RealGroups(apps) == Addresses(Somes(ids)) + RealGroups([]);
  }

  lemma SignatureOfOne(u: Unit, ids: seq<string>)
    requires NonManagementGroupIds(u) == Some(ids)
    ensures Signature([u]) == AddressOf(u) + ":" + Join(SortIds(ids), ',')
  {
    var e := Entry(AddressOf(u), SortIds(ids));
    assert [u][1..] == [] && [e][1..] == [];
    assert EntriesOf([u]) == EntryOf(u) + EntriesOf([]) == [e];
    assert SortEntries([e]) == InsertEntry(e, SortEntries([])) == [e];
    assert Texts([e]) == [Text(e)] + Texts([]) == [Text(e)];
  }

  /**
   * The fingerprint of a single unit: its unit address, else its address, else nothing; a colon; and its
   * ids in their order, separated by commas. A unit on no real application leaves no trace.
   */
  lemma FingerprintOfUnit(u: Unit)
    ensures var ids := NonManagementGroupIds(u);
            var address := if u.unitAddress.Some? then u.unitAddress.value
                           else if u.address.Some? then u.address.value else "";
            Signature([u]) == if ids.Some? then address + ":" + Join(SortIds(ids.value), ',') else ""
  {
    var ids := NonManagementGroupIds(u);
    if ids.Some? {
      SignatureOfOne(u, ids.value);
    } else {
      assert [u][1..] == [];
      assert EntriesOf([u]) == EntryOf(u) + EntriesOf([]) == [];
      assert Texts(SortEntries([])) == [];
    }
    hide NonManagementGroupIds, SortIds;
  }

  lemma {:induction false} InsertIdElements(x: string, s: seq<string>)
    ensures Elements(InsertId(x, s)) == {x} + Elements(s)
  {
    if s != [] {
      InsertIdElements(x, s[1..]);
      assert Elements(s) == {s[0]} + Elements(s[1..]);
      assert Elements([s[0]] + InsertId(x, s[1..])) == {s[0]} + Elements(InsertId(x, s[1..]));
    }
  }

  lemma {:induction false} SortIdsElements(s: seq<string>)
    ensures Elements(SortIds(s)) == Elements(s)
  {
    if s != [] {
      SortIdsElements(s[1..]);
      InsertIdElements(s[0], SortIds(s[1..]));
      assert Elements(s) == {s[0]} + Elements(s[1..]);
    }
  }

  predicate PlainIds(ids: set<string>) {
    forall g :: g in ids ==> Plain(g) && g != []
  }

  /**
   * Two listings of the same groups are the same bindings, and have one signature exactly if they are
   * sorted the same.
   */
  lemma OneUnitSignature(address: string, s: seq<string>, t: seq<string>)
    requires Distinct(s) && Distinct(t) && Elements(s) == Elements(t) && PlainIds(Elements(s))
    ensures var u, v := OneUnit(address, s), OneUnit(address, t);
            && Bindings([u]) == Bindings([v])
            && (Signature([u]) == Signature([v]) <==> SortIds(s) == SortIds(t))
  {
    var u, v := OneUnit(address, s), OneUnit(address, t);
    OneUnitIds(address, s);
    OneUnitIds(address, t);
    assert [u][1..] == [] && [v][1..] == [];
    assert Bindings([u]) == Bindings([v]);
    hide OnRealApplication, NonManagementGroupIds, GroupsOf, SortIds, Bindings, Signature, Distinct, Plain;
    SignatureOfOne(u, s);
    SignatureOfOne(v, t);
    SortIdsElements(s);
    SortIdsElements(t);
    forall p | p in SortIds(s) || p in SortIds(t) ensures ',' !in p && p != [] {
      assert p in Elements(SortIds(s)) || p in Elements(SortIds(t));
      PlainHasNoComma(p);
    }
    JoinInjective(SortIds(s), SortIds(t), ',');
    var head := address + ":";
    assert (head + Join(SortIds(s), ','))[|head|..] == Join(SortIds(s), ',');
    assert (head + Join(SortIds(t), ','))[|head|..] == Join(SortIds(t), ',');
  }

  lemma PlainHasNoComma(id: string)
    requires Plain(id)
    ensures ',' !in id
  {
  }

  /** However a unit lists groups of this set, the signature depends on which they are only. */
  ghost predicate SignatureIgnoresOrder(address: string, ids: set<string>) {
    forall s, t :: Distinct(s) && Distinct(t) && Elements(s) == Elements(t) <= ids ==>
                     Signature([OneUnit(address, s)]) == Signature([OneUnit(address, t)])
  }

  /**
   * For legible ids the signature is a function of the bindings if and only if they are consistent: a
   * knot, or two spellings of one number, gives the same bindings two signatures.
   */
  lemma SignatureIgnoresOrderIff(address: string, ids: set<string>)
    requires PlainIds(ids)
    ensures SignatureIgnoresOrder(address, ids) <==> Consistent(ids)
  {
    hide Distinct, Consistent, SortIds, Signature, Plain;
    OrderIsIrrelevantIff(ids);
    forall s, t | Distinct(s) && Distinct(t) && Elements(s) == Elements(t) <= ids
      ensures Signature([OneUnit(address, s)]) == Signature([OneUnit(address, t)]) <==> SortIds(s) == SortIds(t)
    {
      OneUnitSignature(address, s, t);
    }
    hide OneUnit, Elements;
  }

  // The loops.

  method CollectNonManagementGroupIds(u: Unit) returns (ids: Option<seq<string>>)
    ensures ids == NonManagementGroupIds(u)
  {
    if u.application.Structured? {
      var apps, hasRealApp, groupIds := u.application.apps, false, [];
      assert apps[0..] == apps;
      for i := 0 to |apps|
        invariant AddApps(groupIds, apps[i..]) == AddApps([], apps)
        invariant hasRealApp <==> exists k :: 0 <= k < i && IsReal(apps[k])
      {
        assert apps[i..][1..] == apps[i + 1..];
        if IsReal(apps[i]) {
          hasRealApp := true;
          if apps[i].groups.Some? {
            groupIds := CollectGroups(groupIds, apps[i].groups.value);
          }
        }
      }
      return if hasRealApp then Some(groupIds) else None;
    }
    if !OnRealApplication(u) {
      return None;
    }
    var items, groupIds := GroupItems(u), [];
    assert items[0..] == items;
    for i := 0 to |items|
      invariant AddItems(groupIds, items[i..]) == AddItems([], items)
    {
      assert items[i..][1..] == items[i + 1..];
      groupIds := Added(groupIds, items[i]);
    }
    return Some(groupIds);
  }

  method CollectGroups(ids: seq<string>, groups: seq<Option<string>>) returns (r: seq<string>)
    ensures r == AddGroups(ids, groups)
  {
    r := ids;
    assert groups[0..] == groups;
    for i := 0 to |groups|
      invariant AddGroups(r, groups[i..]) == AddGroups(ids, groups)
    {
      assert groups[i..][1..] == groups[i + 1..];
      if groups[i].Some? {
        r := Added(r, groups[i].value);
      }
    }
  }

  lemma {:induction false} EntriesAppend(a: seq<Unit>, b: seq<Unit>)
    ensures EntriesOf(a + b) == EntriesOf(a) + EntriesOf(b)
  {
    if a == [] {
      assert a + b == b;
    } else {
      hide EntryOf;
      assert (a + b)[1..] == a[1..] + b;
      EntriesAppend(a[1..], b);
    }
  }

  method TreeGroupSignature(units: seq<Unit>) returns (signature: string)
    ensures signature == Signature(units)
  {
    var entries: seq<Entry> := [];
    for i := 0 to |units|
      invariant entries == EntriesOf(units[..i])
    {
      hide NonManagementGroupIds, SortIds;
      EntriesAppend(units[..i], [units[i]]);
      assert units[..i + 1] == units[..i] + [units[i]] && [units[i]][1..] == [];
      var groupIds := CollectNonManagementGroupIds(units[i]);
      if groupIds.Some? {
        entries := entries + [Entry(AddressOf(units[i]), SortIds(groupIds.value))];
      }
    }
    assert units[..|units|] == units;
    signature := Join(Texts(SortEntries(entries)), '|');
  }
}
