/**
 * The parsed TREEXML shapes src/haDiscoveryTree.js reads. A unit lists its applications either as
 * objects with group nodes or as a comma-separated text beside a comma-separated group text.
 */
module TreeData {
  import opened LineSpec
  import opened Options

  /** `groups` is absent when the application has no Group node; a group may lack its address. */
  datatype App = App(address: Option<string>, groups: Option<seq<Option<string>>>)

  datatype Application = NoApplication | Structured(apps: seq<App>) | Flat(text: string)

  datatype Unit = Unit(
    unitAddress: Option<string>,
    address: Option<string>,
    unitType: Option<string>,
    application: Application,
    groups: Option<string>)

  const MANAGEMENT_APP := "255"

  function SplitOn(s: string, ch: char): (parts: seq<string>)
    ensures parts != []
  {
    if s == [] then [[]]
    else
      var rest := SplitOn(s[1..], ch);
      if s[0] == ch then [[]] + rest else [[s[0]] + rest[0]] + rest[1..]
  }

  function Join(parts: seq<string>, ch: char): string {
    if parts == [] then []
    else if |parts| == 1 then parts[0]
    else parts[0] + [ch] + Join(parts[1..], ch)
  }

  function TrimmedItems(parts: seq<string>): seq<string> {
    if parts == [] then []
    else
      var item := Trim(parts[0]);
      (if item == [] then [] else [item]) + TrimmedItems(parts[1..])
  }

  /** `text.split(',').map(trim).filter(Boolean)`. */
  function Items(text: string): seq<string> {
    TrimmedItems(SplitOn(text, ','))
  }

  function GroupItems(u: Unit): seq<string> {
    match u.groups
    case Some(text) => Items(text)
    case None => []
  }

  function AppItems(u: Unit): seq<string>
    requires !u.application.Structured?
  {
    match u.application
    case Flat(text) => Items(text)
    case NoApplication => []
  }

  /** An application object that has an address and is not the management application. */
  predicate IsReal(a: App) {
    a.address.Some? && a.address.value != MANAGEMENT_APP
  }

  /** The unit takes part in an application other than network management. */
  predicate OnRealApplication(u: Unit) {
    if u.application.Structured? then exists i :: 0 <= i < |u.application.apps| && IsReal(u.application.apps[i])
    else exists i :: 0 <= i < |AppItems(u)| && AppItems(u)[i] != MANAGEMENT_APP
  }

  // Splitting inverts joining.

  lemma {:induction false} SplitPrefix(s: string, ch: char, t: string)
    requires ch !in s
    ensures SplitOn(s + [ch] + t, ch) == [s] + SplitOn(t, ch)
  {
    if s == [] {
      assert s + [ch] + t == [ch] + t;
      assert ([ch] + t)[1..] == t;
    } else {
      var whole := s + [ch] + t;
      SplitPrefix(s[1..], ch, t);
      assert whole[1..] == s[1..] + [ch] + t;
      assert s == [s[0]] + s[1..];
      assert ([s[1..]] + SplitOn(t, ch))[1..] == SplitOn(t, ch);
    }
  }

  lemma {:induction false} SplitWhole(s: string, ch: char)
    requires ch !in s
    ensures SplitOn(s, ch) == [s]
  {
    if s != [] {
      SplitWhole(s[1..], ch);
      assert s == [s[0]] + s[1..];
    }
  }

  lemma {:induction false} SplitOfJoin(parts: seq<string>, ch: char)
    requires parts != [] && forall p :: p in parts ==> ch !in p
    ensures SplitOn(Join(parts, ch), ch) == parts
  {
    if |parts| == 1 {
      SplitWhole(parts[0], ch);
    } else {
      SplitOfJoin(parts[1..], ch);
      SplitPrefix(parts[0], ch, Join(parts[1..], ch));
      assert parts == [parts[0]] + parts[1..];
    }
  }

  /** Joined texts determine their parts, when no part is empty or contains the separator. */
  lemma JoinInjective(a: seq<string>, b: seq<string>, ch: char)
    requires forall p :: p in a || p in b ==> ch !in p && p != []
    ensures Join(a, ch) == Join(b, ch) <==> a == b
  {
    JoinEmpty(a, ch);
    JoinEmpty(b, ch);
    if a != [] && b != [] {
      SplitOfJoin(a, ch);
      SplitOfJoin(b, ch);
    }
  }

  lemma JoinEmpty(a: seq<string>, ch: char)
    requires forall p :: p in a ==> p != []
    ensures Join(a, ch) == [] <==> a == []
  {
    if a != [] {
      assert a[0] in a;
    }
  }

  // What the flat lists hold.

  lemma {:induction false} TrimmedAre(parts: seq<string>, items: seq<string>)
    requires |parts| == |items|
    requires forall i :: 0 <= i < |parts| ==> Trim(parts[i]) == items[i] && items[i] != []
    ensures TrimmedItems(parts) == items
  {
    hide Trim;
    if parts != [] {
      TrimmedAre(parts[1..], items[1..]);
      assert items == [items[0]] + items[1..];
    }
  }

  /** A comma-separated list, with whatever white space around its items, is read as those items in order. */
  lemma ItemsRoundTrip(padded: seq<string>, items: seq<string>)
    requires |padded| == |items| > 0
    requires forall i :: 0 <= i < |padded| ==> Trim(padded[i]) == items[i] && items[i] != [] && ',' !in padded[i]
    ensures Items(Join(padded, ',')) == items
  {
    hide Trim, Join, SplitOn;
    SplitOfJoin(padded, ',');
    TrimmedAre(padded, items);
  }

  lemma {:induction false} TrimmedAppend(a: seq<string>, b: seq<string>)
    ensures TrimmedItems(a + b) == TrimmedItems(a) + TrimmedItems(b)
  {
    hide Trim;
    if a == [] {
      assert a + b == b;
    } else {
      assert (a + b)[0] == a[0] && (a + b)[1..] == a[1..] + b;
      TrimmedAppend(a[1..], b);
    }
  }

  /** A place left blank between commas is no item. */
  lemma BlankIsNoItem(before: seq<string>, blank: string, after: seq<string>)
    requires AllSpace(blank) && ',' !in blank && before + after != []
    requires forall p :: p in before + after ==> ',' !in p
    ensures Items(Join(before + [blank] + after, ',')) == Items(Join(before + after, ','))
  {
    assert forall p :: p in before + [blank] + after ==> p == blank || p in before + after;
    SplitOfJoin(before + [blank] + after, ',');
    SplitOfJoin(before + after, ',');
    BlankTrimmedAway(before, blank, after);
    hide TrimmedItems, Join, SplitOn, AllSpace;
  }

  lemma BlankTrimmedAway(before: seq<string>, blank: string, after: seq<string>)
    requires AllSpace(blank)
    ensures TrimmedItems(before + [blank] + after) == TrimmedItems(before + after)
  {
    TrimmedAwayIffSpace(blank);
    assert TrimmedItems([blank]) == [] by {
      assert [blank][1..] == [];
    }
    TrimmedAppend(before + [blank], after);
    TrimmedAppend(before, [blank]);
    TrimmedAppend(before, after);
    hide TrimmedItems;
    assert TrimmedItems(before) + [] == TrimmedItems(before);
  }

  /** Application 255 is the one that does not count. */
  lemma RealIsNotManagement(u: Unit)
    ensures u.application.Flat? ==> (OnRealApplication(u) <==> exists item :: item in Items(u.application.text)
                                                                             && item != "255")
    ensures forall a: App :: IsReal(a) <==> a.address.Some? && a.address.value != "255"
    ensures u.application.NoApplication? ==> !OnRealApplication(u)
  {
    hide Items;
    if u.application.Flat? {
      var items := AppItems(u);
      assert items == Items(u.application.text);
      if item :| item in items && item != "255" {
        var i :| 0 <= i < |items| && items[i] == item;
        assert items[i] != MANAGEMENT_APP;
      }
      if i :| 0 <= i < |items| && items[i] != MANAGEMENT_APP {
        assert items[i] in Items(u.application.text) && items[i] != "255";
      }
    }
  }
}
