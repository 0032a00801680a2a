/**
 * Why searching a topic for `/cgateweb_{network}_` finds exactly the topics of one network: the
 * textual side of the OfNetwork test in DiscoverySpec.
 */
module DiscoveryNames {
  import opened Decimals
  import opened LineSpec

  const MARK := "/cgateweb_"
  const SUFFIX := "/config"

  predicate NoSlash(s: string) {
    '/' !in s
  }

  ghost predicate Includes(s: string, d: string) {
    exists i: nat :: OccursAt(s, d, i)
  }

  function EntityTopic(prefix: string, component: string, n: nat, rest: string): string {
    prefix + "/" + component + MARK + Print(n) + "_" + rest + SUFFIX
  }

  function StatusTopic(prefix: string, n: nat): string {
    prefix + "/" + "sensor" + MARK + "discovery_" + Print(n) + SUFFIX
  }

  function Marker(n: nat): string {
    MARK + Print(n) + "_"
  }

  /** Two numerals followed by an underscore agree on a common prefix only if they are equal. */
  lemma NumeralsEndAtUnderscore(m: string, n: string, x: string)
    requires AllDigits(m) && AllDigits(n)
    requires |n| + 1 <= |m| + 1 + |x| && (m + "_" + x)[..|n| + 1] == n + "_"
    ensures m == n
  {
    var t := m + "_" + x;
    assert t[|m|] == '_' && forall i :: 0 <= i < |m| ==> t[i] == m[i] != '_';
    assert forall i :: 0 <= i <= |n| ==> t[i] == t[..|n| + 1][i];
    assert t[|n|] == '_' && forall i :: 0 <= i < |n| ==> t[i] == n[i] != '_';
    assert |m| == |n|;
    assert m == t[..|m|] && n == t[..|n|];
  }

  lemma PrefixByChars(s: string, p: string)
    ensures p <= s <==> |p| <= |s| && forall k :: 0 <= k < |p| ==> s[k] == p[k]
  {
  }

  /** Starts with its only slash, as markers do. */
  predicate SlashFirst(d: string) {
    d != [] && d[0] == '/' && NoSlash(d[1..])
  }

  lemma OccursByChars(s: string, d: string, i: nat)
    ensures OccursAt(s, d, i) <==> i + |d| <= |s| && forall k :: i <= k < i + |d| ==> s[k] == d[k - i]
  {
    if i + |d| <= |s| {
      assert forall k :: i <= k < i + |d| ==> s[k] == s[i..i + |d|][k - i];
    }
  }

  lemma FoundLeft(a: string, b: string, d: string, i: nat)
    requires OccursAt(a, d, i)
    ensures OccursAt(a + b, d, i)
  {
    OccursByChars(a, d, i);
    OccursByChars(a + b, d, i);
  }

  lemma FoundRight(a: string, b: string, d: string, i: nat)
    requires i >= |a|
    ensures OccursAt(a + b, d, i) <==> OccursAt(b, d, i - |a|)
  {
    OccursByChars(b, d, i - |a|);
    OccursByChars(a + b, d, i);
    assert forall k :: i <= k < i + |d| && k < |a + b| ==> (a + b)[k] == b[k - |a|];
    assert forall k :: i - |a| <= k < i - |a| + |d| && k < |b| ==> b[k] == (a + b)[k + |a|];
  }

  /** An occurrence cannot run across a slash, so it lies before it or starts at it or after it. */
  lemma SlashSplits(a: string, b: string, d: string)
    requires SlashFirst(d)
    ensures Includes(a + ("/" + b), d) <==> Includes(a, d) || Includes("/" + b, d)
  {
    var s := a + ("/" + b);
    assert s[|a|] == '/';
    assert forall k :: 0 < k < |d| ==> d[k] == d[1..][k - 1] && d[k] != '/';
    if i: nat :| OccursAt(a, d, i) {
      FoundLeft(a, "/" + b, d, i);
    }
    if i: nat :| OccursAt("/" + b, d, i) {
      FoundRight(a, "/" + b, d, i + |a|);
    }
    if i: nat :| OccursAt(s, d, i) {
      OccursByChars(s, d, i);
      if i >= |a| {
        FoundRight(a, "/" + b, d, i);
      } else {
        OccursByChars(a, d, i);
        assert forall k :: 0 <= k < |a| ==> s[k] == a[k];
      }
    }
  }

  /** Behind a slash-free stretch an occurrence is the start of it all or lies in the rest. */
  lemma StartOrRest(y: string, rest: string, d: string)
    requires SlashFirst(d) && NoSlash(y)
    ensures Includes("/" + y + rest, d) <==> d <= "/" + y + rest || Includes(rest, d)
  {
    var s := "/" + y + rest;
    if d <= s {
      assert OccursAt(s, d, 0);
    }
    if i: nat :| OccursAt(rest, d, i) {
      FoundRight("/" + y, rest, d, i + 1 + |y|);
    }
    if i: nat :| OccursAt(s, d, i) {
      OccursByChars(s, d, i);
      assert s[i] == '/' && forall k :: 0 < k <= |y| ==> s[k] == y[k - 1] != '/';
      if i == 0 {
        PrefixByChars(s, d);
      } else {
        FoundRight("/" + y, rest, d, i);
      }
    }
  }

  lemma MarkerShape(n: nat)
    ensures var d := Marker(n);
            SlashFirst(d) && |d| > |SUFFIX| && d == MARK + (Print(n) + "_") && "/" + "cgateweb_" <= d
  {
    DigitsHaveNoSlash(Print(n));
    assert Marker(n)[1..] == "cgateweb_" + Print(n) + "_";
  }

  lemma DigitsHaveNoSlash(s: string)
    requires AllDigits(s)
    ensures NoSlash(s)
  {
  }

  /** A component of another name is not the start of a marker. */
  lemma ComponentIsNoMark(component: string, d: string)
    requires SlashFirst(d) && "/" + "cgateweb_" <= d && NoSlash(component) && !("cgateweb_" <= component)
    ensures !Includes("/" + component, d)
  {
    var s, mark := "/" + component, "cgateweb_";
    PrefixByChars(component, mark);
    PrefixByChars(d, "/" + mark);
    assert "/" + component + "" == s;
    hide Includes;
    StartOrRest(component, "", d);
    PrefixByChars(s, d);
    assert forall k :: 0 <= k < |component| ==> component[k] == s[k + 1];
    assert forall k :: 0 <= k < |mark| ==> mark[k] == ("/" + mark)[k + 1];
  }

  /** Between the prefix and the mark of its own a name includes no marker, nor in its suffix. */
  lemma NameSplits(prefix: string, component: string, middle: string, d: string)
    requires SlashFirst(d) && |d| > |SUFFIX| && "/" + "cgateweb_" <= d
    requires NoSlash(component) && !("cgateweb_" <= component)
    ensures Includes(prefix + ("/" + component) + ("/" + middle) + SUFFIX, d)
            <==> Includes(prefix, d) || Includes("/" + middle, d)
  {
    assert SUFFIX == "/" + "config" && !Includes(SUFFIX, d);
    hide Includes, SlashFirst, NoSlash;
    SlashSplits(prefix + ("/" + component) + ("/" + middle), "config", d);
    SlashSplits(prefix + ("/" + component), middle, d);
    SlashSplits(prefix, component, d);
    ComponentIsNoMark(component, d);
  }

  lemma MarkThenNumeral(m: nat, n: nat, rest: string)
    ensures Marker(n) <= Marker(m) + rest <==> m == n
  {
    hide Print, AllDigits;
    MarkerShape(m);
    MarkerShape(n);
    if Marker(n) <= Marker(m) + rest {
      var numeral, own := Print(m) + "_" + rest, Print(n) + "_";
      assert Marker(m) + rest == MARK + numeral;
      assert numeral[..|own|] == (MARK + numeral)[..|MARK + own|][|MARK|..] == (MARK + own)[|MARK|..] == own;
      NumeralsEndAtUnderscore(Print(m), Print(n), rest);
      PrintInjective(m, n);
    }
  }

  /**
   * An entity's topic carries the marker of its own network, and of another network exactly if the
   * configured prefix or the end of the unique id does.
   */
  lemma MarkerIsNetwork(prefix: string, component: string, m: nat, rest: string, n: nat)
    requires NoSlash(component) && !("cgateweb_" <= component)
    ensures Includes(EntityTopic(prefix, component, m, rest), Marker(n))
            <==> m == n || Includes(prefix, Marker(n)) || Includes(rest, Marker(n))
  {
    MarkerShape(m);
    MarkerShape(n);
    MarkThenNumeral(m, n, rest);
    var y := "cgateweb_" + Print(m) + "_";
    assert Marker(m)[1..] == y && Marker(m) == "/" + y;
    assert EntityTopic(prefix, component, m, rest) == prefix + ("/" + component) + ("/" + (y + rest)) + SUFFIX;
    assert "/" + (y + rest) == "/" + y + rest;
    hide EntityTopic, Print, Marker, Includes;
    NameSplits(prefix, component, y + rest, Marker(n));
    StartOrRest(y, rest, Marker(n));
  }

  /** The status sensor of a network carries no marker of its own, so it has to be retracted separately. */
  lemma StatusSensorHasNoMarker(prefix: string, m: nat, n: nat)
    ensures Includes(StatusTopic(prefix, m), Marker(n)) <==> Includes(prefix, Marker(n))
  {
    var d, middle := Marker(n), "cgateweb_discovery_" + Print(m);
    MarkerShape(n);
    DigitsHaveNoSlash(Print(m));
    assert StatusTopic(prefix, m) == prefix + ("/" + "sensor") + ("/" + middle) + SUFFIX;
    assert "/" + middle + "" == "/" + middle;
    assert ("/" + middle)[|MARK|] == 'd' && d[|MARK|] == Print(n)[0];
    hide StatusTopic, Print, Marker, Includes;
    NameSplits(prefix, "sensor", middle, d);
    StartOrRest(middle, "", d);
  }
}
