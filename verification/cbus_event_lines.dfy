/**
 * Event lines beyond the plainest ones: addresses of any digits, and levels that follow other text.
 */
module CBusEventLines {
  import opened CBusEventRoundTrip
  import opened CBusEventSpec
  import opened Decimals
  import opened LineSpec
  import opened Options

  /** A line with anything, or nothing, behind its address. */
  function LineOf(deviceType: string, action: string, a: Address, tail: Option<string>): string {
    deviceType + " " + action + " " + AddressText(a) + if tail.Some? then " " + tail.value else ""
  }

  lemma {:induction false} DigitsHaveNo(s: string, ch: char)
    requires AllDigits(s) && !IsDigit(ch)
    ensures ch !in s
  {
    if s != [] {
      DigitsHaveNo(s[1..], ch);
    }
  }

  lemma PartsFound(a: Address)
    requires AllPartsDigits(a)
    ensures AddressIn(AddressText(a)) == Some(a) && ' ' !in AddressText(a) && AddressText(a) != []
  {
    var n, p, g := a.network, a.application, a.group;
    DigitsHaveNo(n, '/');
    DigitsHaveNo(p, '/');
    DigitsHaveNo(g, '/');
    DigitsHaveNo(n, ' ');
    DigitsHaveNo(p, ' ');
    DigitsHaveNo(g, ' ');
    var text := AddressText(a);
    assert text == n + ['/'] + (p + ['/'] + g);
    assert text[0] == n[0] && IsDigit(n[0]);
    CutJoined(n, '/', p + ['/'] + g);
    CutJoined(p, '/', g);
    CutWhole(g, '/');
    hide Cut;
  }

  lemma FastPathOf(deviceType: string, action: string, a: Address, tail: Option<string>)
    requires ' ' !in deviceType && ' ' !in action && deviceType != [] && action != [] && AllPartsDigits(a)
    ensures FastPath(LineOf(deviceType, action, a, tail)) ==
            if !InBounds(a) then None
            else Some(Parsed(Some(deviceType), Some(action), Some(AddressText(a)), Some(a),
                             if tail.Some? then LevelIn(tail.value) else None, true))
  {
    var text := AddressText(a);
    var rest := text + if tail.Some? then " " + tail.value else "";
    PartsFound(a);
    assert LineOf(deviceType, action, a, tail) == deviceType + [' '] + (action + [' '] + rest);
    CutJoined(deviceType, ' ', action + [' '] + rest);
    CutJoined(action, ' ', rest);
    if tail.Some? {
      assert rest == text + [' '] + tail.value;
      CutJoined(text, ' ', tail.value);
    } else {
      assert rest == text;
      CutWhole(text, ' ');
    }
    hide AddressIn, InBounds, Cut, LevelIn, AddressText, LineOf;
  }

  lemma LineStands(deviceType: string, action: string, a: Address, tail: Option<string>)
    requires IsWord(deviceType) && AllPartsDigits(a) && !("300" <= deviceType)
    requires tail.Some? ==> tail.value != [] && !IsSpace(tail.value[|tail.value| - 1])
    ensures var raw := LineOf(deviceType, action, a, tail); Trim(raw) == raw && raw != [] && !("300" <= raw)
  {
    var raw := LineOf(deviceType, action, a, tail);
    assert raw[0] == deviceType[0];
    assert raw[|raw| - 1] == if tail.Some? then tail.value[|tail.value| - 1] else a.group[|a.group| - 1];
    assert IsDigit(a.group[|a.group| - 1]);
    TrimNothing(raw);
    hide Trim;
    if |deviceType| >= 3 {
      assert raw[..3] == deviceType[..3];
    } else {
      assert raw[|deviceType|] == ' ' && "300"[|deviceType|] != ' ';
    }
  }

  lemma EventOf(deviceType: string, action: string, a: Address, tail: Option<string>)
    requires IsWord(deviceType) && IsWord(action) && !("300" <= deviceType) && AllPartsDigits(a)
    requires tail.Some? ==> tail.value != [] && !IsSpace(tail.value[|tail.value| - 1])
    ensures Event(LineOf(deviceType, action, a, tail), false, None) ==
            if !InBounds(a) then NOTHING
            else Parsed(Some(deviceType), Some(action), Some(AddressText(a)), Some(a),
                        if tail.Some? then LevelIn(tail.value) else None, true)
  {
    assert ' ' !in deviceType && ' ' !in action;
    FastPathOf(deviceType, action, a, tail);
    LineStands(deviceType, action, a, tail);
    hide InBounds, FastPath, StatusPath, AddressText, Trim, LineOf, LevelIn, IsWord, AllPartsDigits;
  }

  /**
   * Whatever digits the parts of an address are, leading zeros included: the event is valid exactly if
   * each part has at most three and their values are up to 254, 255 and 255; if not, nothing is set.
   */
  lemma PartsAreValidIff(deviceType: string, action: string, a: Address, tail: Option<string>)
    requires IsWord(deviceType) && IsWord(action) && !("300" <= deviceType) && AllPartsDigits(a)
    requires tail.Some? ==> tail.value != [] && !IsSpace(tail.value[|tail.value| - 1])
    ensures var p := Event(LineOf(deviceType, action, a, tail), false, None);
            && (p.valid <==> && |a.network| <= 3 && |a.application| <= 3 && |a.group| <= 3
                             && Parse(a.network) <= 254 && Parse(a.application) <= 255 && Parse(a.group) <= 255)
            && (!p.valid ==> p == Parsed(None, None, None, None, None, false))
  {
    EventOf(deviceType, action, a, tail);
    hide LineOf, Event, LevelIn, AddressText;
  }

  // Levels behind other text.

  lemma KeyFound(head: string, value: string)
    requires '=' !in head
    ensures After(head + " level=" + value, " level=") == Some(value)
  {
    var s, key := head + " level=" + value, " level=";
    assert s[|head|..|head| + 7] == key;
    forall j: nat | j < |head| ensures !OccursAt(s, key, j) {
      assert s[j + 6] == (head + " level")[j + 6] != '=';
      assert j + 7 <= |s| ==> s[j..j + 7][6] == s[j + 6];
    }
    FirstOccurrence(s, key, |head|);
    assert s[|head| + 7..] == value;
  }

  /** Behind a token that is no number, such as an identifier, the level is the one the key names. */
  lemma KeyedLevel(token: string, between: string, level: nat)
    requires token != [] && ' ' !in token && !AllDigits(token) && '=' !in token && '=' !in between
    requires between != [] ==> between[0] == ' '
    ensures LevelIn(token + between + " level=" + Print(level)) == Some(level)
  {
    var tail, more := token + between + " level=" + Print(level), between + " level=" + Print(level);
    assert tail == token + [' '] + more[1..];
    CutJoined(token, ' ', more[1..]);
    assert " " + tail == (" " + token + between) + " level=" + Print(level);
    KeyFound(" " + token + between, Print(level));
    PrintedLevel(level);
    hide Print, Cut, After;
  }

  /** The whole line: an event with an identifier between its address and its keyed level. */
  lemma KeyedLevelRoundTrip(deviceType: string, action: string, a: Address, token: string, between: string, level: nat)
    requires IsWord(deviceType) && IsWord(action) && !("300" <= deviceType) && AllPartsDigits(a) && InBounds(a)
    requires token != [] && ' ' !in token && !AllDigits(token) && '=' !in token && '=' !in between
    requires between != [] ==> between[0] == ' '
    ensures Event(LineOf(deviceType, action, a, Some(token + between + " level=" + Print(level))), false, None) ==
            Parsed(Some(deviceType), Some(action), Some(AddressText(a)), Some(a), Some(level), true)
  {
    var tail, digits := token + between + " level=" + Print(level), Print(level);
    ParsePrint(level);
    DigitsAreInk(digits);
    hide Print;
    assert tail[|tail| - 1] == digits[|digits| - 1];
    EventOf(deviceType, action, a, Some(tail));
    KeyedLevel(token, between, level);
    hide Event, LevelIn, InBounds, LineOf, AddressText;
  }

  lemma DigitsAreInk(digits: string)
    requires AllDigits(digits)
    ensures digits != [] ==> !IsSpace(digits[|digits| - 1])
  {
  }

  /** Without the key, the level is what digits the text begins with, if any. */
  lemma UnkeyedLevel(digits: string, after: string)
    requires AllDigits(digits) && (after != [] ==> !IsDigit(after[0])) && '=' !in after && ' ' !in after
    requires digits + after != []
    ensures LevelIn(digits + after) == if digits == [] then None else Some(Parse(digits))
  {
    var token := digits + after;
    DigitsHaveNo(digits, ' ');
    DigitsHaveNo(digits, '=');
    CutWhole(token, ' ');
    LeadingDigitsOf(digits, after);
    hide Cut;
    if after == [] {
      assert token == digits;
    } else {
      assert token[|digits|] == after[0];
      KeyNeedsEquals(" " + token);
    }
  }

  /**
   * A line the fast path cannot read, such as one with an odd number of spaces, is what the fallback
   * pattern makes of it, with the digits its level text begins with.
   */
  lemma FallbackFields(line: string, m: Match, digits: string, after: string)
    requires AllPartsDigits(m.address) && Trim(line) != [] && !("300" <= Trim(line)) && FastPath(Trim(line)) == None
    requires AllDigits(digits) && (after != [] ==> !IsDigit(after[0]))
    requires m.level == None || m.level == Some(digits + after)
    ensures var p := Event(line, false, Some(m));
            && p.deviceType == Some(m.deviceType) && p.action == Some(m.action)
            && p.address == Some(m.address.network + "/" + m.address.application + "/" + m.address.group)
            && p.level == (if m.level == None || digits == [] then None else Some(Parse(digits)))
            && (p.valid <==> InBounds(m.address)) && p.parts == if p.valid then Some(m.address) else None
  {
    LeadingDigitsOf(digits, after);
    hide InBounds, FastPath, StatusPath, Trim, AllPartsDigits;
  }

  lemma KeyNeedsEquals(s: string)
    ensures After(s, " level=").Some? ==> '=' in s
  {
    IndexOfIsFirst(s, " level=", 0);
    var i := IndexOf(s, " level=", 0);
    if i.Some? {
      assert s[i.value..i.value + 7][6] == s[i.value + 6];
    }
  }
}
