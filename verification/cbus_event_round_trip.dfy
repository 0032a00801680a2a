/** Printing a C-Gate line and parsing it back gives the address and level it was printed from. */
module CBusEventRoundTrip {
  import opened CBusEventSpec
  import opened Decimals
  import opened LineSpec
  import opened Options

  function PrintedAddress(n: nat, a: nat, g: nat): Address {
    Address(Print(n), Print(a), Print(g))
  }

  /** The address as C-Gate writes it, with or without its project. */
  function AddressToken(project: Option<string>, n: nat, a: nat, g: nat): string {
    (if project.Some? then "//" + project.value + "/" else "") + AddressText(PrintedAddress(n, a, g))
  }

  function Suffix(level: Option<nat>): string {
    if level.Some? then " " + Print(level.value) else ""
  }

  function TokenLine(deviceType: string, action: string, token: string, level: Option<nat>): string {
    deviceType + " " + action + " " + token + Suffix(level)
  }

  function EventLine(deviceType: string, action: string, project: Option<string>, n: nat, a: nat, g: nat,
                     level: Option<nat>): string
  {
    TokenLine(deviceType, action, AddressToken(project, n, a, g), level)
  }

  function StatusText(code: string, region: string, digits: string): string {
    code + region + ": level=" + digits
  }

  function Region(project: string, n: nat, a: nat, g: nat): string {
    "//" + project + "/" + AddressText(PrintedAddress(n, a, g))
  }

  function StatusLine(code: string, project: string, n: nat, a: nat, g: nat, level: nat): string {
    StatusText(code, Region(project, n, a, g), Print(level))
  }

  predicate IsWord(s: string) {
    s != [] && forall i :: 0 <= i < |s| ==> !IsSpace(s[i])
  }

  lemma SmallPrintsShort(n: nat)
    requires n <= 255
    ensures |Print(n)| <= 3
  {
    if n >= 10 {
      var m := n / 10;
      assert |Print(n)| == |Print(m)| + 1;
      if m >= 10 {
        assert |Print(m)| == |Print(m / 10)| + 1;
        assert m / 10 < 10;
      }
    }
  }

  lemma PrintedInBounds(n: nat, a: nat, g: nat)
    ensures InBounds(PrintedAddress(n, a, g)) <==> n <= 254 && a <= 255 && g <= 255
  {
    if n <= 254 && a <= 255 && g <= 255 {
      SmallPrintsShort(n);
      SmallPrintsShort(a);
      SmallPrintsShort(g);
    }
    ParsePrint(n);
    ParsePrint(a);
    ParsePrint(g);
  }

  lemma PrintHas(n: nat, ch: char)
    requires !IsDigit(ch)
    ensures ch !in Print(n)
  {
  }

  lemma ProjectDropped(project: string, text: string)
    requires '/' !in project
    ensures WithoutProject("//" + project + "/" + text) == text
  {
    var token := "//" + project + "/" + text;
    assert token == "//" + (project + ['/'] + text);
    assert token[..2] == "//" && token[2..] == project + ['/'] + text;
    CutJoined(project, '/', text);
  }

  lemma TextRoundTrip(token: string, n: nat, a: nat, g: nat)
    requires WithoutProject(token) == AddressText(PrintedAddress(n, a, g))
    ensures AddressIn(token) == Some(PrintedAddress(n, a, g))
  {
    PrintHas(n, '/');
    PrintHas(a, '/');
    PrintHas(g, '/');
    hide Print, WithoutProject;
    assert AddressText(PrintedAddress(n, a, g)) == Print(n) + ['/'] + (Print(a) + ['/'] + Print(g));
    CutJoined(Print(n), '/', Print(a) + ['/'] + Print(g));
    CutJoined(Print(a), '/', Print(g));
    CutWhole(Print(g), '/');
  }

  lemma TokenRoundTrip(project: Option<string>, n: nat, a: nat, g: nat)
    requires project.Some? ==> '/' !in project.value
    ensures AddressIn(AddressToken(project, n, a, g)) == Some(PrintedAddress(n, a, g))
  {
    hide Print, AddressIn;
    var text, token := AddressText(PrintedAddress(n, a, g)), AddressToken(project, n, a, g);
    if project.Some? {
      ProjectDropped(project.value, text);
    } else {
      assert token == text && text[0] == Print(n)[0] && IsDigit(Print(n)[0]);
    }
    TextRoundTrip(token, n, a, g);
  }

  predicate IsProject(s: string) {
    '/' !in s && ' ' !in s
  }

  lemma TokenHasNoSpace(project: Option<string>, n: nat, a: nat, g: nat)
    requires project.Some? ==> IsProject(project.value)
    ensures ' ' !in AddressToken(project, n, a, g) && AddressToken(project, n, a, g) != []
  {
    PrintHas(n, ' ');
    PrintHas(a, ' ');
    PrintHas(g, ' ');
    hide Print;
  }

  lemma FastParts(deviceType: string, action: string, token: string, level: Option<nat>)
    requires ' ' !in deviceType && ' ' !in action && ' ' !in token && deviceType != [] && action != []
    requires AddressIn(token).Some? && InBounds(AddressIn(token).value)
    ensures var a := AddressIn(token);
            FastPath(TokenLine(deviceType, action, token, level)) ==
            Some(Parsed(Some(deviceType), Some(action), Some(AddressText(a.value)), a, level, true))
  {
    var rest := token + Suffix(level);
    var raw := TokenLine(deviceType, action, token, level);
    assert raw == deviceType + [' '] + (action + [' '] + rest);
    CutJoined(deviceType, ' ', action + [' '] + rest);
    CutJoined(action, ' ', rest);
    TokenCut(token, level);
    hide AddressIn, InBounds, Cut, LevelIn, AddressText, Suffix, TokenLine;
  }

  /** Behind the address comes nothing, or exactly the level. */
  lemma TokenCut(token: string, level: Option<nat>)
    requires ' ' !in token
    ensures var (t, r) := Cut(token + Suffix(level), ' ');
            t == token && (if r.Some? then LevelIn(r.value) else None) == level
  {
    if level.Some? {
      PrintedLevel(level.value);
      PrintHas(level.value, ' ');
      hide Print;
      assert token + Suffix(level) == token + [' '] + Print(level.value);
      CutJoined(token, ' ', Print(level.value));
      CutWhole(Print(level.value), ' ');
    } else {
      assert token + Suffix(level) == token;
      CutWhole(token, ' ');
    }
  }

  lemma LineIsTrimmed(deviceType: string, action: string, token: string, level: Option<nat>)
    requires IsWord(deviceType) && token != [] && IsDigit(token[|token| - 1])
    ensures var raw := TokenLine(deviceType, action, token, level); Trim(raw) == raw && raw != []
  {
    var raw := TokenLine(deviceType, action, token, level);
    assert raw[0] == deviceType[0];
    assert raw[|raw| - 1] == if level.Some? then Print(level.value)[|Print(level.value)| - 1] else token[|token| - 1];
    TrimNothing(raw);
  }

  lemma LineIsNoStatus(deviceType: string, action: string, token: string, level: Option<nat>)
    requires !(STATUS_CODE <= deviceType)
    ensures !(STATUS_CODE <= TokenLine(deviceType, action, token, level))
  {
    var raw := TokenLine(deviceType, action, token, level);
    if |deviceType| >= 3 {
      assert raw[..3] == deviceType[..3];
    } else {
      assert raw[|deviceType|] == ' ' != STATUS_CODE[|deviceType|];
    }
  }

  lemma TokenEvent(deviceType: string, action: string, token: string, level: Option<nat>, m: Option<Match>)
    requires m.Some? ==> AllPartsDigits(m.value.address)
    requires IsWord(deviceType) && IsWord(action) && !(STATUS_CODE <= deviceType)
    requires ' ' !in token && token != [] && IsDigit(token[|token| - 1])
    requires AddressIn(token).Some? && InBounds(AddressIn(token).value)
    ensures var a := AddressIn(token);
            Event(TokenLine(deviceType, action, token, level), false, m) ==
            Parsed(Some(deviceType), Some(action), Some(AddressText(a.value)), a, level, true)
  {
    assert ' ' !in deviceType && ' ' !in action;
    hide InBounds, AddressIn, FastPath, StatusPath, SlowPath, AddressText, TrimEnd, TrimStart, TokenLine;
    FastParts(deviceType, action, token, level);
    LineIsTrimmed(deviceType, action, token, level);
    LineIsNoStatus(deviceType, action, token, level);
  }

  lemma TokenEndsInDigit(project: Option<string>, n: nat, a: nat, g: nat)
    ensures var token := AddressToken(project, n, a, g); token != [] && IsDigit(token[|token| - 1])
  {
    var token, last := AddressToken(project, n, a, g), Print(g);
    hide Print;
    assert token[|token| - 1] == last[|last| - 1];
  }

  /**
   * Any device type and action, any project, every address in range and every level, or none: the line
   * parses back to what it was printed from.
   */
  lemma EventRoundTrip(deviceType: string, action: string, project: Option<string>, n: nat, a: nat, g: nat,
                       level: Option<nat>, m: Option<Match>)
    requires m.Some? ==> AllPartsDigits(m.value.address)
    requires IsWord(deviceType) && IsWord(action) && !("300" <= deviceType)
    requires project.Some? ==> IsProject(project.value)
    requires n <= 254 && a <= 255 && g <= 255
    ensures var parts := PrintedAddress(n, a, g);
            Event(EventLine(deviceType, action, project, n, a, g, level), false, m) ==
            Parsed(Some(deviceType), Some(action), Some(AddressText(parts)), Some(parts), level, true)
  {
    TokenRoundTrip(project, n, a, g);
    TokenHasNoSpace(project, n, a, g);
    TokenEndsInDigit(project, n, a, g);
    PrintedInBounds(n, a, g);
    TokenEvent(deviceType, action, AddressToken(project, n, a, g), level, m);
    hide AddressToken, PrintedAddress, Event, AddressText;
  }

  /** A source unit is found behind its key, whatever precedes it without a number sign and follows it. */
  lemma SourceUnitRoundTrip(before: string, n: nat, after: string)
    requires '#' !in before && (after != [] ==> !IsDigit(after[0]))
    ensures SourceUnit(before + "#sourceunit=" + Print(n) + after) == Some(Print(n))
  {
    var rest := Print(n) + after;
    var raw := before + "#sourceunit=" + rest;
    ParsePrint(n);
    LeadingDigitsOf(Print(n), after);
    FirstKey(before, rest);
    SourceUnitIsFirst(raw, 0);
    assert before + "#sourceunit=" + Print(n) + after == raw;
    hide Print, LeadingDigits, SourceUnitFrom, OccursAt;
    assert UnitAt(raw, |before|);
  }

  lemma FirstKey(before: string, rest: string)
    requires '#' !in before
    ensures var raw := before + "#sourceunit=" + rest;
            && OccursAt(raw, "#sourceunit=", |before|) && raw[|before| + |"#sourceunit="|..] == rest
            && forall j: nat :: j < |before| ==> !OccursAt(raw, "#sourceunit=", j)
  {
    var raw := before + "#sourceunit=" + rest;
    forall j: nat | j < |before| ensures !OccursAt(raw, "#sourceunit=", j) {
      assert j + 12 <= |raw| ==> raw[j..j + 12][0] == raw[j] == before[j];
    }
  }

  lemma {:induction false} LeadingDigitsOf(digits: string, after: string)
    requires AllDigits(digits) && (after != [] ==> !IsDigit(after[0]))
    ensures LeadingDigits(digits + after) == digits
  {
    if digits != [] {
      assert (digits + after)[1..] == digits[1..] + after;
      LeadingDigitsOf(digits[1..], after);
    }
  }

  // Status lines.

  predicate HasNone(s: string, ch: char) {
    ch !in s
  }

  lemma TextHasNone(n: nat, a: nat, g: nat, ch: char)
    requires !IsDigit(ch) && ch != '/'
    ensures HasNone(AddressText(PrintedAddress(n, a, g)), ch)
  {
    PrintHas(n, ch);
    PrintHas(a, ch);
    PrintHas(g, ch);
    hide Print;
  }

  lemma LastThreeOf(head: string, a: Address)
    requires AllPartsDigits(a)
    ensures LastThree(head + "/" + AddressText(a)) == Some(a)
  {
    var front := head + ['/'] + a.network;
    hide LastCut;
    assert head + "/" + AddressText(a) == (front + ['/'] + a.application) + ['/'] + a.group;
    LastCutJoined(front + ['/'] + a.application, '/', a.group);
    LastCutJoined(front, '/', a.application);
    LastCutJoined(head, '/', a.network);
  }

  lemma LastThreeParts(project: string, n: nat, a: nat, g: nat)
    ensures LastThree(Region(project, n, a, g)) == Some(PrintedAddress(n, a, g))
  {
    hide LastThree, AddressText, Print;
    LastThreeOf("//" + project, PrintedAddress(n, a, g));
  }

  lemma MarkerFound(code: string, rest: string)
    requires '/' !in code
    ensures IndexOf(code + "//" + rest, "//", 0) == Some(|code|)
  {
    var s := code + "//" + rest;
    assert s[|code|..|code| + 2] == "//";
    forall j: nat | j < |code| ensures !OccursAt(s, "//", j) {
      assert s[j] == code[j];
      assert j + 2 <= |s| ==> s[j..j + 2][0] == s[j];
    }
    FirstOccurrence(s, "//", |code|);
  }

  lemma LevelFound(head: string, value: string)
    requires '=' !in head
    ensures After(head + "level=" + value, "level=") == Some(value)
  {
    var s, key := head + "level=" + value, "level=";
    assert s[|head|..|head| + 6] == key;
    forall j: nat | j < |head| ensures !OccursAt(s, key, j) {
      assert s[j + 5] == (head + "level")[j + 5] != '=';
      assert j + 6 <= |s| ==> s[j..j + 6][5] == s[j + 5];
    }
    FirstOccurrence(s, key, |head|);
    assert s[|head| + 6..] == value;
  }

  lemma StatusAddressFound(code: string, project: string, n: nat, a: nat, g: nat, digits: string)
    requires '/' !in code && ':' !in project
    ensures StatusAddress(StatusText(code, Region(project, n, a, g), digits)) == Some(PrintedAddress(n, a, g))
  {
    TextHasNone(n, a, g, ':');
    LastThreeParts(project, n, a, g);
    var region := Region(project, n, a, g);
    assert ':' !in region && "//" <= region;
    hide PrintedAddress, Region, LastThree;
    RegionFound(code, region, digits);
  }

  lemma RegionFound(code: string, region: string, digits: string)
    requires '/' !in code && ':' !in region && "//" <= region
    ensures StatusAddress(StatusText(code, region, digits)) == LastThree(region)
  {
    hide LastThree, Cut, IndexOf;
    var raw, rest := StatusText(code, region, digits), " level=" + digits;
    assert raw == code + "//" + (region[2..] + ": level=" + digits);
    MarkerFound(code, region[2..] + ": level=" + digits);
    assert raw[|code|..] == region + [':'] + rest;
    CutJoined(region, ':', rest);
  }

  lemma StatusLevel(code: string, region: string, digits: string)
    requires '=' !in code && '=' !in region
    ensures After(StatusText(code, region, digits), "level=") == Some(digits)
  {
    hide After;
    assert StatusText(code, region, digits) == (code + region + ": ") + "level=" + digits;
    LevelFound(code + region + ": ", digits);
  }

  lemma StatusTrimmed(code: string, region: string, digits: string)
    requires code != [] ==> !IsSpace(code[0])
    requires "//" <= region && digits != [] && AllDigits(digits)
    ensures var raw := StatusText(code, region, digits); Trim(raw) == raw && raw != []
  {
    var raw := StatusText(code, region, digits);
    assert raw[0] == if code != [] then code[0] else '/';
    assert raw[|raw| - 1] == digits[|digits| - 1];
    TrimNothing(raw);
  }

  lemma StatusParts(raw: string, a: Address, level: nat)
    requires StatusAddress(raw) == Some(a) && InBounds(a) && After(raw, "level=") == Some(Print(level))
    ensures StatusPath(raw) ==
            Parsed(Some("lighting"), Some(if level > 0 then "on" else "off"), Some(AddressText(a)), Some(a),
                   Some(level), true)
  {
    PrintedLevel(level);
    hide StatusAddress, InBounds, After, Print, LeadingInt, AddressText;
  }

  lemma IsStatusEvent(code: string, region: string, digits: string, statusDataOnly: bool, m: Option<Match>)
    requires m.Some? ==> AllPartsDigits(m.value.address)
    requires code != [] ==> !IsSpace(code[0])
    requires "//" <= region && digits != [] && AllDigits(digits)
    requires statusDataOnly || STATUS_CODE <= code
    ensures Event(StatusText(code, region, digits), statusDataOnly, m) == StatusPath(StatusText(code, region, digits))
  {
    StatusTrimmed(code, region, digits);
    assert STATUS_CODE <= code ==> StatusText(code, region, digits)[..3] == code[..3];
    hide StatusPath, FastPath, SlowPath, TrimEnd, TrimStart;
  }

  /**
   * In status mode, or after a 300 code, every in-range address and every level survive the round trip,
   * and the action says whether the level is positive.
   */
  lemma StatusRoundTrip(code: string, project: string, n: nat, a: nat, g: nat, level: nat,
                        statusDataOnly: bool, m: Option<Match>)
    requires m.Some? ==> AllPartsDigits(m.value.address)
    requires '/' !in code && '=' !in code && (code != [] ==> !IsSpace(code[0]))
    requires statusDataOnly || "300" <= code
    requires ':' !in project && '=' !in project
    requires n <= 254 && a <= 255 && g <= 255
    ensures var parts := PrintedAddress(n, a, g);
            Event(StatusLine(code, project, n, a, g, level), statusDataOnly, m) ==
            Parsed(Some("lighting"), Some(if level > 0 then "on" else "off"), Some(AddressText(parts)), Some(parts),
                   Some(level), true)
  {
    var region, digits := Region(project, n, a, g), Print(level);
    PrintedInBounds(n, a, g);
    StatusAddressFound(code, project, n, a, g, digits);
    TextHasNone(n, a, g, '=');
    assert '=' !in region && "//" <= region;
    hide Region, PrintedAddress, AddressText, Print, InBounds, StatusAddress, StatusText, StatusPath, Event, After;
    StatusLevel(code, region, digits);
    IsStatusEvent(code, region, digits, statusDataOnly, m);
    StatusParts(StatusText(code, region, digits), PrintedAddress(n, a, g), level);
  }
}
