/**
 * The event parser of src/cbusEvent.js as the class it is: indices into the raw line, loops over
 * characters, fields set along the way. Proved against CBusEventSpec.
 */
module CBusEvents {
  import opened CBusEventSpec
  import opened Decimals
  import opened LineSpec
  import opened Options

  /** `indexOf` for one character. */
  function CharIndex(s: string, ch: char, from: nat): (r: Option<nat>)
    requires from <= |s|
    ensures r.Some? ==> from <= r.value < |s| && s[r.value] == ch
    decreases |s| - from
  {
    if from == |s| then None else if s[from] == ch then Some(from) else CharIndex(s, ch, from + 1)
  }

  lemma {:induction false} CutIs(s: string, ch: char, from: nat)
    requires from <= |s|
    ensures Cut(s[from..], ch) ==
            match CharIndex(s, ch, from)
            case None => (s[from..], None)
            case Some(i) => (s[from..i], Some(s[i + 1..]))
    decreases |s| - from
  {
    assert s[from..from] == [];
    if from < |s| {
      assert s[from..][1..] == s[from + 1..];
      if s[from] != ch {
        CutIs(s, ch, from + 1);
        match CharIndex(s, ch, from + 1)
        case None => assert [s[from]] + s[from + 1..] == s[from..];
        case Some(i) => assert [s[from]] + s[from + 1..i] == s[from..i];
      }
    }
  }

  /** `lastIndexOf` for one character, searching down from position k. */
  function LastIndexFrom(s: string, ch: char, k: nat): (r: Option<nat>)
    requires k < |s|
    ensures r.Some? ==> r.value <= k && s[r.value] == ch
  {
    if s[k] == ch then Some(k) else if k == 0 then None else LastIndexFrom(s, ch, k - 1)
  }

  /** `lastIndexOf` starts at the first position when it is asked to start before it. */
  function LastCharIndex(s: string, ch: char, from: int): (r: Option<nat>)
    requires from < |s|
  {
    if s == [] then None else LastIndexFrom(s, ch, if from < 0 then 0 else from)
  }

  lemma {:induction false} LastCutIs(s: string, ch: char, end: nat)
    requires 0 < end <= |s|
    ensures LastCut(s[..end], ch) ==
            match LastIndexFrom(s, ch, end - 1)
            case None => (None, s[..end])
            case Some(i) => (Some(s[..i]), s[i + 1..end])
  {
    var init := s[..end][..end - 1];
    assert init == s[..end - 1] && s[end..end] == [];
    if s[end - 1] != ch {
      if end == 1 {
        assert init == [];
        assert s[..end] == [] + [s[0]];
      } else {
        LastCutIs(s, ch, end - 1);
        match LastIndexFrom(s, ch, end - 2)
        case None => assert s[..end - 1] + [s[end - 1]] == s[..end];
        case Some(i) => assert s[i + 1..end - 1] + [s[end - 1]] == s[i + 1..end];
      }
    }
  }

  /** `slice`, which is empty when its bounds cross. */
  function Slice(s: string, from: nat, to: nat): string
    requires from <= |s| && to <= |s|
  {
    if from <= to then s[from..to] else []
  }

  method IsDigitsOf(value: string) returns (r: bool)
    ensures r <==> IsDigits(value)
  {
    if value == [] {
      return false;
    }
    for i := 0 to |value|
      invariant AllDigits(value[..i])
    {
      if !IsDigit(value[i]) {
        return false;
      }
    }
    assert value[..|value|] == value;
    return true;
  }

  lemma {:induction false} LeadingIs(value: string, end: nat)
    requires end <= |value| && AllDigits(value[..end]) && (end < |value| ==> !IsDigit(value[end]))
    ensures LeadingDigits(value) == value[..end]
  {
    if end > 0 {
      assert IsDigit(value[..end][0]);
      assert value[1..][..end - 1] == value[..end][1..];
      LeadingIs(value[1..], end - 1);
      assert value[..end] == [value[0]] + value[1..][..end - 1];
    }
  }

  method ExtractLeadingInt(value: string) returns (r: Option<nat>)
    ensures r == LeadingInt(value)
  {
    var end := 0;
    while end < |value| && IsDigit(value[end])
      invariant end <= |value| && AllDigits(value[..end])
    {
      end := end + 1;
    }
    LeadingIs(value, end);
    hide LeadingDigits;
    return if end == 0 then None else Some(Parse(value[..end]));
  }

  method CheckedAddress(network: string, application: string, group: string) returns (r: Option<Address>)
    ensures var a := Address(network, application, group); r == if AllPartsDigits(a) then Some(a) else None
  {
    var n := IsDigitsOf(network);
    var a := IsDigitsOf(application);
    var g := IsDigitsOf(group);
    return if n && a && g then Some(Address(network, application, group)) else None;
  }

  method DropProject(addressToken: string) returns (normalized: string)
    ensures normalized == WithoutProject(addressToken)
  {
    normalized := addressToken;
    if "//" <= addressToken {
      CutIs(addressToken, '/', 2);
      var i := CharIndex(addressToken, '/', 2);
      if i.Some? {
        normalized := addressToken[i.value + 1..];
      }
    }
  }

  /** One part up to the next separator or the end. */
  lemma CutUpTo(s: string, ch: char, from: nat)
    requires from <= |s|
    ensures Cut(s[from..], ch).0 == s[from..CharIndex(s, ch, from).GetOr(|s|)]
  {
    CutIs(s, ch, from);
    assert s[from..] == s[from..|s|];
  }

  method ExtractAddressComponents(addressToken: string) returns (r: Option<Address>)
    ensures r == AddressIn(addressToken)
  {
    var normalized := DropProject(addressToken);
    hide WithoutProject, Cut, CharIndex, AllPartsDigits;
    assert normalized[0..] == normalized;
    CutIs(normalized, '/', 0);
    var firstSlash := CharIndex(normalized, '/', 0);
    if firstSlash.None? || firstSlash.value == 0 {
      return None;
    }
    r := ExtractBehindNetwork(normalized, firstSlash.value);
  }

  /** The parts behind the first slash. */
  method ExtractBehindNetwork(normalized: string, firstSlash: nat) returns (r: Option<Address>)
    requires firstSlash < |normalized|
    ensures var (application, rest) := Cut(normalized[firstSlash + 1..], '/');
            r == if application == [] || rest.None? then None
                 else var a := Address(normalized[..firstSlash], application, Cut(rest.value, '/').0);
                      if AllPartsDigits(a) then Some(a) else None
  {
    hide Cut, CharIndex, AllPartsDigits;
    CutIs(normalized, '/', firstSlash + 1);
    var secondSlash := CharIndex(normalized, '/', firstSlash + 1);
    if secondSlash.None? || secondSlash.value == firstSlash + 1 {
      return None;
    }
    CutUpTo(normalized, '/', secondSlash.value + 1);
    var thirdPartEnd := CharIndex(normalized, '/', secondSlash.value + 1).GetOr(|normalized|);
    r := CheckedAddress(normalized[..firstSlash], normalized[firstSlash + 1..secondSlash.value],
                        normalized[secondSlash.value + 1..thirdPartEnd]);
  }

  /** The trailing three parts of the address region of a status line. */
  method StatusComponents(region: string) returns (r: Option<Address>)
    requires region != []
    ensures r == LastThree(region)
  {
    hide LastIndexFrom, LastCut;
    assert region[..|region|] == region;
    LastCutIs(region, '/', |region|);
    var lastSlash := LastCharIndex(region, '/', |region| - 1);
    if lastSlash.None? {
      return None;
    }
    assert LastCut(region, '/').1 == region[lastSlash.value + 1..];
    r := ComponentsBefore(region, lastSlash.value);
  }

  /** The parts before the last slash; a search below the first position looks at the first one again. */
  method ComponentsBefore(region: string, lastSlash: nat) returns (r: Option<Address>)
    requires lastSlash < |region| && region[lastSlash] == '/'
    ensures r == LastTwo(region[..lastSlash], region[lastSlash + 1..])
  {
    hide LastCut, LastIndexFrom;
    NoCutInEmpty(region, '/');
    if lastSlash > 0 {
      LastCutIs(region, '/', lastSlash);
    }
    var secondSlash := LastCharIndex(region, '/', lastSlash as int - 1);
    if secondSlash.None? {
      return None;
    }
    if secondSlash.value > 0 {
      LastCutIs(region, '/', secondSlash.value);
    }
    var thirdSlash := LastCharIndex(region, '/', secondSlash.value as int - 1);
    if thirdSlash.None? {
      return None;
    }
    r := CheckedAddress(Slice(region, thirdSlash.value + 1, secondSlash.value),
                        Slice(region, secondSlash.value + 1, lastSlash), region[lastSlash + 1..]);
  }

  lemma NoCutInEmpty(s: string, ch: char)
    ensures LastCut(s[..0], ch) == (None, [])
  {
  }

  class CBusEvent {
    var rawEvent: string
    var statusDataOnly: bool
    var deviceType: Option<string>
    var action: Option<string>
    var address: Option<string>
    var network: Option<string>
    var application: Option<string>
    var group: Option<string>
    var level: Option<nat>
    var isValid: bool
    var parsed: bool
    var reading: Option<Reading>
    var sourceUnit: Option<string>

    ghost function Abs(): Parsed
      reads this`deviceType, this`action, this`address, this`network, this`application, this`group,
            this`level, this`isValid
    {
      Parsed(deviceType, action, address,
             if network.Some? && application.Some? && group.Some? then
               Some(Address(network.value, application.value, group.value))
             else None,
             level, isValid)
    }

    /** `m` is what the fallback pattern matches on the line, if it is needed and matches. */
    constructor (eventString: string, statusDataOnly: bool, m: Option<Match>)
      requires m.Some? ==> AllPartsDigits(m.value.address)
      ensures parsed && Abs() == Event(eventString, statusDataOnly, m)
      ensures reading == ReadingIn(eventString, statusDataOnly, m) && sourceUnit == SourceUnit(Trim(eventString))
    {
      rawEvent := Trim(eventString);
      this.statusDataOnly := statusDataOnly;
      deviceType, action, address, network, application, group := None, None, None, None, None, None;
      level, isValid, parsed, reading, sourceUnit := None, false, false, None, None;
      new;
      hide FastPath, SlowPath, StatusPath, SourceUnit;
      ReadSourceUnit();
      if rawEvent != [] {
        ParseLine(m);
      } else {
        parsed := true;
      }
    }

    /** The pattern is tried only on a line that has a number sign. */
    method ReadSourceUnit()
      requires sourceUnit.None?
      modifies this`sourceUnit
      ensures sourceUnit == SourceUnit(rawEvent)
    {
      hide SourceUnit;
      if '#' in rawEvent {
        sourceUnit := SourceUnit(rawEvent);
      } else {
        UnitHasSign(rawEvent);
      }
    }

    /** The reading of a valid event of an application with a decoder. */
    method ApplyDecoder()
      requires reading.None?
      modifies this`reading
      ensures var p := Abs();
              reading == if p.valid && p.parts.Some? && !statusDataOnly then Decode(p.parts.value, p.level) else None
    {
      if !isValid || statusDataOnly || network.None? || application.None? || group.None? {
        return;
      }
      reading := Decode(Address(network.value, application.value, group.value), level);
    }

    method ParseLine(m: Option<Match>)
      requires m.Some? ==> AllPartsDigits(m.value.address)
      requires Abs() == NOTHING && rawEvent != [] && reading.None?
      modifies this`deviceType, this`action, this`address, this`network, this`application, this`group,
               this`level, this`isValid, this`parsed, this`reading
      ensures parsed
      ensures reading == if statusDataOnly || STATUS_CODE <= rawEvent || !Abs().valid || Abs().parts.None? then None
                         else Decode(Abs().parts.value, Abs().level)
      ensures Abs() == if statusDataOnly || STATUS_CODE <= rawEvent then StatusPath(rawEvent)
                       else match FastPath(rawEvent) case Some(p) => p case None => SlowPath(m)
    {
      hide FastPath, StatusPath, AllPartsDigits, Decode, InBounds;
      if statusDataOnly || STATUS_CODE <= rawEvent {
        ParseStatusResponse();
        parsed := true;
        return;
      }
      var done := ParseStandardEventFastPath();
      if !done && m.Some? {
        ApplyMatch(m.value);
      }
      ApplyDecoder();
      parsed := true;
    }

    /** What the fallback pattern matched. */
    method ApplyMatch(m: Match)
      requires AllPartsDigits(m.address) && Abs() == NOTHING
      modifies this`deviceType, this`action, this`address, this`network, this`application, this`group,
               this`level, this`isValid
      ensures Abs() == SlowPath(Some(m))
    {
      hide InBounds, AddressText, LeadingInt;
      deviceType, action, address := Some(m.deviceType), Some(m.action), Some(AddressText(m.address));
      level := None;
      if m.level.Some? {
        level := ExtractLeadingInt(m.level.value);
      }
      var _ := ApplyAddressComponents(m.address);
    }

    /** The one place an address becomes valid. */
    method ApplyAddressComponents(a: Address) returns (ok: bool)
      requires AllPartsDigits(a)
      modifies this`address, this`network, this`application, this`group, this`isValid
      ensures ok <==> InBounds(a)
      ensures ok ==> isValid && address == Some(AddressText(a))
                     && network == Some(a.network) && application == Some(a.application) && group == Some(a.group)
      ensures !ok ==> Abs() == old(Abs())
    {
      ok := InRange(a.network, MAX_NETWORK) && InRange(a.application, MAX_APPLICATION) && InRange(a.group, MAX_GROUP);
      if ok {
        address := Some(AddressText(a));
        network, application, group := Some(a.network), Some(a.application), Some(a.group);
        isValid := true;
      }
    }

    method ParseStandardEventFastPath() returns (ok: bool)
      requires Abs() == NOTHING && rawEvent != []
      modifies this`deviceType, this`action, this`address, this`network, this`application, this`group,
               this`level, this`isValid
      ensures ok <==> FastPath(rawEvent).Some?
      ensures Abs() == FastPath(rawEvent).GetOr(NOTHING)
    {
      var raw := rawEvent;
      hide Cut, AddressIn, InBounds, AllPartsDigits, LevelIn, AddressText, CharIndex;
      assert raw[0..] == raw;
      CutIs(raw, ' ', 0);
      var firstSpace := CharIndex(raw, ' ', 0);
      if firstSpace.None? || firstSpace.value == 0 {
        return false;
      }
      CutIs(raw, ' ', firstSpace.value + 1);
      var secondSpace := CharIndex(raw, ' ', firstSpace.value + 1);
      if secondSpace.None? || secondSpace.value == firstSpace.value + 1 {
        return false;
      }
      ok := ApplyAddressAndLevel(secondSpace.value + 1);
      if ok {
        deviceType, action := Some(raw[..firstSpace.value]), Some(raw[firstSpace.value + 1..secondSpace.value]);
      }
    }

    /** The address token behind the second space and the level behind it. */
    method ApplyAddressAndLevel(restStart: nat) returns (ok: bool)
      requires Abs() == NOTHING && restStart <= |rawEvent|
      modifies this`address, this`network, this`application, this`group, this`level, this`isValid
      ensures var (token, r3) := Cut(rawEvent[restStart..], ' ');
              var a := AddressIn(token);
              && (ok <==> a.Some? && InBounds(a.value))
              && Abs() == if !ok then NOTHING
                          else Parsed(None, None, Some(AddressText(a.value)), a,
                                      if r3.Some? then LevelIn(r3.value) else None, true)
    {
      hide Cut, AddressIn, InBounds, AllPartsDigits, LevelIn, AddressText, CharIndex;
      var raw := rawEvent;
      CutIs(raw, ' ', restStart);
      var thirdSpace := CharIndex(raw, ' ', restStart);
      var token := raw[restStart..thirdSpace.GetOr(|raw|)];
      assert Cut(raw[restStart..], ' ').0 == token by { CutUpTo(raw, ' ', restStart); }
      AddressPartsAreDigits(token);
      var components := ExtractAddressComponents(token);
      if components.None? {
        return false;
      }
      ok := ApplyAddressComponents(components.value);
      if ok && thirdSpace.Some? {
        level := ParseLevel(raw, thirdSpace.value);
      }
    }

    /** The level in what follows the space behind the address. */
    static method ParseLevel(raw: string, thirdSpace: nat) returns (r: Option<nat>)
      requires thirdSpace < |raw| && raw[thirdSpace] == ' '
      ensures r == LevelIn(raw[thirdSpace + 1..])
    {
      hide Cut;
      CutUpTo(raw, ' ', thirdSpace + 1);
      var fourthSpace := CharIndex(raw, ' ', thirdSpace + 1).GetOr(|raw|);
      var levelToken := raw[thirdSpace + 1..fourthSpace];
      if levelToken == [] {
        return None;
      }
      var digits := IsDigitsOf(levelToken);
      if digits {
        return Some(Parse(levelToken));
      }
      assert raw[thirdSpace..] == " " + raw[thirdSpace + 1..];
      var levelIndex := IndexOf(raw[thirdSpace..], " level=", 0);
      if levelIndex.Some? {
        r := ExtractLeadingInt(raw[thirdSpace..][levelIndex.value + 7..]);
      } else {
        r := ExtractLeadingInt(levelToken);
      }
    }

    method ParseStatusResponse()
      requires Abs() == NOTHING
      modifies this`deviceType, this`action, this`address, this`network, this`application, this`group,
               this`level, this`isValid
      ensures Abs() == StatusPath(rawEvent)
    {
      hide LastThree, InBounds, AllPartsDigits, LeadingInt, AddressText, Cut, CharIndex, IndexOf;
      var raw := rawEvent;
      var markerIndex := IndexOf(raw, "//", 0);
      if markerIndex.Some? {
        CutIs(raw, ':', markerIndex.value);
        var colonIndex := CharIndex(raw, ':', markerIndex.value);
        if colonIndex.Some? {
          IndexOfIsFirst(raw, "//", 0);
          assert raw[markerIndex.value] == raw[markerIndex.value..markerIndex.value + 2][0] == '/';
          var components := StatusComponents(raw[markerIndex.value..colonIndex.value]);
          LastThreeAreDigits(raw[markerIndex.value..colonIndex.value]);
          if components.Some? {
            var _ := ApplyAddressComponents(components.value);
          }
        }
      }
      var levelIndex := IndexOf(raw, "level=", 0);
      if levelIndex.Some? {
        level := ExtractLeadingInt(raw[levelIndex.value + 6..]);
      }
      if isValid {
        deviceType := Some("lighting");
        action := Some(if level.Some? && level.value > 0 then "on" else "off");
      }
    }
  }

  lemma AddressPartsAreDigits(token: string)
    ensures AddressIn(token).Some? ==> AllPartsDigits(AddressIn(token).value)
  {
    hide WithoutProject, Cut;
  }

  lemma LastThreeAreDigits(region: string)
    ensures LastThree(region).Some? ==> AllPartsDigits(LastThree(region).value)
  {
    hide LastCut;
  }
}
