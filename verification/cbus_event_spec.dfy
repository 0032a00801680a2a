/**
 * What a C-Gate event or status line means (src/cbusEvent.js): the address and level it carries, read
 * off by cutting the line at its separators.
 */
module CBusEventSpec {
  import opened Decimals
  import opened LineSpec
  import opened Options

  datatype Address = Address(network: string, application: string, group: string)

  /** The fields of an event; `address` is its text form. */
  datatype Parsed = Parsed(
    deviceType: Option<string>,
    action: Option<string>,
    address: Option<string>,
    parts: Option<Address>,
    level: Option<nat>,
    valid: bool)

  const NOTHING := Parsed(None, None, None, None, None, false)

  const MAX_NETWORK: nat := 254
  const MAX_APPLICATION: nat := 255
  const MAX_GROUP: nat := 255
  const STATUS_CODE := "300"

  // Cutting text.

  /** What precedes the first separator, and what follows it if there is one. */
  function Cut(s: string, ch: char): (string, Option<string>) {
    if s == [] then ([], None)
    else if s[0] == ch then ([], Some(s[1..]))
    else
      var (before, after) := Cut(s[1..], ch);
      ([s[0]] + before, after)
  }

  /** What precedes the last separator, if there is one, and what follows it. */
  function LastCut(s: string, ch: char): (Option<string>, string) {
    if s == [] then (None, [])
    else if s[|s| - 1] == ch then (Some(s[..|s| - 1]), [])
    else
      var (before, after) := LastCut(s[..|s| - 1], ch);
      (before, after + [s[|s| - 1]])
  }

  function LeadingDigits(s: string): (d: string)
    ensures AllDigits(d) && d <= s
  {
    if s != [] && IsDigit(s[0]) then [s[0]] + LeadingDigits(s[1..]) else []
  }

  function LeadingInt(s: string): Option<nat> {
    var d := LeadingDigits(s);
    if d == [] then None else Some(Parse(d))
  }

  /** What follows the first occurrence of a key. */
  function After(s: string, key: string): Option<string> {
    var i := IndexOf(s, key, 0);
    if i.Some? then Some(s[i.value + |key|..]) else None
  }

  // Addresses.

  predicate IsDigits(s: string) {
    s != [] && AllDigits(s)
  }

  /** Digits only is established before; more than three characters cannot be in range. */
  predicate InRange(s: string, max: nat)
    requires AllDigits(s)
  {
    |s| <= 3 && Parse(s) <= max
  }

  predicate AllPartsDigits(a: Address) {
    IsDigits(a.network) && IsDigits(a.application) && IsDigits(a.group)
  }

  predicate InBounds(a: Address) {
    && AllPartsDigits(a)
    && InRange(a.network, MAX_NETWORK) && InRange(a.application, MAX_APPLICATION) && InRange(a.group, MAX_GROUP)
  }

  function AddressText(a: Address): string {
    a.network + "/" + a.application + "/" + a.group
  }

  /** Drops a leading `//PROJECT/`. */
  function WithoutProject(token: string): string {
    if "//" <= token then
      match Cut(token[2..], '/').1
      case Some(rest) => rest
      case None => token
    else token
  }

  function AddressIn(token: string): Option<Address> {
    var (network, rest) := Cut(WithoutProject(token), '/');
    if network == [] || rest.None? then None
    else
      var (application, rest2) := Cut(rest.value, '/');
      if application == [] || rest2.None? then None
      else
        var a := Address(network, application, Cut(rest2.value, '/').0);
        if AllPartsDigits(a) then Some(a) else None
  }

  // The three paths.

  /** The level behind the address: a plain number, else `level=N` anywhere behind, else leading digits. */
  function LevelIn(tail: string): Option<nat> {
    var token := Cut(tail, ' ').0;
    if token == [] then None
    else if AllDigits(token) then Some(Parse(token))
    else
      match After(" " + tail, " level=")
      case Some(value) => LeadingInt(value)
      case None => LeadingInt(token)
  }

  function FastPath(raw: string): Option<Parsed> {
    var (deviceType, r1) := Cut(raw, ' ');
    if deviceType == [] || r1.None? then None
    else
      var (action, r2) := Cut(r1.value, ' ');
      if action == [] || r2.None? then None
      else
        var (token, r3) := Cut(r2.value, ' ');
        var a := AddressIn(token);
        if a.None? || !InBounds(a.value) then None
        else Some(Parsed(Some(deviceType), Some(action), Some(AddressText(a.value)), a,
                         if r3.Some? then LevelIn(r3.value) else None, true))
  }

  /** What the fallback pattern matched; its groups are digits by construction. */
  datatype Match = Match(deviceType: string, action: string, address: Address, level: Option<string>)

  function SlowPath(m: Option<Match>): Parsed
    requires m.Some? ==> AllPartsDigits(m.value.address)
  {
    if m.None? then NOTHING
    else
      var ok := InBounds(m.value.address);
      Parsed(Some(m.value.deviceType), Some(m.value.action), Some(AddressText(m.value.address)),
             if ok then Some(m.value.address) else None,
             if m.value.level.Some? then LeadingInt(m.value.level.value) else None, ok)
  }

  /** The last three parts of the text between the first `//` and the next colon. */
  function StatusAddress(raw: string): Option<Address> {
    match IndexOf(raw, "//", 0)
    case None => None
    case Some(marker) =>
      var (region, rest) := Cut(raw[marker..], ':');
      if rest.None? then None else LastThree(region)
  }

  function LastThree(region: string): Option<Address> {
    var (before, group) := LastCut(region, '/');
    if before.None? then None else LastTwo(before.value, group)
  }

  function LastTwo(region: string, group: string): Option<Address> {
    var (before, application) := LastCut(region, '/');
    if before.None? then None
    else
      var (start, network) := LastCut(before.value, '/');
      var a := Address(network, application, group);
      if start.Some? && AllPartsDigits(a) then Some(a) else None
  }

  function StatusPath(raw: string): Parsed {
    var a := StatusAddress(raw);
    var value := After(raw, "level=");
    var level := if value.Some? then LeadingInt(value.value) else None;
    if a.Some? && InBounds(a.value) then
      Parsed(Some("lighting"), Some(if level.Some? && level.value > 0 then "on" else "off"),
             Some(AddressText(a.value)), a, level, true)
    else NOTHING.(level := level)
  }

  function Event(line: string, statusDataOnly: bool, m: Option<Match>): Parsed
    requires m.Some? ==> AllPartsDigits(m.value.address)
  {
    var raw := Trim(line);
    if raw == [] then NOTHING
    else if statusDataOnly || STATUS_CODE <= raw then StatusPath(raw)
    else
      match FastPath(raw)
      case Some(p) => p
      case None => SlowPath(m)
  }

  // Decoded readings and the unit an event came from.

  datatype Reading = Temperature(group: string, celsius: real)

  const TEMPERATURE_APP := "25"

  /** Quarters of a degree in one byte; the other registered decoder, the clock's, never reads a value off an event. */
  function Decode(a: Address, level: Option<nat>): Option<Reading> {
    if a.application == TEMPERATURE_APP && level.Some? && level.value <= 255 then
      Some(Temperature(a.group, level.value as real / 4.0))
    else None
  }

  /** Only events read on the ordinary paths are decoded. */
  function ReadingIn(line: string, statusDataOnly: bool, m: Option<Match>): Option<Reading>
    requires m.Some? ==> AllPartsDigits(m.value.address)
  {
    var raw, p := Trim(line), Event(line, statusDataOnly, m);
    if statusDataOnly || STATUS_CODE <= raw || !p.valid || p.parts.None? then None
    else Decode(p.parts.value, p.level)
  }

  /** An event has a reading exactly if it is a valid temperature broadcast of one byte, and then one in range. */
  lemma ReadingIff(line: string, statusDataOnly: bool, m: Option<Match>)
    requires m.Some? ==> AllPartsDigits(m.value.address)
    ensures var r, p := ReadingIn(line, statusDataOnly, m), Event(line, statusDataOnly, m);
            && (r.Some? <==> && !statusDataOnly && !("300" <= Trim(line)) && p.valid
                             && p.parts.value.application == "25" && p.level.Some? && p.level.value <= 255)
            && (r.Some? ==> && r.value.group == p.parts.value.group && 0.0 <= r.value.celsius <= 63.75
                            && r.value.celsius * 4.0 == p.level.value as real)
  {
    ValidIsInBounds(line, statusDataOnly, m);
    hide Event;
  }

  const SOURCE_KEY := "#sourceunit="

  /** The digits behind the first key that has any. */
  function SourceUnitFrom(raw: string, from: nat): Option<string>
    decreases |raw| - from
  {
    match IndexOf(raw, SOURCE_KEY, from)
    case None => None
    case Some(i) =>
      var unit := LeadingDigits(raw[i + |SOURCE_KEY|..]);
      if unit != [] then Some(unit) else SourceUnitFrom(raw, i + 1)
  }

  function SourceUnit(raw: string): Option<string> {
    SourceUnitFrom(raw, 0)
  }

  predicate UnitAt(raw: string, i: nat) {
    OccursAt(raw, SOURCE_KEY, i) && LeadingDigits(raw[i + |SOURCE_KEY|..]) != []
  }

  /** The unit is what the leftmost key followed by a digit names; without one, as for -1, there is none. */
  lemma {:induction false} SourceUnitIsFirst(raw: string, from: nat)
    ensures var unit := SourceUnitFrom(raw, from);
            if unit.Some? then
              exists i: nat :: from <= i && UnitAt(raw, i) && unit.value == LeadingDigits(raw[i + |SOURCE_KEY|..])
                               && forall j :: from <= j < i ==> !UnitAt(raw, j)
            else forall i :: from <= i ==> !UnitAt(raw, i)
    decreases |raw| - from
  {
    hide LeadingDigits, IndexOf;
    IndexOfIsFirst(raw, SOURCE_KEY, from);
    var i := IndexOf(raw, SOURCE_KEY, from);
    if i.Some? {
      assert forall j :: from <= j < i.value ==> !UnitAt(raw, j);
      if LeadingDigits(raw[i.value + |SOURCE_KEY|..]) == [] {
        SourceUnitIsFirst(raw, i.value + 1);
        assert forall j :: from <= j <= i.value ==> !UnitAt(raw, j);
      } else {
        assert UnitAt(raw, i.value);
      }
    }
  }

  /** Looking for the key at all is safe to skip when the line has no number sign. */
  lemma UnitHasSign(raw: string)
    ensures SourceUnit(raw).Some? ==> '#' in raw
  {
    IndexOfIsFirst(raw, SOURCE_KEY, 0);
    var i := IndexOf(raw, SOURCE_KEY, 0);
    if i.Some? {
      assert raw[i.value..i.value + |SOURCE_KEY|][0] == raw[i.value];
    }
  }

  /** A valid event has a device type, an action, and three all-digit parts in range that make up its address. */
  lemma ValidIsInBounds(line: string, statusDataOnly: bool, m: Option<Match>)
    requires m.Some? ==> AllPartsDigits(m.value.address)
    ensures var p := Event(line, statusDataOnly, m);
            && (p.valid <==> p.parts.Some?)
            && (p.valid ==> InBounds(p.parts.value) && p.address == Some(AddressText(p.parts.value))
                            && p.deviceType.Some? && p.action.Some?)
  {
    hide InBounds, FastPath, StatusAddress, After, LeadingInt, AddressText;
    var raw := Trim(line);
    FastInBounds(raw);
  }

  lemma FastInBounds(raw: string)
    ensures var p := FastPath(raw);
            p.Some? ==> && p.value.valid && p.value.parts.Some? && InBounds(p.value.parts.value)
                        && p.value.address == Some(AddressText(p.value.parts.value))
                        && p.value.deviceType.Some? && p.value.action.Some?
  {
    hide InBounds, AddressIn, LevelIn, AddressText, Cut;
  }

  // Cutting what was joined.

  lemma {:induction false} CutJoined(s: string, ch: char, t: string)
    requires ch !in s
    ensures Cut(s + [ch] + t, ch) == (s, Some(t))
  {
    if s == [] {
      assert s + [ch] + t == [ch] + t;
    } else {
      assert (s + [ch] + t)[1..] == s[1..] + [ch] + t;
      CutJoined(s[1..], ch, t);
      assert s == [s[0]] + s[1..];
    }
  }

  lemma {:induction false} CutWhole(s: string, ch: char)
    requires ch !in s
    ensures Cut(s, ch) == (s, None)
  {
    if s != [] {
      CutWhole(s[1..], ch);
      assert s == [s[0]] + s[1..];
    }
  }

  lemma {:induction false} LastCutJoined(s: string, ch: char, t: string)
    requires ch !in t
    ensures LastCut(s + [ch] + t, ch) == (Some(s), t)
  {
    var whole := s + [ch] + t;
    if t == [] {
      assert whole[..|whole| - 1] == s;
    } else {
      assert whole[..|whole| - 1] == s + [ch] + t[..|t| - 1];
      LastCutJoined(s, ch, t[..|t| - 1]);
      assert t == t[..|t| - 1] + [t[|t| - 1]];
    }
  }

  lemma {:induction false} LeadingAll(d: string)
    requires AllDigits(d)
    ensures LeadingDigits(d) == d
  {
    if d != [] {
      LeadingAll(d[1..]);
    }
  }

  lemma PrintedLevel(n: nat)
    ensures LeadingInt(Print(n)) == Some(n) && Parse(Print(n)) == n && AllDigits(Print(n)) && Print(n) != []
  {
    LeadingAll(Print(n));
    ParsePrint(n);
  }

  lemma FirstOccurrence(s: string, d: string, i: nat)
    requires OccursAt(s, d, i) && forall j: nat :: j < i ==> !OccursAt(s, d, j)
    ensures IndexOf(s, d, 0) == Some(i)
  {
    IndexOfIsFirst(s, d, 0);
  }

  lemma TrimNothing(s: string)
    requires s != [] && !IsSpace(s[0]) && !IsSpace(s[|s| - 1])
    ensures Trim(s) == s
  {
  }
}
