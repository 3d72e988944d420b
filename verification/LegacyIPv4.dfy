/**
 The numeric IPv4 forms of section 7.4 of RFC 3986: one to four parts, each decimal, octal or hexadecimal, the last
 one filling all remaining bytes.
 */
module LegacyIPv4 {
  import opened Prelude

  const MAX_PART: nat := 0xFFFF_FFFF

  // ---- digits

  function DigitValue(c: char): nat {
    if '0' <= c <= '9' then (c - '0') as nat
    else if 'a' <= c <= 'f' then (c - 'a') as nat + 10
    else if 'A' <= c <= 'F' then (c - 'A') as nat + 10
    else 16
  }

  /** The number a digit string denotes in the base, if all its characters are digits of the base. */
  function ParseDigits(s: string, base: nat): Option<nat> {
    if s == "" then Some(0)
    else
      var last := |s| - 1;
      var front := ParseDigits(s[..last], base);
      if front.None? || DigitValue(s[last]) >= base then None
      else Some(front.value * base + DigitValue(s[last]))
  }

  /** An unsigned 32-bit number; empty digit strings and larger numbers are refused. */
  function ParseUint(s: string, base: nat): Option<nat> {
    if s == "" then None
    else
      var v := ParseDigits(s, base);
      if v.Some? && v.value <= MAX_PART then v else None
  }

  predicate HexPrefixed(part: string) {
    |part| >= 2 && part[0] == '0' && (part[1] == 'x' || part[1] == 'X')
  }

  function ParsePart(part: string): Option<nat> {
    if HexPrefixed(part) then ParseUint(part[2..], 16)
    else if |part| > 1 && part[0] == '0' then ParseUint(part, 8)
    else ParseUint(part, 10)
  }

  // ---- splitting at dots

  function DotIndex(s: string): (i: nat)
    ensures i <= |s| && (forall k | 0 <= k < i :: s[k] != '.') && (i < |s| ==> s[i] == '.')
  {
    if s == "" || s[0] == '.' then 0 else 1 + DotIndex(s[1..])
  }

  function Split(s: string): (parts: seq<string>)
    ensures parts != []
    decreases |s|
  {
    var i := DotIndex(s);
    if i == |s| then [s] else [s[..i]] + Split(s[i + 1..])
  }

  // ---- what the parts denote

  function Power256(n: nat): (r: nat)
    ensures r >= 1
  {
    if n == 0 then 1 else 256 * Power256(n - 1)
  }

  /** Base 256 from the left, each part one byte, the last one filling the `room` bytes that remain. */
  function Place(values: seq<nat>, room: nat): Option<nat>
    requires 1 <= |values| <= room
    decreases |values|
  {
    if |values| == 1 then
      if values[0] < Power256(room) then Some(values[0]) else None
    else if values[0] >= 256 then None
    else
      var rest := Place(values[1..], room - 1);
      if rest.None? then None else Some(values[0] * Power256(room - 1) + rest.value)
  }

  function ParseParts(parts: seq<string>): Option<seq<nat>> {
    if parts == [] then Some([])
    else
      var last := |parts| - 1;
      var front := ParseParts(parts[..last]);
      var v := ParsePart(parts[last]);
      if front.None? || v.None? then None else Some(front.value + [v.value])
  }

  lemma {:induction false} ParsePartsLength(parts: seq<string>)
    ensures ParseParts(parts).Some? ==> Reads(parts, ParseParts(parts).value)
  {
    if parts != [] {
      ParsePartsLength(parts[..|parts| - 1]);
    }
  }

  lemma {:induction false} ReadsParse(parts: seq<string>, values: seq<nat>)
    requires Reads(parts, values)
    ensures ParseParts(parts) == Some(values)
  {
    if parts != [] {
      var last := |parts| - 1;
      ReadsParse(parts[..last], values[..last]);
      assert values == values[..last] + [values[last]];
    }
  }

  /** Each part is a numeral of its value. */
  ghost predicate Reads(parts: seq<string>, values: seq<nat>) {
    |values| == |parts| && forall i | 0 <= i < |parts| :: ParsePart(parts[i]) == Some(values[i])
  }

  function ParseTrimmed(h: string): Option<nat> {
    if h == "" || h[|h| - 1] == '.' then None
    else
      var parts := Split(h);
      if |parts| > 4 then None
      else
        var values := ParseParts(parts);
        if values.None? || |values.value| != |parts| then None else Place(values.value, 4)
  }

  /** The 32-bit address a host denotes, or nothing for an ordinary name. */
  function Parse(host: string): Option<nat> {
    ParseTrimmed(Trim(host))
  }

  // ---- the parser

  datatype Address = Address(a: nat, b: nat, c: nat, d: nat)

  function Value(ip: Address): nat {
    ip.a * 0x100_0000 + ip.b * 0x1_0000 + ip.c * 0x100 + ip.d
  }

  predicate IsAddress(ip: Address) {
    ip.a < 256 && ip.b < 256 && ip.c < 256 && ip.d < 256
  }

  function Bytes(v: nat): Address {
    Address(v / 0x100_0000, v / 0x1_0000 % 256, v / 0x100 % 256, v % 256)
  }

  lemma BytesAssemble(v: nat)
    requires v <= MAX_PART
    ensures IsAddress(Bytes(v)) && Value(Bytes(v)) == v
  {
    var x := v / 256;
    var y := x / 256;
    assert v / 0x1_0000 == y;
    assert v / 0x100_0000 == y / 256;
    assert v == x * 256 + v % 256 && x == y * 256 + x % 256 && y == y / 256 * 256 + y % 256;
  }

  method ParseLegacyIPv4(host: string) returns (ip: Option<Address>)
    ensures ip.Some? <==> Parse(host).Some?
    ensures ip.Some? ==> IsAddress(ip.value) && Value(ip.value) == Parse(host).value
  {
    var h := Trim(host);
    if h == "" || h[|h| - 1] == '.' {
      return None;
    }
    var parts := Split(h);
    if |parts| > 4 {
      return None;
    }
    var values := ReadParts(parts);
    if values.None? {
      return None;
    }
    ParsePartsLength(parts);
    var v := Combine(values.value);
    if v.None? || v.value > MAX_PART {
      PlacedParts(values.value);
      return None;
    }
    BytesAssemble(v.value);
    ip := Some(Bytes(v.value));
  }

  /** Fills one slot per part, in the base its prefix announces. */
  method ReadParts(parts: seq<string>) returns (r: Option<seq<nat>>)
    ensures r == ParseParts(parts)
  {
    var values := new nat[|parts|];
    for i := 0 to |parts|
      invariant ParseParts(parts[..i]) == Some(values[..i])
    {
      assert parts[..i + 1][..i] == parts[..i];
      var part := parts[i];
      var base, digits := 10, part;
      if |part| >= 2 && part[0] == '0' && (part[1] == 'x' || part[1] == 'X') {
        base, digits := 16, part[2..];
      } else if |part| > 1 && part[0] == '0' {
        base := 8;
      }
      var value := ParseUint(digits, base);
      if value.None? {
        PrefixFails(parts, i);
        return None;
      }
      values[i] := value.value;
      assert values[..i + 1] == values[..i] + [value.value];
    }
    assert parts[..|parts|] == parts && values[..|parts|] == values[..];
    r := Some(values[..]);
  }

  /** One to four parts, each form with its own bounds. */
  method Combine(values: seq<nat>) returns (v: Option<nat>)
    requires 1 <= |values| <= 4
    ensures v == if |values| == 1 then Some(values[0]) else Place(values, 4)
  {
    PlacedParts(values);
    if |values| == 1 {
      return Some(values[0]);
    }
    if |values| == 2 {
      if values[0] > 0xFF || values[1] > 0xFF_FFFF {
        return None;
      }
      return Some(values[0] * 0x100_0000 + values[1]);
    }
    if |values| == 3 {
      if values[0] > 0xFF || values[1] > 0xFF || values[2] > 0xFFFF {
        return None;
      }
      return Some(values[0] * 0x100_0000 + values[1] * 0x1_0000 + values[2]);
    }
    for k := 0 to 4
      invariant forall j | 0 <= j < k :: values[j] <= 0xFF
    {
      if values[k] > 0xFF {
        return None;
      }
    }
    v := Some(values[0] * 0x100_0000 + values[1] * 0x1_0000 + values[2] * 0x100 + values[3]);
  }

  lemma {:induction false} PrefixFails(parts: seq<string>, n: nat)
    requires n < |parts| && ParsePart(parts[n]).None?
    ensures ParseParts(parts).None?
    decreases |parts|
  {
    if n < |parts| - 1 {
      PrefixFails(parts[..|parts| - 1], n);
    }
  }

  /** The positional value, written out for one to four parts. */
  lemma PlacedParts(values: seq<nat>)
    requires 1 <= |values| <= 4
    ensures Place(values, 4) == match |values|
      case 1 => if values[0] <= MAX_PART then Some(values[0]) else None
      case 2 =>
        if values[0] > 0xFF || values[1] > 0xFF_FFFF then None else Some(values[0] * 0x100_0000 + values[1])
      case 3 =>
        if values[0] > 0xFF || values[1] > 0xFF || values[2] > 0xFFFF then None
        else Some(values[0] * 0x100_0000 + values[1] * 0x1_0000 + values[2])
      case _ =>
        if values[0] > 0xFF || values[1] > 0xFF || values[2] > 0xFF || values[3] > 0xFF then None
        else Some(values[0] * 0x100_0000 + values[1] * 0x1_0000 + values[2] * 0x100 + values[3])
  {
    assert Power256(1) == 256 && Power256(2) == 0x1_0000 && Power256(3) == 0x100_0000 && Power256(4) == 0x1_0000_0000;
    if |values| > 1 {
      var a := values[1..];
      assert a[0] == values[1];
      if |values| > 2 {
        var b := a[1..];
        assert a[1] == values[2] && b[0] == values[2];
        if |values| > 3 {
          assert b[1] == values[3] && b[1..][0] == values[3];
          assert Place(b[1..], 1) == if values[3] < 256 then Some(values[3]) else None;
        }
        assert Place(b, 2) ==
          if |values| == 3 then (if values[2] < 0x1_0000 then Some(values[2]) else None)
          else if values[2] >= 256 || values[3] >= 256 then None else Some(values[2] * 256 + values[3]);
      }
    }
  }

  // ---- printing

  function DigitChar(d: nat, upper: bool): char
    requires d < 16
  {
    if d < 10 then '0' + d as char else if upper then 'A' + (d - 10) as char else 'a' + (d - 10) as char
  }

  function Digits(v: nat, base: nat, upper: bool): (s: string)
    requires 2 <= base <= 16
    ensures s != ""
  {
    if v < base then [DigitChar(v, upper)]
    else
      QuotientShrinks(v, base);
      Digits(Quotient(v, base), base, upper) + [DigitChar(Remainder(v, base), upper)]
  }

  datatype Format = Decimal | Octal | Hex(upper: bool)

  function PrintPart(v: nat, f: Format): string {
    match f
    case Decimal => Digits(v, 10, false)
    case Octal => "0" + Digits(v, 8, false)
    case Hex(upper) => (if upper then "0X" else "0x") + Digits(v, 16, upper)
  }

  function Quotient(v: nat, p: nat): (q: nat)
    requires p > 0
    ensures v == q * p + v % p && q <= v
  {
    DivMod(v, p);
    QuotientIsNatural(v, p);
    QuotientIsSmaller(v, p);
    v / p
  }

  function Remainder(v: nat, p: nat): (r: nat)
    requires p > 0
    ensures r == v % p && r < p
  {
    DivMod(v, p);
    v % p
  }

  /** The parts of a value below 256 to the power `room`; the last of `n` parts takes what the others leave. */
  function Parts(v: nat, n: nat, room: nat): (r: seq<nat>)
    requires 1 <= n <= room
    ensures |r| == n
    decreases n
  {
    if n == 1 then [v]
    else [Quotient(v, Power256(room - 1))] + Parts(Remainder(v, Power256(room - 1)), n - 1, room - 1)
  }

  function JoinDots(parts: seq<string>): string {
    if parts == [] then "" else if |parts| == 1 then parts[0] else parts[0] + "." + JoinDots(parts[1..])
  }

  function PrintParts(values: seq<nat>, formats: seq<Format>): (r: seq<string>)
    requires |values| == |formats|
    ensures |r| == |values| && forall i | 0 <= i < |r| :: r[i] == PrintPart(values[i], formats[i])
  {
    seq(|values|, i requires 0 <= i < |values| && i < |formats| => PrintPart(values[i], formats[i]))
  }

  function Print(v: nat, formats: seq<Format>): string
    requires 1 <= |formats| <= 4
  {
    JoinDots(PrintParts(Parts(v, |formats|, 4), formats))
  }

  // ---- parsing what was printed

  lemma DigitCharIsRead(d: nat, upper: bool)
    requires d < 16
    ensures DigitValue(DigitChar(d, upper)) == d
  {
  }

  lemma {:induction false} DigitsRoundTrip(v: nat, base: nat, upper: bool)
    requires 2 <= base <= 16
    ensures ParseDigits(Digits(v, base, upper), base) == Some(v)
    ensures forall c | c in Digits(v, base, upper) :: DigitValue(c) < base
  {
    var s := Digits(v, base, upper);
    if v < base {
      DigitCharIsRead(v, upper);
      assert s[..0] == "" && ParseDigits("", base) == Some(0);
    } else {
      var q, r := Quotient(v, base), Remainder(v, base);
      QuotientShrinks(v, base);
      DigitsRoundTrip(q, base, upper);
      DigitCharIsRead(r, upper);
      assert s[..|s| - 1] == Digits(q, base, upper);
    }
  }

  lemma {:induction false} DigitsStart(v: nat, base: nat, upper: bool)
    requires 2 <= base <= 16
    ensures Digits(v, base, upper)[0] == '0' ==> v == 0 && |Digits(v, base, upper)| == 1
  {
    if v >= base {
      QuotientShrinks(v, base);
      DigitsStart(Quotient(v, base), base, upper);
    }
  }

  lemma DecimalRoundTrip(v: nat)
    requires v <= MAX_PART
    ensures ParsePart(PrintPart(v, Decimal)) == Some(v)
  {
    DigitsRoundTrip(v, 10, false);
    DigitsStart(v, 10, false);
  }

  lemma OctalRoundTrip(v: nat)
    requires v <= MAX_PART
    ensures ParsePart(PrintPart(v, Octal)) == Some(v)
  {
    var s := Digits(v, 8, false);
    DigitsRoundTrip(v, 8, false);
    assert s[0] in s;
    LeadingZero(s, 8);
  }

  lemma HexRoundTrip(v: nat, upper: bool)
    requires v <= MAX_PART
    ensures ParsePart(PrintPart(v, Hex(upper))) == Some(v)
  {
    DigitsRoundTrip(v, 16, upper);
    assert PrintPart(v, Hex(upper))[2..] == Digits(v, 16, upper);
  }

  lemma PartRoundTrip(v: nat, f: Format)
    requires v <= MAX_PART
    ensures ParsePart(PrintPart(v, f)) == Some(v)
  {
    match f
    case Decimal => DecimalRoundTrip(v);
    case Octal => OctalRoundTrip(v);
    case Hex(upper) => HexRoundTrip(v, upper);
  }

  lemma {:induction false} LeadingZero(s: string, base: nat)
    requires base >= 1
    ensures ParseDigits("0" + s, base) == ParseDigits(s, base)
  {
    var t := "0" + s;
    if s == "" {
      assert t[..0] == "" && ParseDigits("", base) == Some(0);
    } else {
      assert t[..|t| - 1] == "0" + s[..|s| - 1];
      LeadingZero(s[..|s| - 1], base);
    }
  }

  predicate Dotless(s: string) {
    forall i | 0 <= i < |s| :: s[i] != '.' && !IsSpace(s[i])
  }

  lemma PrintedPartIsDotless(v: nat, f: Format)
    ensures PrintPart(v, f) != "" && Dotless(PrintPart(v, f))
  {
    var base, upper := match f case Decimal => 10 case Octal => 8 case Hex(_) => 16, f.Hex? && f.upper;
    DigitsRoundTrip(v, base, upper);
    var s := Digits(v, base, upper);
    forall i | 0 <= i < |s|
      ensures s[i] != '.' && !IsSpace(s[i])
    {
      assert s[i] in s;
    }
  }

  lemma {:induction false} DotIndexOf(a: string, b: string)
    requires (forall i | 0 <= i < |a| :: a[i] != '.') && (b == "" || b[0] == '.')
    ensures DotIndex(a + b) == |a|
  {
    if a == "" {
      assert a + b == b;
    } else {
      assert (a + b)[1..] == a[1..] + b;
      DotIndexOf(a[1..], b);
    }
  }

  lemma {:induction false} SplitOfJoin(parts: seq<string>)
    requires parts != [] && forall i | 0 <= i < |parts| :: parts[i] != "" && Dotless(parts[i])
    ensures Split(JoinDots(parts)) == parts
    ensures var s := JoinDots(parts); s != "" && !IsSpace(s[0]) && !IsSpace(s[|s| - 1]) && s[|s| - 1] != '.'
  {
    var s := JoinDots(parts);
    if |parts| == 1 {
      DotIndexOf(s, "");
      assert s + "" == s;
    } else {
      var rest := JoinDots(parts[1..]);
      SplitOfJoin(parts[1..]);
      assert s == parts[0] + ("." + rest);
      DotIndexOf(parts[0], "." + rest);
      assert s[..|parts[0]|] == parts[0] && s[|parts[0]| + 1..] == rest;
    }
  }

  lemma PlaceFirst(q: nat, rest: seq<nat>, r: nat, room: nat)
    requires 1 <= |rest| < room && q < 256 && Place(rest, room - 1) == Some(r)
    ensures Place([q] + rest, room) == Some(q * Power256(room - 1) + r)
  {
    assert ([q] + rest)[1..] == rest;
  }

  lemma SplitOff(v: nat, room: nat)
    requires room > 0 && v < Power256(room)
    ensures var p := Power256(room - 1);
            Quotient(v, p) < 256 && v == Quotient(v, p) * p + Remainder(v, p)
  {
    QuotientBelow(v, Power256(room - 1), 256);
  }

  lemma {:induction false} PlaceOfParts(v: nat, n: nat, room: nat)
    requires 1 <= n <= room && v < Power256(room)
    ensures Place(Parts(v, n, room), room) == Some(v)
    decreases n
  {
    if n > 1 {
      var p := Power256(room - 1);
      SplitOff(v, room);
      PlaceOfParts(Remainder(v, p), n - 1, room - 1);
      PlaceFirst(Quotient(v, p), Parts(Remainder(v, p), n - 1, room - 1), Remainder(v, p), room);
    }
  }

  lemma {:induction false} PartsAreSmaller(v: nat, n: nat, room: nat)
    requires 1 <= n <= room
    ensures forall i | 0 <= i < n :: Parts(v, n, room)[i] <= v
    decreases n
  {
    if n > 1 {
      var p := Power256(room - 1);
      var q, r := Quotient(v, p), Remainder(v, p);
      assert r <= v by { assert q * p >= 0; }
      PartsAreSmaller(r, n - 1, room - 1);
    }
  }

  lemma PrintedIsTrim(parts: seq<string>)
    requires parts != [] && forall i | 0 <= i < |parts| :: parts[i] != "" && Dotless(parts[i])
    ensures Trim(JoinDots(parts)) == JoinDots(parts)
  {
    SplitOfJoin(parts);
  }

  lemma ParseJoined(parts: seq<string>, values: seq<nat>)
    requires 1 <= |parts| <= 4 && Reads(parts, values)
    requires forall i | 0 <= i < |parts| :: parts[i] != "" && Dotless(parts[i])
    ensures ParseTrimmed(JoinDots(parts)) == Place(values, 4)
  {
    SplitOfJoin(parts);
    ReadsParse(parts, values);
  }

  /** Every 32-bit value, split into one to four parts in any mix of notations, is read back. */
  lemma RoundTrip(v: nat, formats: seq<Format>)
    requires v <= MAX_PART && 1 <= |formats| <= 4
    ensures Parse(Print(v, formats)) == Some(v)
  {
    var values := Parts(v, |formats|, 4);
    var parts := PrintParts(values, formats);
    assert Power256(4) == MAX_PART + 1 by { assert Power256(3) == 0x100_0000 by { assert Power256(2) == 0x1_0000; } }
    PlaceOfParts(v, |formats|, 4);
    PartsAreSmaller(v, |formats|, 4);
    forall i | 0 <= i < |parts|
      ensures parts[i] != "" && Dotless(parts[i]) && ParsePart(parts[i]) == Some(values[i])
    {
      PrintedPartIsDotless(values[i], formats[i]);
      PartRoundTrip(values[i], formats[i]);
    }
    ParseJoined(parts, values);
    PrintedIsTrim(parts);
  }

  // ---- exactly what is accepted

  /** The sum of all parts but the last, each times its power of 256, plus the last. */
  function Weighted(values: seq<nat>, room: nat): nat
    requires 1 <= |values| <= room
    decreases |values|
  {
    if |values| == 1 then values[0] else values[0] * Power256(room - 1) + Weighted(values[1..], room - 1)
  }

  /** The text is written as these parts, which read as these values, which fit and add up to `v`. */
  ghost predicate Spells(h: string, parts: seq<string>, values: seq<nat>, v: nat) {
    && 1 <= |parts| <= 4 && h == JoinDots(parts) && Reads(parts, values)
    && (forall i | 0 <= i < |values| - 1 :: values[i] < 256)
    && values[|values| - 1] < Power256(5 - |values|)
    && v == Weighted(values, 4)
  }

  lemma {:induction false} PlaceIsWeighted(values: seq<nat>, room: nat)
    requires 1 <= |values| <= room
    ensures Place(values, room).Some? <==>
      (forall i | 0 <= i < |values| - 1 :: values[i] < 256) && values[|values| - 1] < Power256(room + 1 - |values|)
    ensures Place(values, room).Some? ==> Place(values, room).value == Weighted(values, room)
    decreases |values|
  {
    if |values| > 1 {
      PlaceIsWeighted(values[1..], room - 1);
      assert forall i | 0 <= i < |values| - 2 :: values[1..][i] == values[i + 1];
      assert forall i | 0 < i < |values| - 1 :: values[i] == values[1..][i - 1];
    }
  }

  lemma {:induction false} JoinOfSplit(s: string)
    ensures JoinDots(Split(s)) == s
    decreases |s|
  {
    var i := DotIndex(s);
    if i < |s| {
      JoinOfSplit(s[i + 1..]);
      assert Split(s)[1..] == Split(s[i + 1..]);
      assert s == s[..i] + "." + s[i + 1..];
    }
  }

  lemma {:induction false} DigitsAreDotless(s: string, base: nat)
    requires base <= 16 && ParseDigits(s, base).Some?
    ensures Dotless(s)
  {
    if s != "" {
      DigitsAreDotless(s[..|s| - 1], base);
    }
  }

  lemma NumeralsAreDotless(part: string)
    requires ParsePart(part).Some?
    ensures part != "" && Dotless(part)
  {
    if HexPrefixed(part) {
      DigitsAreDotless(part[2..], 16);
      assert forall i | 2 <= i < |part| :: part[i] == part[2..][i - 2];
    } else if |part| > 1 && part[0] == '0' {
      DigitsAreDotless(part, 8);
    } else {
      DigitsAreDotless(part, 10);
    }
  }

  lemma DenotedIsParsed(h: string, parts: seq<string>, values: seq<nat>, v: nat)
    requires Spells(h, parts, values, v)
    ensures ParseTrimmed(h) == Some(v)
  {
    forall i | 0 <= i < |parts|
      ensures parts[i] != "" && Dotless(parts[i])
    {
      NumeralsAreDotless(parts[i]);
    }
    ParseJoined(parts, values);
    PlaceIsWeighted(values, 4);
  }

  lemma ParsedIsDenoted(h: string, v: nat) returns (parts: seq<string>, values: seq<nat>)
    requires ParseTrimmed(h) == Some(v)
    ensures Spells(h, parts, values, v)
  {
    parts := Split(h);
    ParsePartsLength(parts);
    values := ParseParts(parts).value;
    JoinOfSplit(h);
    PlaceIsWeighted(values, 4);
  }

  /** A host is accepted with a value exactly when it is written as one to four fitting numerals of that value. */
  lemma AcceptedIff(host: string, v: nat)
    ensures Parse(host) == Some(v) <==> exists parts, values :: Spells(Trim(host), parts, values, v)
  {
    var h := Trim(host);
    if ParseTrimmed(h) == Some(v) {
      var parts, values := ParsedIsDenoted(h, v);
    }
    if parts, values :| Spells(h, parts, values, v) {
      DenotedIsParsed(h, parts, values, v);
    }
  }
}
