/** Text on the wire: six hexadecimal digits a scalar, or "-" for no text. */
module ScalarHex {
  import opened Common
  import opened Unicode

  const HEX_DIGITS := "0123456789abcdef"

  function Nibble(n: nat): char
    requires n < 16
  {
    HEX_DIGITS[n]
  }

  /** The low `n` hexadecimal digits of a number. */
  function HexN(code: nat, n: nat): (s: string)
    ensures |s| == n
  {
    if n == 0 then "" else HexN(code / 16, n - 1) + [Nibble(code % 16)]
  }

  /** Plain fixed-width hex: every scalar as six digits. */
  function SixDigits(codes: seq<nat>): string {
    if codes == [] then "" else SixDigits(DropLast(codes)) + HexN(Last(codes), 6)
  }

  function Hex(codes: seq<nat>): string {
    if codes == [] then "-" else SixDigits(codes)
  }

  // ---------------------------------------------------------------------------
  // The engine's encoder: a buffer of zeros, and only the digits that can differ written.

  function Shift(code: nat, n: nat): nat {
    if n == 0 then code else Shift(code, n - 1) / 16
  }

  lemma {:induction false} ShiftInside(code: nat, n: nat)
    ensures Shift(code / 16, n) == Shift(code, n + 1)
  {
    if n > 0 { ShiftInside(code, n - 1); }
  }

  /** The next digit up goes in front. */
  lemma {:induction false} HexFromTheFront(code: nat, n: nat)
    ensures HexN(code, n + 1) == [Nibble(Shift(code, n) % 16)] + HexN(code, n)
  {
    if n == 0 {
      assert HexN(code / 16, 0) == "" && HexN(code, 0) == "";
      assert HexN(code, 1) == HexN(code / 16, 0) + [Nibble(code % 16)];
    } else {
      HexFromTheFront(code / 16, n - 1);
      ShiftInside(code, n - 1);
      var front := [Nibble(Shift(code, n) % 16)];
      assert front + HexN(code / 16, n - 1) + [Nibble(code % 16)] == front + (HexN(code / 16, n - 1) + [Nibble(code % 16)]);
    }
  }

  /** Inside the BMP the top two digits are zeros. */
  lemma BmpHasTwoZeros(code: nat)
    requires code < 65536
    ensures HexN(code, 6) == "00" + HexN(code, 4)
  {
    HexFromTheFront(code, 5);
    HexFromTheFront(code, 4);
    assert Shift(code, 1) == code / 16;
    assert Shift(code, 2) == Shift(code, 1) / 16;
    assert Shift(code, 3) == Shift(code, 2) / 16;
    assert Shift(code, 4) == Shift(code, 3) / 16 == 0;
    assert Shift(code, 5) == Shift(code, 4) / 16 == 0;
    assert ['0'] + (['0'] + HexN(code, 4)) == "00" + HexN(code, 4);
  }

  /** Writes the digits of `code` right to left, down to position `lowest`. */
  method WriteDigits(out: array<char>, offset: nat, code: nat, lowest: nat)
    requires offset + 6 <= out.Length && lowest <= 5
    modifies out
    ensures out[offset + lowest..offset + 6] == HexN(code, 6 - lowest)
    ensures out[..offset + lowest] == old(out[..offset + lowest]) && out[offset + 6..] == old(out[offset + 6..])
  {
    ghost var before := out[..];
    var rest, digit := code, 6;
    while digit > lowest
      invariant lowest <= digit <= 6 && rest == Shift(code, 6 - digit)
      invariant out[offset + digit..offset + 6] == HexN(code, 6 - digit)
      invariant out[..offset + digit] == before[..offset + digit] && out[offset + 6..] == before[offset + 6..]
    {
      digit := digit - 1;
      HexFromTheFront(code, 5 - digit);
      ghost var tail := out[offset + digit + 1..offset + 6];
      out[offset + digit] := Nibble(rest % 16);
      assert out[offset + digit + 1..offset + 6] == tail;
      assert out[offset + digit..offset + 6] == [out[offset + digit]] + tail;
      rest := rest / 16;
    }
  }

  /** One scalar, on six zeros: four digits inside the BMP, six above it. */
  method WriteScalar(out: array<char>, offset: nat, code: nat)
    requires offset + 6 <= out.Length && forall k :: offset <= k < out.Length ==> out[k] == '0'
    modifies out
    ensures out[offset..offset + 6] == HexN(code, 6)
    ensures out[..offset] == old(out[..offset])
    ensures forall k :: offset + 6 <= k < out.Length ==> out[k] == '0'
  {
    ghost var before := out[..];
    if code < 65536 {
      WriteDigits(out, offset, code, 2);
      BmpHasTwoZeros(code);
      assert out[..offset + 2][..offset] == before[..offset];
      assert out[offset] == out[..offset + 2][offset] == '0' && out[offset + 1] == out[..offset + 2][offset + 1] == '0';
      assert out[offset..offset + 6] == "00" + out[offset + 2..offset + 6];
    } else {
      WriteDigits(out, offset, code, 0);
    }
    TailIsZero(out[offset + 6..], out[..], offset + 6);
  }

  method EncodeHex(codes: seq<nat>) returns (hex: string)
    ensures hex == Hex(codes)
  {
    hide HexN;
    if codes == [] { return "-"; }
    var out := new char[6 * |codes|](_ => '0');
    var index, offset := 0, 0;
    while index < |codes|
      invariant 0 <= index <= |codes| && offset == 6 * index
      invariant out[..offset] == SixDigits(codes[..index])
      invariant forall k :: offset <= k < out.Length ==> out[k] == '0'
    {
      ghost var done := out[..offset];
      WriteScalar(out, offset, codes[index]);
      assert out[..offset + 6] == done + out[offset..offset + 6];
      assert DropLast(codes[..index + 1]) == codes[..index];
      index := index + 1;
      offset := offset + 6;
    }
    assert codes[..|codes|] == codes;
    assert out[..offset] == out[..];
    hex := out[..];
  }

  lemma TailIsZero(tail: seq<char>, whole: seq<char>, n: nat)
    requires n <= |whole| && tail == whole[n..] && forall k :: 0 <= k < |tail| ==> tail[k] == '0'
    ensures forall k :: n <= k < |whole| ==> whole[k] == '0'
  {
    forall k | n <= k < |whole| ensures whole[k] == '0' { assert whole[k] == tail[k - n]; }
  }

  // ---------------------------------------------------------------------------
  // Reading hex.

  function LowerDigit(c: char): Option<nat> {
    if '0' <= c <= '9' then Some(c as nat - '0' as nat)
    else if 'a' <= c <= 'f' then Some(c as nat - 'a' as nat + 10)
    else None
  }

  function AnyDigit(c: char): Option<nat> {
    if 'A' <= c <= 'F' then Some(c as nat - 'A' as nat + 10) else LowerDigit(c)
  }

  /** A run of hex digits as a number; the engine reads lower case only. */
  function Number(s: string, upper: bool): Option<nat> {
    if s == "" then Some(0)
    else
      match (Number(DropLast(s), upper), if upper then AnyDigit(Last(s)) else LowerDigit(Last(s)))
      case (Some(n), Some(d)) => Some(16 * n + d)
      case _ => None
  }

  function Group(s: string, upper: bool): Option<nat> {
    match Number(s, upper)
    case Some(n) => if IsScalar(n) then Some(n) else None
    case None => None
  }

  function Decode(hex: string, upper: bool): Option<seq<nat>>
    requires |hex| % 6 == 0
  {
    if hex == "" then Some([])
    else
      match (Decode(hex[..|hex| - 6], upper), Group(hex[|hex| - 6..], upper))
      case (Some(codes), Some(code)) => Some(codes + [code])
      case _ => None
  }

  /** The client's reading of a field, as scalars. */
  function Scalars(hex: string): Option<seq<nat>> {
    if hex == "-" then Some([]) else if |hex| % 6 != 0 then None else Decode(hex, true)
  }

  lemma {:induction false} DecodedAreScalars(hex: string, upper: bool)
    requires |hex| % 6 == 0
    ensures Decode(hex, upper).Some? ==> AllScalars(Decode(hex, upper).value)
  {
    if hex != "" { DecodedAreScalars(hex[..|hex| - 6], upper); }
  }

  /** A bad group anywhere spoils the whole field. */
  lemma {:induction false} BadGroup(hex: string, n: nat, upper: bool)
    requires |hex| % 6 == 0 && n % 6 == 0 && n <= |hex| && Decode(hex[..n], upper).None?
    ensures Decode(hex, upper).None?
    decreases |hex|
  {
    hide Group;
    if n == |hex| {
      assert hex[..n] == hex;
    } else {
      var front := hex[..|hex| - 6];
      assert front[..n] == hex[..n];
      BadGroup(front, n, upper);
    }
  }

  lemma NextGroup(hex: string, n: nat, upper: bool)
    requires |hex| % 6 == 0 && n % 6 == 0 && n < |hex|
    ensures Decode(hex[..n + 6], upper) ==
            match (Decode(hex[..n], upper), Group(hex[n..n + 6], upper))
            case (Some(codes), Some(code)) => Some(codes + [code])
            case _ => None
  {
    var s := hex[..n + 6];
    assert s[..|s| - 6] == hex[..n] && s[|s| - 6..] == hex[n..n + 6];
  }

  /** Number parsing in base 16 over exactly six characters. */
  method ParseGroup(hex: string, start: nat) returns (value: Option<nat>)
    requires start + 6 <= |hex|
    ensures value == Number(hex[start..start + 6], true)
  {
    var n := 0;
    ghost var six := hex[start..start + 6];
    for i := 0 to 6
      invariant Number(six[..i], true) == Some(n)
    {
      assert DropLast(six[..i + 1]) == six[..i];
      var digit := AnyDigit(hex[start + i]);
      if digit.None? {
        BadDigit(six, i + 1, true);
        return None;
      }
      n := 16 * n + digit.value;
    }
    assert six[..6] == six;
    value := Some(n);
  }

  lemma {:induction false} BadDigit(s: string, n: nat, upper: bool)
    requires n <= |s| && Number(s[..n], upper).None?
    ensures Number(s, upper).None?
  {
    if n == |s| {
      assert s[..n] == s;
    } else {
      assert DropLast(s)[..n] == s[..n];
      BadDigit(DropLast(s), n, upper);
    }
  }

  /** The client's decoder: UTF-16 units, pushed as the groups are read. */
  method DecodeScalarHex(hex: string) returns (units: Option<seq<nat>>)
    ensures units.Some? <==> Scalars(hex).Some?
    ensures units.Some? ==> AllScalars(Scalars(hex).value) && units.value == Utf16(Scalars(hex).value)
  {
    hide Decode, Number;
    if hex == "-" { return Some([]); }
    if |hex| % 6 != 0 { return None; }
    var text: seq<nat> := [];
    ghost var codes: seq<nat> := [];
    EmptyField();
    var i := 0;
    while i < |hex|
      invariant i <= |hex| && i % 6 == 0
      invariant Decode(hex[..i], true) == Some(codes) && AllScalars(codes) && text == Utf16(codes)
    {
      NextGroup(hex, i, true);
      var value := ParseGroup(hex, i);
      if value.None? || value.value > 0x10ffff || 0xd800 <= value.value <= 0xdfff {
        BadGroup(hex, i + 6, true);
        return None;
      }
      Utf16Append(codes, value.value);
      codes := codes + [value.value];
      if value.value <= 0xffff {
        text := text + [value.value];
      } else {
        var rest := value.value - 0x10000;
        text := text + [0xd800 + rest / 0x400, 0xdc00 + rest % 0x400];
      }
      i := i + 6;
    }
    assert hex[..i] == hex;
    units := Some(text);
  }

  lemma EmptyField()
    ensures Decode(""[..0], true) == Some([])
  {
  }

  /** The engine's decoder. */
  function Unhex(hex: string): Option<seq<nat>> {
    if hex == "" || |hex| % 6 != 0 then None else Decode(hex, false)
  }

  method EngineUnhex(hex: string) returns (out: Option<seq<nat>>)
    ensures out == Unhex(hex)
  {
    hide Decode, Number;
    if hex == "" || |hex| % 6 != 0 { return None; }
    var codes: seq<nat>, offset, valid := [], 0, true;
    EmptyLowerField();
    while offset < |hex|
      invariant offset <= |hex| && offset % 6 == 0
      invariant valid ==> Decode(hex[..offset], false) == Some(codes)
      invariant !valid ==> Decode(hex[..offset], false) == None
    {
      NextGroup(hex, offset, false);
      var code, digits := LowerGroup(hex, offset);
      if !digits || code > 0x10ffff || 0xd800 <= code <= 0xdfff {
        valid := false;
      } else if valid {
        codes := codes + [code];
      }
      offset := offset + 6;
    }
    assert hex[..offset] == hex;
    out := if valid then Some(codes) else None;
  }

  lemma EmptyLowerField()
    ensures Decode(""[..0], false) == Some([])
  {
  }

  /** Six lower-case digits accumulated; stops at the first other character. */
  method LowerGroup(hex: string, offset: nat) returns (code: nat, valid: bool)
    requires offset + 6 <= |hex|
    ensures valid ==> Number(hex[offset..offset + 6], false) == Some(code)
    ensures !valid ==> Number(hex[offset..offset + 6], false) == None
  {
    code, valid := 0, true;
    var digit := 0;
    ghost var six := hex[offset..offset + 6];
    while digit < 6
      invariant 0 <= digit <= 6
      invariant valid ==> Number(six[..digit], false) == Some(code)
      invariant !valid ==> digit == 6 && Number(six, false) == None
    {
      assert DropLast(six[..digit + 1]) == six[..digit];
      var nibble := LowerDigit(hex[offset + digit]);
      if nibble.None? {
        BadDigit(six, digit + 1, false);
        valid, digit := false, 6;
      } else {
        code, digit := 16 * code + nibble.value, digit + 1;
      }
    }
    assert six[..6] == six;
  }

  // ---------------------------------------------------------------------------
  // The codec's laws.

  function Pow16(n: nat): nat {
    if n == 0 then 1 else 16 * Pow16(n - 1)
  }

  lemma NibbleIsDigit(n: nat, upper: bool)
    requires n < 16
    ensures (if upper then AnyDigit(Nibble(n)) else LowerDigit(Nibble(n))) == Some(n)
  {
  }

  lemma {:induction false} NumberOfHex(code: nat, n: nat, upper: bool)
    requires code < Pow16(n)
    ensures Number(HexN(code, n), upper) == Some(code)
  {
    hide Nibble;
    if n > 0 {
      NumberOfHex(code / 16, n - 1, upper);
      NibbleIsDigit(code % 16, upper);
      assert DropLast(HexN(code, n)) == HexN(code / 16, n - 1);
    }
  }

  lemma {:induction false} SixDigitsDecode(codes: seq<nat>, upper: bool)
    requires AllScalars(codes)
    ensures |SixDigits(codes)| == 6 * |codes| && Decode(SixDigits(codes), upper) == Some(codes)
  {
    hide Number, HexN;
    if codes != [] {
      SixDigitsDecode(DropLast(codes), upper);
      var front := SixDigits(DropLast(codes));
      var last := HexN(Last(codes), 6);
      assert Pow16(6) == 0x1000000;
      NumberOfHex(Last(codes), 6, upper);
      assert (front + last)[..|front|] == front && (front + last)[|front|..] == last;
      assert DropLast(codes) + [Last(codes)] == codes;
    }
  }

  /**
    The field round trip: the client reads the engine's encoding back as the same text in well-formed
    UTF-16, and the engine's own decoder reads it back unless it is empty.
   */
  lemma HexRoundTrip(codes: seq<nat>)
    requires AllScalars(codes)
    ensures Scalars(Hex(codes)) == Some(codes)
    ensures WellFormed(Utf16(codes)) && Unicode.Scalars(Utf16(codes)) == codes
    ensures Unhex(Hex(codes)) == if codes == [] then None else Some(codes)
  {
    hide Decode, SixDigits, Utf16, Unicode.Scalars, WellFormed;
    SixDigitsDecode(codes, true);
    SixDigitsDecode(codes, false);
    Utf16RoundTrip(codes);
    if codes != [] {
      assert |SixDigits(codes)| >= 6;
      assert |"-"| == 1;
    }
  }

  lemma {:induction false} LowerIsAny(s: string)
    ensures Number(s, false).Some? ==> Number(s, true) == Number(s, false)
  {
    if s != "" { LowerIsAny(DropLast(s)); }
  }

  lemma {:induction false} LowerDecodes(hex: string)
    requires |hex| % 6 == 0 && Decode(hex, false).Some?
    ensures Decode(hex, true) == Decode(hex, false)
  {
    if hex != "" {
      LowerDecodes(hex[..|hex| - 6]);
      LowerIsAny(hex[|hex| - 6..]);
    }
  }

  /** Whatever the engine's decoder accepts, the client's reads the same way, as well-formed UTF-16. */
  lemma ClientReadsWhatEngineReads(hex: string)
    ensures Unhex(hex).Some? ==> Scalars(hex) == Unhex(hex)
    ensures Scalars(hex).Some? ==> AllScalars(Scalars(hex).value) && WellFormed(Utf16(Scalars(hex).value))
  {
    hide Decode;
    if |hex| % 6 == 0 {
      DecodedAreScalars(hex, true);
      if Decode(hex, false).Some? { LowerDecodes(hex); }
    }
    if Scalars(hex).Some? { Utf16RoundTrip(Scalars(hex).value); }
  }
}
