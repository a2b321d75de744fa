/** Unicode scalars and their UTF-16 form, section 2 of RFC 2781. */
module Unicode {
  import opened Common

  predicate IsScalar(code: int) {
    0 <= code <= 0x10ffff && !(0xd800 <= code <= 0xdfff)
  }

  predicate AllScalars(codes: seq<nat>) {
    forall i :: 0 <= i < |codes| ==> IsScalar(codes[i])
  }

  predicate IsHigh(unit: nat) {
    0xd800 <= unit <= 0xdbff
  }

  predicate IsLow(unit: nat) {
    0xdc00 <= unit <= 0xdfff
  }

  /** One scalar as one or two code units. */
  function Units(code: nat): seq<nat>
    requires IsScalar(code)
  {
    if code <= 0xffff then [code]
    else [0xd800 + (code - 0x10000) / 0x400, 0xdc00 + (code - 0x10000) % 0x400]
  }

  function Utf16(codes: seq<nat>): seq<nat>
    requires AllScalars(codes)
  {
    if codes == [] then [] else Units(codes[0]) + Utf16(codes[1..])
  }

  /** Every unit is a scalar of its own or half of a surrogate pair. */
  predicate WellFormed(units: seq<nat>) {
    if units == [] then true
    else if IsHigh(units[0]) then |units| >= 2 && IsLow(units[1]) && WellFormed(units[2..])
    else units[0] <= 0xffff && !IsLow(units[0]) && WellFormed(units[1..])
  }

  /** Section 2.2 of RFC 2781. */
  function Scalars(units: seq<nat>): seq<nat>
    requires WellFormed(units)
  {
    if units == [] then []
    else if IsHigh(units[0]) then
      [0x10000 + (units[0] - 0xd800) * 0x400 + (units[1] - 0xdc00)] + Scalars(units[2..])
    else [units[0]] + Scalars(units[1..])
  }

  lemma OneMoreScalar(code: nat, rest: seq<nat>)
    requires IsScalar(code) && WellFormed(rest)
    ensures WellFormed(Units(code) + rest) && Scalars(Units(code) + rest) == [code] + Scalars(rest)
  {
    var units := Units(code) + rest;
    if code <= 0xffff {
      assert units[1..] == rest;
    } else {
      assert IsHigh(units[0]) && IsLow(units[1]);
      assert units[2..] == rest;
    }
  }

  /** Encoding gives well-formed UTF-16, and decoding gives the scalars back. */
  lemma {:induction false} Utf16RoundTrip(codes: seq<nat>)
    requires AllScalars(codes)
    ensures WellFormed(Utf16(codes)) && Scalars(Utf16(codes)) == codes
  {
    hide Units;
    if codes != [] {
      Utf16RoundTrip(codes[1..]);
      OneMoreScalar(codes[0], Utf16(codes[1..]));
      assert [codes[0]] + codes[1..] == codes;
    }
  }

  /** Text grows at its end. */
  lemma {:induction false} Utf16Append(codes: seq<nat>, code: nat)
    requires AllScalars(codes) && IsScalar(code)
    ensures AllScalars(codes + [code]) && Utf16(codes + [code]) == Utf16(codes) + Units(code)
  {
    hide Units;
    if codes == [] {
      assert [code][1..] == [];
      assert Utf16([code]) == Units(code);
    } else {
      Utf16Append(codes[1..], code);
      assert (codes + [code])[1..] == codes[1..] + [code];
      assert Units(codes[0]) + (Utf16(codes[1..]) + Units(code)) == Units(codes[0]) + Utf16(codes[1..]) + Units(code);
    }
  }
}
