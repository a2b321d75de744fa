/** Comma-separated decimal key lists: one encoder, and two decoders written independently. */
module KeyList {
  import opened Common
  import opened Decimal
  import opened Unicode

  // The host's accumulator type.
  newtype uint32 = x: int | 0 <= x < 0x1_0000_0000

  const MAX_BYTES := 8192
  const MAX_KEYS := 1024

  // ---------------------------------------------------------------------------
  // The encoder.

  function Joined(keys: seq<nat>): string {
    if keys == [] then ""
    else if |keys| == 1 then Digits(keys[0])
    else Joined(DropLast(keys)) + "," + Digits(Last(keys))
  }

  /** The argument of an encoded request; empty when there is nothing to send or a key is no scalar. */
  method EncodeKeys(keys: seq<nat>) returns (request: string)
    ensures request == if AllScalars(keys) then Joined(keys) else ""
  {
    request := "";
    var first := true;
    for i := 0 to |keys|
      invariant AllScalars(keys[..i]) && request == Joined(keys[..i]) && first == (i == 0)
    {
      var codepoint := keys[i];
      if codepoint > 0x10ffff || 0xd800 <= codepoint <= 0xdfff { return ""; }
      if !first { request := request + ","; }
      first := false;
      request := request + Digits(codepoint);
      assert DropLast(keys[..i + 1]) == keys[..i];
    }
    assert keys[..|keys|] == keys;
  }

  // ---------------------------------------------------------------------------
  // What a key list means.

  function Scalar(piece: string): Option<nat> {
    if piece != "" && AllDigits(piece) && IsScalar(Value(piece)) then Some(Value(piece)) else None
  }

  /** The keys before the first bad piece, and whether there was none. One trailing comma is no piece. */
  function Decode(encoded: string): (seq<nat>, bool) {
    IndexOfFinds(encoded, ',');
    if encoded == "" then ([], true)
    else
      var end := IndexOf(encoded, ',');
      match Scalar(encoded[..end])
      case None => ([], false)
      case Some(key) =>
        if end == |encoded| then ([key], true)
        else
          var (keys, ok) := Decode(encoded[end + 1..]);
          ([key] + keys, ok)
  }

  /** What is left from `start` on; a position one past the end leaves nothing. */
  function Rest(encoded: string, start: nat): string
    requires start <= |encoded| + 1
  {
    if start <= |encoded| then encoded[start..] else ""
  }

  /** The decoders find the next comma, or the end, from a position. */
  function CommaFrom(encoded: string, start: nat): (end: nat)
    requires start <= |encoded|
    ensures start <= end <= |encoded|
  {
    IndexOfFinds(encoded[start..], ',');
    start + IndexOf(encoded[start..], ',')
  }

  /** One turn of either decoder: keys so far, and what the rest still means. */
  ghost predicate Progress(encoded: string, start: nat, keys: seq<nat>) {
    && start <= |encoded| + 1
    && Decode(encoded) == (keys + Decode(Rest(encoded, start)).0, Decode(Rest(encoded, start)).1)
  }

  lemma NothingTaken(encoded: string)
    ensures Progress(encoded, 0, [])
  {
    assert encoded[0..] == encoded;
    assert [] + Decode(encoded).0 == Decode(encoded).0;
  }

  lemma AllTaken(encoded: string, start: nat, keys: seq<nat>)
    requires Progress(encoded, start, keys) && start >= |encoded|
    ensures Decode(encoded) == (keys, true)
  {
    assert Rest(encoded, start) == "";
    assert keys + [] == keys;
  }

  lemma BadPiece(encoded: string, start: nat, keys: seq<nat>)
    requires start < |encoded| && Progress(encoded, start, keys)
    requires Scalar(encoded[start..CommaFrom(encoded, start)]) == None
    ensures Decode(encoded) == (keys, false)
  {
    hide Scalar;
    var rest := encoded[start..];
    var end := CommaFrom(encoded, start);
    assert encoded[start..end] == rest[..end - start];
    assert Decode(rest) == ([], false);
    assert keys + [] == keys;
  }

  lemma EmptyPieceIsBad(encoded: string, start: nat)
    requires start <= |encoded|
    ensures Scalar(encoded[start..start]) == None
  {
    assert encoded[start..start] == "";
  }

  lemma FirstPiece(rest: string, key: nat)
    requires rest != "" && Scalar(rest[..CommaFrom(rest, 0)]) == Some(key)
    ensures var after := Rest(rest, CommaFrom(rest, 0) + 1); Decode(rest) == ([key] + Decode(after).0, Decode(after).1)
  {
    hide Scalar;
    assert rest[0..] == rest;
    assert [key] + [] == [key];
  }

  lemma GoodPiece(encoded: string, start: nat, keys: seq<nat>, key: nat)
    requires start < |encoded| && Progress(encoded, start, keys)
    requires Scalar(encoded[start..CommaFrom(encoded, start)]) == Some(key)
    ensures Progress(encoded, CommaFrom(encoded, start) + 1, keys + [key])
  {
    hide Scalar, Decode, IndexOf;
    var rest := encoded[start..];
    var end := CommaFrom(encoded, start);
    assert rest[0..] == rest;
    assert encoded[start..end] == rest[..end - start];
    FirstPiece(rest, key);
    var after := Rest(encoded, end + 1);
    assert Rest(rest, end - start + 1) == after;
    assert keys + ([key] + Decode(after).0) == keys + [key] + Decode(after).0;
  }

  // ---------------------------------------------------------------------------
  // The engine's decoder.

  method EngineScalar(encoded: string, start: nat, end: nat) returns (scalar: Option<nat>)
    requires start < end <= |encoded|
    ensures scalar == Scalar(encoded[start..end])
  {
    var index, code, valid := start, 0, true;
    ghost var piece := encoded[start..end];
    while valid && index < end
      invariant start <= index <= end
      invariant valid ==> AllDigits(piece[..index - start]) && code == Value(piece[..index - start])
      invariant !valid ==> !AllDigits(piece)
      decreases end - index, valid
    {
      var c := encoded[index];
      assert c == piece[index - start];
      if c < '0' || c > '9' {
        valid := false;
      } else {
        AppendDigit(piece[..index - start], c);
        assert piece[..index - start] + [c] == piece[..index + 1 - start];
        code, index := code * 10 + (c as int - '0' as int), index + 1;
      }
    }
    assert piece[..|piece|] == piece;
    if code > 0x10ffff || 0xd800 <= code <= 0xdfff { valid := false; }
    scalar := if valid then Some(code) else None;
  }

  /** The engine's loop over a piece: all digits first, the Unicode range afterwards. */
  function EngineCode(piece: string, code: nat): Option<nat> {
    if piece == "" then (if IsScalar(code) then Some(code) else None)
    else if !IsDigit(piece[0]) then None
    else EngineCode(piece[1..], code * 10 + DigitValue(piece[0]))
  }

  /** The engine's loop over the pieces. */
  function EngineScan(encoded: string): Option<seq<nat>> {
    IndexOfFinds(encoded, ',');
    var end := IndexOf(encoded, ',');
    if encoded == "" then Some([])
    else if end == 0 then None
    else
      match EngineCode(encoded[..end], 0)
      case None => None
      case Some(key) =>
        if end == |encoded| then Some([key])
        else
          match EngineScan(encoded[end + 1..])
          case None => None
          case Some(keys) => Some([key] + keys)
  }

  function EngineResult(encoded: string): Option<seq<nat>> {
    if encoded == "" then None else EngineScan(encoded)
  }

  method EngineDecode(encoded: string) returns (decoded: Option<seq<nat>>)
    ensures decoded == EngineResult(encoded)
    ensures decoded == if encoded != "" && Decode(encoded).1 then Some(Decode(encoded).0) else None
  {
    hide Decode, Progress, Scalar, EngineScan;
    EngineScanMeans(encoded);
    if encoded == "" { return None; }
    var start, keys := 0, [];
    NothingTaken(encoded);
    while start < |encoded|
      invariant Progress(encoded, start, keys)
    {
      var end := CommaFrom(encoded, start);
      if end == start {
        EmptyPieceIsBad(encoded, start);
        BadPiece(encoded, start, keys);
        return None;
      }
      var scalar := EngineScalar(encoded, start, end);
      if scalar.None? {
        BadPiece(encoded, start, keys);
        return None;
      }
      GoodPiece(encoded, start, keys, scalar.value);
      keys := keys + [scalar.value];
      start := end + 1;
    }
    AllTaken(encoded, start, keys);
    decoded := Some(keys);
  }

  // ---------------------------------------------------------------------------
  // The host's decoder: 32-bit accumulation, stopped as soon as it leaves the Unicode range.

  method HostScalar(encoded: string, start: nat, end: nat) returns (scalar: Option<nat>)
    requires start < end <= |encoded|
    ensures scalar == Scalar(encoded[start..end])
  {
    var codepoint: uint32 := 0;
    ghost var piece := encoded[start..end];
    for index := start to end
      invariant AllDigits(piece[..index - start]) && codepoint as int == Value(piece[..index - start])
      invariant codepoint <= 0x10ffff
    {
      var value := encoded[index];
      assert value == piece[index - start];
      if value < '0' || value > '9' { return None; }
      AppendDigit(piece[..index - start], value);
      assert piece[..index - start] + [value] == piece[..index + 1 - start];
      codepoint := codepoint * 10 + (value as int - '0' as int) as uint32;
      if codepoint > 0x10ffff {
        if AllDigits(piece) { PrefixIsSmaller(piece, index + 1 - start); }
        return None;
      }
    }
    assert piece[..|piece|] == piece;
    if 0xd800 <= codepoint <= 0xdfff { return None; }
    scalar := Some(codepoint as int);
  }

  /** What the host makes of a list: the keys it feeds before it stops, and whether it accepts it. */
  function HostKeys(encoded: string): (seq<nat>, bool) {
    var (keys, ok) := Decode(encoded);
    if encoded == "" || |encoded| > MAX_BYTES then ([], false)
    else if |keys| > MAX_KEYS then (keys[..MAX_KEYS], false)
    else (keys, ok)
  }

  /** The host's loop over a piece: out of the Unicode range at the first digit that leaves it. */
  function HostCode(piece: string, codepoint: nat): Option<nat> {
    if piece == "" then (if 0xd800 <= codepoint <= 0xdfff then None else Some(codepoint))
    else if !IsDigit(piece[0]) then None
    else if codepoint * 10 + DigitValue(piece[0]) > 0x10ffff then None
    else HostCode(piece[1..], codepoint * 10 + DigitValue(piece[0]))
  }

  /** The host's loop over the pieces: the keys fed before it stops, and whether it reached the end. */
  function HostScan(encoded: string, count: nat): (seq<nat>, bool) {
    IndexOfFinds(encoded, ',');
    var end := IndexOf(encoded, ',');
    if encoded == "" then ([], true)
    else if end == 0 || count + 1 > MAX_KEYS then ([], false)
    else
      match HostCode(encoded[..end], 0)
      case None => ([], false)
      case Some(key) =>
        if end == |encoded| then ([key], true)
        else
          var (keys, ok) := HostScan(encoded[end + 1..], count + 1);
          ([key] + keys, ok)
  }

  function HostResult(encoded: string): (seq<nat>, bool) {
    if encoded == "" || |encoded| > MAX_BYTES then ([], false) else HostScan(encoded, 0)
  }

  method HostDecode(encoded: string) returns (keys: seq<nat>, accepted: bool)
    ensures (keys, accepted) == HostResult(encoded) == HostKeys(encoded)
  {
    hide Decode, Progress, Scalar, HostScan;
    HostResultMeans(encoded);
    keys := [];
    if encoded == "" || |encoded| > MAX_BYTES { return [], false; }
    var start := 0;
    NothingTaken(encoded);
    while start < |encoded|
      invariant Progress(encoded, start, keys) && |keys| <= MAX_KEYS
    {
      var end := CommaFrom(encoded, start);
      if end == start {
        EmptyPieceIsBad(encoded, start);
        BadPiece(encoded, start, keys);
        return keys, false;
      }
      if |keys| + 1 > MAX_KEYS {
        StopsAtTheLimit(encoded, start, keys);
        return keys, false;
      }
      var scalar := HostScalar(encoded, start, end);
      if scalar.None? {
        BadPiece(encoded, start, keys);
        return keys, false;
      }
      GoodPiece(encoded, start, keys, scalar.value);
      keys := keys + [scalar.value];
      start := end + 1;
    }
    AllTaken(encoded, start, keys);
    accepted := true;
  }

  /** With the limit reached and another piece to come, the list is refused, whatever the piece is. */
  lemma StopsAtTheLimit(encoded: string, start: nat, keys: seq<nat>)
    requires start < |encoded| <= MAX_BYTES && Progress(encoded, start, keys) && |keys| == MAX_KEYS
    ensures HostKeys(encoded) == (keys, false)
  {
    hide Scalar, Decode;
    match Scalar(encoded[start..CommaFrom(encoded, start)])
    case None =>
      BadPiece(encoded, start, keys);
    case Some(key) =>
      GoodPiece(encoded, start, keys, key);
      var more := Decode(Rest(encoded, CommaFrom(encoded, start) + 1)).0;
      assert Decode(encoded).0 == keys + ([key] + more);
      assert Decode(encoded).0[..MAX_KEYS] == keys;
  }

  // ---------------------------------------------------------------------------
  // The codec's laws.

  lemma {:induction false} EngineCodeMeans(piece: string, n: nat)
    requires n <= |piece|
    ensures AllDigits(piece[..n]) ==> EngineCode(piece, 0) == EngineCode(piece[n..], Value(piece[..n]))
    ensures !AllDigits(piece[..n]) ==> EngineCode(piece, 0) == None
  {
    if n == 0 {
      assert piece[0..] == piece;
    } else {
      EngineCodeMeans(piece, n - 1);
      assert piece[..n] == piece[..n - 1] + [piece[n - 1]] && piece[n - 1..][1..] == piece[n..];
      if AllDigits(piece[..n - 1]) && IsDigit(piece[n - 1]) { AppendDigit(piece[..n - 1], piece[n - 1]); }
    }
  }

  lemma EnginePieceMeans(piece: string)
    requires piece != ""
    ensures EngineCode(piece, 0) == Scalar(piece)
  {
    EngineCodeMeans(piece, |piece|);
    assert piece[..|piece|] == piece && piece[|piece|..] == "";
  }

  lemma {:induction false} HostCodeMeans(piece: string, n: nat)
    requires n <= |piece|
    ensures AllDigits(piece[..n]) && Value(piece[..n]) <= 0x10ffff ==>
            HostCode(piece, 0) == HostCode(piece[n..], Value(piece[..n]))
    ensures !AllDigits(piece[..n]) || Value(piece[..n]) > 0x10ffff ==> HostCode(piece, 0) == None
  {
    if n == 0 {
      assert piece[0..] == piece;
    } else {
      HostCodeMeans(piece, n - 1);
      assert piece[..n] == piece[..n - 1] + [piece[n - 1]] && piece[n - 1..][1..] == piece[n..];
      if AllDigits(piece[..n - 1]) && IsDigit(piece[n - 1]) { AppendDigit(piece[..n - 1], piece[n - 1]); }
    }
  }

  lemma HostPieceMeans(piece: string)
    requires piece != ""
    ensures HostCode(piece, 0) == Scalar(piece)
  {
    HostCodeMeans(piece, |piece|);
    assert piece[..|piece|] == piece && piece[|piece|..] == "";
  }

  lemma EmptyPieceMeans()
    ensures Scalar("") == None
  {
  }

  lemma {:induction false} EngineScanMeans(encoded: string)
    ensures EngineScan(encoded) == if Decode(encoded).1 then Some(Decode(encoded).0) else None
  {
    hide EngineCode, Scalar;
    IndexOfFinds(encoded, ',');
    var end := IndexOf(encoded, ',');
    EmptyPieceMeans();
    if end == 0 { assert encoded[..end] == ""; } else { EnginePieceMeans(encoded[..end]); }
    if end < |encoded| { EngineScanMeans(encoded[end + 1..]); }
  }

  /** What the host's loop makes of the keys the list means, when it counted some before. */
  function Limited(keys: seq<nat>, ok: bool, count: nat): (seq<nat>, bool)
    requires count <= MAX_KEYS
  {
    if |keys| > MAX_KEYS - count then (keys[..MAX_KEYS - count], false) else (keys, ok)
  }

  lemma LimitedCons(key: nat, keys: seq<nat>, ok: bool, count: nat)
    requires count < MAX_KEYS
    ensures Limited([key] + keys, ok, count)
         == ([key] + Limited(keys, ok, count + 1).0, Limited(keys, ok, count + 1).1)
  {
    if |keys| > MAX_KEYS - count - 1 {
      assert ([key] + keys)[..MAX_KEYS - count] == [key] + keys[..MAX_KEYS - count - 1];
    }
  }

  lemma {:induction false} HostScanMeans(encoded: string, count: nat)
    requires count <= MAX_KEYS
    ensures HostScan(encoded, count) == Limited(Decode(encoded).0, Decode(encoded).1, count)
    decreases |encoded|
  {
    hide HostCode, Scalar, Limited;
    IndexOfFinds(encoded, ',');
    var end := IndexOf(encoded, ',');
    EmptyPieceMeans();
    LimitedEnds(encoded, count);
    if end > 0 && count < MAX_KEYS {
      HostPieceMeans(encoded[..end]);
      var scalar := Scalar(encoded[..end]);
      if scalar.Some? && end < |encoded| {
        var rest := encoded[end + 1..];
        HostScanMeans(rest, count + 1);
        LimitedCons(scalar.value, Decode(rest).0, Decode(rest).1, count);
      }
    } else if encoded != "" && end == 0 {
      assert encoded[..end] == "";
    }
  }

  /** Where the host's loop does not go on, its limit makes no difference, or refuses. */
  lemma LimitedEnds(encoded: string, count: nat)
    requires count <= MAX_KEYS
    ensures Limited([], true, count) == ([], true) && Limited([], false, count) == ([], false)
    ensures count < MAX_KEYS ==> forall key :: Limited([key], true, count) == ([key], true)
    ensures count == MAX_KEYS && encoded != "" ==> Limited(Decode(encoded).0, Decode(encoded).1, count) == ([], false)
  {
    hide Scalar;
    IndexOfFinds(encoded, ',');
  }

  lemma HostResultMeans(encoded: string)
    ensures HostResult(encoded) == HostKeys(encoded)
  {
    hide HostScan, Decode;
    HostScanMeans(encoded, 0);
  }

  /**
    The two loops accept the same lists, with the same keys, within the host's two limits; where the
    host refuses, the keys it has fed by then are the first ones the list means.
   */
  lemma DecodersAgree(encoded: string)
    ensures HostResult(encoded).1 <==>
            EngineResult(encoded).Some? && |encoded| <= MAX_BYTES && |EngineResult(encoded).value| <= MAX_KEYS
    ensures HostResult(encoded).1 ==> EngineResult(encoded) == Some(HostResult(encoded).0)
    ensures EngineResult(encoded).Some? ==> HostResult(encoded).0 <= EngineResult(encoded).value
  {
    hide Decode, EngineScan, HostScan;
    EngineScanMeans(encoded);
    HostResultMeans(encoded);
  }

  lemma {:induction false} DecodedKeysAreScalars(encoded: string)
    ensures AllScalars(Decode(encoded).0)
  {
    IndexOfFinds(encoded, ',');
    if encoded != "" && IndexOf(encoded, ',') < |encoded| {
      DecodedKeysAreScalars(encoded[IndexOf(encoded, ',') + 1..]);
    }
  }

  lemma NumeralsHaveNoComma(s: string)
    requires AllDigits(s)
    ensures ',' !in s
  {
  }

  /** A good first piece, with or without more behind it. */
  lemma DecodeCons(key: nat, rest: string)
    requires IsScalar(key)
    ensures Decode(Digits(key)) == ([key], true)
    ensures Decode(Digits(key) + "," + rest) == ([key] + Decode(rest).0, Decode(rest).1)
  {
    var piece := Digits(key);
    ValueOfDigits(key);
    NumeralsHaveNoComma(piece);
    assert piece[..|piece|] == piece;
    IndexOfIs(piece, ',', |piece|);
    var more := piece + "," + rest;
    assert more[..|piece|] == piece && more[|piece| + 1..] == rest;
    IndexOfIs(more, ',', |piece|);
  }

  /** The encoder builds the list from the back; the decoders read it from the front. */
  lemma {:induction false} JoinedFromTheFront(keys: seq<nat>)
    requires |keys| > 1
    ensures Joined(keys) == Digits(keys[0]) + "," + Joined(keys[1..])
  {
    var front := DropLast(keys);
    if |keys| == 2 {
      assert front == [keys[0]] && keys[1..] == [keys[1]];
    } else {
      JoinedFromTheFront(front);
      assert front[1..] == DropLast(keys[1..]) && front[0] == keys[0] && Last(keys) == Last(keys[1..]);
      assert Digits(keys[0]) + "," + Joined(front[1..]) + "," + Digits(Last(keys))
          == Digits(keys[0]) + "," + (Joined(front[1..]) + "," + Digits(Last(keys)));
    }
  }

  lemma {:induction false} DecodeJoined(keys: seq<nat>)
    requires AllScalars(keys)
    ensures Decode(Joined(keys)) == (keys, true)
  {
    if keys != [] {
      if |keys| == 1 {
        DecodeCons(keys[0], "");
        assert keys == [keys[0]];
      } else {
        JoinedFromTheFront(keys);
        DecodeJoined(keys[1..]);
        DecodeCons(keys[0], Joined(keys[1..]));
        assert keys == [keys[0]] + keys[1..];
      }
    }
  }

  lemma {:induction false} JoinedIsShort(keys: seq<nat>)
    requires AllScalars(keys)
    ensures keys != [] ==> 0 < |Joined(keys)| < 8 * |keys|
  {
    if keys != [] {
      ValueOfDigits(Last(keys));
      DigitsAreShort(Last(keys));
      if |keys| == 1 {
        assert Last(keys) == keys[0];
      } else {
        JoinedIsShort(DropLast(keys));
      }
    }
  }

  /** Both decoders invert the encoder, and no list of at most 1024 keys outgrows the host's buffer. */
  lemma KeyListRoundTrip(keys: seq<nat>)
    requires keys != [] && AllScalars(keys)
    ensures EngineResult(Joined(keys)) == Some(keys)
    ensures |keys| <= MAX_KEYS ==> |Joined(keys)| <= MAX_BYTES && HostResult(Joined(keys)) == (keys, true)
    ensures |keys| > MAX_KEYS ==> !HostResult(Joined(keys)).1
  {
    hide Joined, Decode, EngineScan, HostScan;
    DecodeJoined(keys);
    JoinedIsShort(keys);
    EngineScanMeans(Joined(keys));
    HostResultMeans(Joined(keys));
  }

  /** Both decoders take a trailing comma, which the encoder never writes. */
  lemma {:induction false} TrailingCommaIsAccepted(keys: seq<nat>)
    requires keys != [] && AllScalars(keys)
    ensures Decode(Joined(keys) + ",") == (keys, true)
  {
    if |keys| == 1 {
      DecodeCons(keys[0], "");
      assert Joined(keys) + "," + "" == Joined(keys) + ",";
      assert [keys[0]] + [] == keys;
    } else {
      JoinedFromTheFront(keys);
      TrailingCommaIsAccepted(keys[1..]);
      DecodeCons(keys[0], Joined(keys[1..]) + ",");
      assert Joined(keys) + "," == Digits(keys[0]) + "," + (Joined(keys[1..]) + ",");
      assert keys == [keys[0]] + keys[1..];
    }
  }
}
