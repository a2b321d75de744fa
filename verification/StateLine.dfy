/** The STATE line: what the engine emits for a state and what the client parses. */
module StateLine {
  import opened Common
  import opened Decimal
  import opened Unicode
  import opened Text
  import ScalarHex

  // A state as the engine holds it; texts are Unicode scalars. Only registration carries a reading.
  datatype EngineState = EngineState(
    mode: string, cursor: int, compositionStart: Option<int>, text: seq<nat>, pending: seq<nat>,
    candidateIndex: Option<int>, candidates: seq<seq<nat>>, reading: Option<seq<nat>>)

  // A state as the client holds it; texts are UTF-16 units.
  datatype ClientState = ClientState(
    mode: string, cursor: int, compositionStart: int, text: seq<nat>, pending: seq<nat>,
    candidateIndex: int, candidates: seq<seq<nat>>, reading: seq<nat>)

  // ---------------------------------------------------------------------------
  // Emitting.

  function Signed(n: int): string {
    if n < 0 then "-" + Digits(-n) else Digits(n)
  }

  function OrMinusOne(n: Option<int>): int {
    match n
    case Some(value) => value
    case None => -1
  }

  function Hexes(texts: seq<seq<nat>>): seq<string> {
    seq(|texts|, i requires 0 <= i < |texts| => ScalarHex.Hex(texts[i]))
  }

  function CandidateField(candidates: seq<seq<nat>>): string {
    if candidates == [] then "-" else Join(Hexes(candidates), ',')
  }

  function Emit(s: EngineState): string {
    "STATE " + s.mode + " " + Signed(s.cursor) + " " + Signed(OrMinusOne(s.compositionStart)) + " "
    + ScalarHex.Hex(s.text) + " " + ScalarHex.Hex(s.pending) + " "
    + Signed(OrMinusOne(s.candidateIndex)) + " " + CandidateField(s.candidates)
    + if s.reading.Some? then " " + ScalarHex.Hex(s.reading.value) else ""
  }

  // ---------------------------------------------------------------------------
  // Parsing.

  const INT_MIN := -0x8000_0000
  const INT_MAX := 0x7fff_ffff

  /** A whole field as a 32-bit signed number. */
  function ParseInt(s: string): Option<int> {
    if s == "" then None
    else if s[0] == '-' then
      if s[1..] != "" && AllDigits(s[1..]) && Value(s[1..]) <= -INT_MIN then Some(0 - Value(s[1..])) else None
    else if AllDigits(s) && Value(s) <= INT_MAX then Some(Value(s))
    else None
  }

  /** A text field as UTF-16 units. */
  function TextField(hex: string): Option<seq<nat>> {
    match ScalarHex.Scalars(hex)
    case Some(codes) => if AllScalars(codes) then Some(Utf16(codes)) else None
    case None => None
  }

  function AllTexts(fields: seq<string>): Option<seq<seq<nat>>> {
    if fields == [] then Some([])
    else
      match (AllTexts(DropLast(fields)), TextField(Last(fields)))
      case (Some(texts), Some(text)) => Some(texts + [text])
      case _ => None
  }

  function CandidateTexts(field: string): Option<seq<seq<nat>>> {
    if field == "-" then Some([]) else AllTexts(Split(field, ','))
  }

  function ParseFields(f: seq<string>): Option<ClientState> {
    if (|f| != 8 && |f| != 9) || f[0] != "STATE" then None
    else if |f| == 9 && f[1] != "registration" then None
    else
      var cursor, start, index := ParseInt(f[2]), ParseInt(f[3]), ParseInt(f[6]);
      var text, pending, candidates := TextField(f[4]), TextField(f[5]), CandidateTexts(f[7]);
      var reading := if |f| == 9 then TextField(f[8]) else Some([]);
      if cursor.None? || start.None? || index.None? || text.None? || pending.None? || candidates.None? || reading.None?
      then None
      else Some(ClientState(f[1], cursor.value, start.value, text.value, pending.value, index.value,
                            candidates.value, reading.value))
  }

  /** Decodes the candidates as the field is cut at its commas. */
  method DecodeCandidates(field: string) returns (texts: Option<seq<seq<nat>>>)
    ensures texts == CandidateTexts(field)
  {
    hide TextField, ScalarHex.Scalars, AllTexts, Split, Cutting, NextCut;
    NoTexts();
    if field == "-" { return Some([]); }
    var start, list := 0, [];
    ghost var done: seq<string> := [];
    CuttingStarts(field, ',');
    while start <= |field|
      invariant Cutting(field, ',', start, done) && AllTexts(done) == Some(list)
      decreases |field| + 1 - start
    {
      CuttingAdvances(field, ',', start, done);
      var end := NextCut(field, start, ',');
      var candidate := DecodeText(field[start..end]);
      NextText(done, field[start..end]);
      done := done + [field[start..end]];
      start := end + 1;
      if candidate.None? {
        BadText(field, start, done);
        return None;
      }
      list := list + [candidate.value];
    }
    CuttingEnds(field, ',', start, done);
    texts := Some(list);
  }

  lemma BadText(field: string, start: nat, done: seq<string>)
    requires Cutting(field, ',', start, done) && AllTexts(done) == None
    ensures AllTexts(Split(field, ',')) == None
  {
    hide AllTexts, Split;
    NoTextAfter(done, if start <= |field| then Split(field[start..], ',') else []);
  }

  lemma NoTexts()
    ensures AllTexts([]) == Some([])
  {
  }

  method DecodeText(hex: string) returns (text: Option<seq<nat>>)
    ensures text == TextField(hex)
  {
    text := ScalarHex.DecodeScalarHex(hex);
  }

  lemma NextText(done: seq<string>, field: string)
    ensures AllTexts(done + [field]) ==
            match (AllTexts(done), TextField(field))
            case (Some(texts), Some(text)) => Some(texts + [text])
            case _ => None
  {
    assert DropLast(done + [field]) == done;
  }

  lemma {:induction false} NoTextAfter(fields: seq<string>, more: seq<string>)
    requires AllTexts(fields) == None
    ensures AllTexts(fields + more) == None
    decreases |more|
  {
    hide TextField;
    if more == [] {
      assert fields + [] == fields;
    } else {
      NoTextAfter(fields, DropLast(more));
      assert DropLast(fields + more) == fields + DropLast(more);
    }
  }

  method ParseStateResponse(line: string) returns (state: Option<ClientState>)
    ensures state == ParseFields(Fields(line))
  {
    hide TextField, CandidateTexts, ParseInt, Fields;
    var f := Fields(line);
    if (|f| != 8 && |f| != 9) || f[0] != "STATE" { return None; }
    if |f| == 9 && f[1] != "registration" { return None; }
    var cursor, start, index := ParseInt(f[2]), ParseInt(f[3]), ParseInt(f[6]);
    if cursor.None? || start.None? || index.None? { return None; }
    var text := DecodeText(f[4]);
    var pending := DecodeText(f[5]);
    if text.None? || pending.None? { return None; }
    var candidates := DecodeCandidates(f[7]);
    if candidates.None? { return None; }
    var reading: seq<nat> := [];
    if |f| == 9 {
      var decoded := DecodeText(f[8]);
      if decoded.None? { return None; }
      reading := decoded.value;
    }
    state := Some(ClientState(f[1], cursor.value, start.value, text.value, pending.value, index.value,
                              candidates.value, reading));
  }

  // ---------------------------------------------------------------------------
  // The round trip.

  predicate IsInt(n: int) {
    INT_MIN <= n <= INT_MAX
  }

  /** What the engine can be asked to emit. */
  predicate Emittable(s: EngineState) {
    && IsField(s.mode) && IsInt(s.cursor) && IsInt(OrMinusOne(s.compositionStart)) && IsInt(OrMinusOne(s.candidateIndex))
    && AllScalars(s.text) && AllScalars(s.pending)
    && (forall i :: 0 <= i < |s.candidates| ==> AllScalars(s.candidates[i]))
    && (s.reading.Some? ==> s.mode == "registration" && AllScalars(s.reading.value))
  }

  function Units16(texts: seq<seq<nat>>): seq<seq<nat>>
    requires forall i :: 0 <= i < |texts| ==> AllScalars(texts[i])
  {
    seq(|texts|, i requires 0 <= i < |texts| => Utf16(texts[i]))
  }

  /** The same state on the client's side. */
  function Seen(s: EngineState): ClientState
    requires Emittable(s)
  {
    ClientState(s.mode, s.cursor, OrMinusOne(s.compositionStart), Utf16(s.text), Utf16(s.pending),
                OrMinusOne(s.candidateIndex), Units16(s.candidates),
                if s.reading.Some? then Utf16(s.reading.value) else [])
  }

  lemma IntRoundTrip(n: int)
    requires IsInt(n)
    ensures ParseInt(Signed(n)) == Some(n) && IsField(Signed(n))
  {
    hide Digits, Value;
    var digits := Digits(if n < 0 then -n else n);
    ValueOfDigits(if n < 0 then -n else n);
    assert forall i :: 0 <= i < |digits| ==> IsDigit(digits[i]);
    if n < 0 {
      assert Signed(n)[1..] == digits;
    }
  }

  predicate IsHexChar(c: char) {
    '0' <= c <= '9' || 'a' <= c <= 'f' || c == '-'
  }

  predicate HexChars(s: string) {
    forall i :: 0 <= i < |s| ==> IsHexChar(s[i])
  }

  lemma {:induction false} HexNChars(code: nat, n: nat)
    ensures HexChars(ScalarHex.HexN(code, n))
  {
    if n > 0 {
      HexNChars(code / 16, n - 1);
      assert IsHexChar(ScalarHex.Nibble(code % 16));
    }
  }

  lemma {:induction false} SixDigitsChars(codes: seq<nat>)
    ensures HexChars(ScalarHex.SixDigits(codes)) && |ScalarHex.SixDigits(codes)| == 6 * |codes|
  {
    hide ScalarHex.HexN;
    if codes != [] {
      SixDigitsChars(DropLast(codes));
      HexNChars(Last(codes), 6);
    }
  }

  /** An encoded text is one field, holds no comma, and is "-" only for no text. */
  lemma HexIsField(codes: seq<nat>)
    ensures var hex := ScalarHex.Hex(codes); IsField(hex) && ',' !in hex && (hex == "-" <==> codes == [])
  {
    hide ScalarHex.SixDigits;
    SixDigitsChars(codes);
    var hex := ScalarHex.Hex(codes);
    assert HexChars(hex);
    assert forall i :: 0 <= i < |hex| ==> IsHexChar(hex[i]);
  }

  lemma TextRoundTrip(codes: seq<nat>)
    requires AllScalars(codes)
    ensures TextField(ScalarHex.Hex(codes)) == Some(Utf16(codes))
  {
    hide ScalarHex.Hex, ScalarHex.Scalars;
    ScalarHex.HexRoundTrip(codes);
  }

  lemma {:induction false} AllTextsRoundTrip(texts: seq<seq<nat>>)
    requires forall i :: 0 <= i < |texts| ==> AllScalars(texts[i])
    ensures AllTexts(Hexes(texts)) == Some(Units16(texts))
  {
    hide TextField, ScalarHex.Hex, Utf16;
    if texts != [] {
      AllTextsRoundTrip(DropLast(texts));
      TextRoundTrip(Last(texts));
      assert DropLast(Hexes(texts)) == Hexes(DropLast(texts));
      assert Units16(DropLast(texts)) + [Utf16(Last(texts))] == Units16(texts);
    }
  }

  lemma {:induction false} JoinedIsField(fields: seq<string>)
    requires fields != [] && forall i :: 0 <= i < |fields| ==> IsField(fields[i])
    ensures IsField(Join(fields, ','))
  {
    if |fields| > 1 {
      assert IsField(fields[0]);
      JoinedIsField(fields[1..]);
    }
  }

  /** The candidate field comes back, except that one empty candidate looks like none. */
  lemma CandidatesRoundTrip(candidates: seq<seq<nat>>)
    requires forall i :: 0 <= i < |candidates| ==> AllScalars(candidates[i])
    ensures IsField(CandidateField(candidates))
    ensures CandidateTexts(CandidateField(candidates)) == Some(if candidates == [[]] then [] else Units16(candidates))
  {
    hide TextField, ScalarHex.Hex, Utf16, AllTexts, Split;
    if candidates != [] {
      var hexes := Hexes(candidates);
      forall i | 0 <= i < |candidates| ensures IsField(hexes[i]) && ',' !in hexes[i] { HexIsField(candidates[i]); }
      JoinedIsField(hexes);
      SplitJoin(hexes, ',');
      AllTextsRoundTrip(candidates);
      HexIsField(candidates[0]);
      if CandidateField(candidates) == "-" {
        assert ["-"] == hexes by {
          assert Join(["-"], ',') == "-";
          SplitJoin(["-"], ',');
        }
        assert candidates == [candidates[0]];
      } else {
        assert candidates != [[]];
      }
    } else {
      assert Units16(candidates) == [];
    }
  }

  function EmittedFields(s: EngineState): seq<string> {
    ["STATE", s.mode, Signed(s.cursor), Signed(OrMinusOne(s.compositionStart)), ScalarHex.Hex(s.text),
     ScalarHex.Hex(s.pending), Signed(OrMinusOne(s.candidateIndex)), CandidateField(s.candidates)]
    + if s.reading.Some? then [ScalarHex.Hex(s.reading.value)] else []
  }

  lemma JoinEight(a: string, b: string, c: string, d: string, e: string, f: string, g: string, h: string)
    ensures Join([a, b, c, d, e, f, g, h], ' ')
         == a + " " + b + " " + c + " " + d + " " + e + " " + f + " " + g + " " + h
  {
    JoinAppend([a], b, ' ');
    assert [a] + [b] == [a, b];
    JoinAppend([a, b], c, ' ');
    assert [a, b] + [c] == [a, b, c];
    JoinAppend([a, b, c], d, ' ');
    assert [a, b, c] + [d] == [a, b, c, d];
    JoinAppend([a, b, c, d], e, ' ');
    assert [a, b, c, d] + [e] == [a, b, c, d, e];
    JoinAppend([a, b, c, d, e], f, ' ');
    assert [a, b, c, d, e] + [f] == [a, b, c, d, e, f];
    JoinAppend([a, b, c, d, e, f], g, ' ');
    assert [a, b, c, d, e, f] + [g] == [a, b, c, d, e, f, g];
    JoinAppend([a, b, c, d, e, f, g], h, ' ');
    assert [a, b, c, d, e, f, g] + [h] == [a, b, c, d, e, f, g, h];
  }

  lemma EmitJoinsFields(s: EngineState)
    ensures Emit(s) == Join(EmittedFields(s), ' ')
  {
    hide Signed, ScalarHex.Hex, CandidateField, Join, OrMinusOne;
    var cursor, start, index := Signed(s.cursor), Signed(OrMinusOne(s.compositionStart)), Signed(OrMinusOne(s.candidateIndex));
    var text, pending, candidates := ScalarHex.Hex(s.text), ScalarHex.Hex(s.pending), CandidateField(s.candidates);
    var eight := ["STATE", s.mode, cursor, start, text, pending, index, candidates];
    JoinEight("STATE", s.mode, cursor, start, text, pending, index, candidates);
    assert Join(eight, ' ') == Emit(s.(reading := None)) by { StateWord(s.mode, cursor, start, text, pending, index, candidates); }
    match s.reading
    case Some(reading) =>
      JoinAppend(eight, ScalarHex.Hex(reading), ' ');
    case None =>
      assert EmittedFields(s) == eight;
  }

  lemma StateWord(a: string, b: string, c: string, d: string, e: string, f: string, g: string)
    ensures "STATE" + " " + a + " " + b + " " + c + " " + d + " " + e + " " + f + " " + g
         == "STATE " + a + " " + b + " " + c + " " + d + " " + e + " " + f + " " + g
  {
    assert "STATE" + " " == "STATE ";
  }

  lemma EmittedAreFields(s: EngineState)
    requires Emittable(s)
    ensures forall i :: 0 <= i < |EmittedFields(s)| ==> IsField(EmittedFields(s)[i])
  {
    hide Signed, ScalarHex.Hex, CandidateField, IsInt;
    IntRoundTrip(s.cursor);
    IntRoundTrip(OrMinusOne(s.compositionStart));
    IntRoundTrip(OrMinusOne(s.candidateIndex));
    HexIsField(s.text);
    HexIsField(s.pending);
    CandidatesRoundTrip(s.candidates);
    if s.reading.Some? { HexIsField(s.reading.value); }
  }

  lemma FieldsComeBack(s: EngineState)
    requires Emittable(s)
    ensures ParseFields(EmittedFields(s)) == Some(Seen(s.(candidates := if s.candidates == [[]] then [] else s.candidates)))
  {
    hide Signed, ScalarHex.Hex, CandidateField, IsInt, ParseInt, TextField, CandidateTexts, Utf16;
    IntRoundTrip(s.cursor);
    IntRoundTrip(OrMinusOne(s.compositionStart));
    IntRoundTrip(OrMinusOne(s.candidateIndex));
    TextRoundTrip(s.text);
    TextRoundTrip(s.pending);
    CandidatesRoundTrip(s.candidates);
    if s.reading.Some? { TextRoundTrip(s.reading.value); }
    if s.candidates == [[]] { assert Units16([]) == []; }
  }

  /**
    Parsing an emitted line gives the state back, its texts as UTF-16, exactly when the candidate list
    is not one empty string; that list comes back as no candidates.
   */
  lemma StateRoundTrip(s: EngineState)
    requires Emittable(s)
    ensures ParseFields(Fields(Emit(s))) == Some(Seen(s)) <==> s.candidates != [[]]
    ensures s.candidates == [[]] ==> ParseFields(Fields(Emit(s))) == Some(Seen(s.(candidates := [])))
  {
    hide Emit, Fields, ParseFields, EmittedFields, Utf16;
    EmitJoinsFields(s);
    EmittedAreFields(s);
    FieldsOfJoined(EmittedFields(s));
    FieldsComeBack(s);
    if s.candidates == [[]] {
      assert |Seen(s).candidates| == 1;
    } else {
      assert s.(candidates := s.candidates) == s;
    }
  }

  lemma TextFieldIsWellFormed(hex: string)
    ensures TextField(hex).Some? ==> WellFormed(TextField(hex).value)
  {
    ScalarHex.ClientReadsWhatEngineReads(hex);
  }

  lemma {:induction false} AllTextsAreWellFormed(fields: seq<string>)
    ensures AllTexts(fields).Some? ==>
            forall i :: 0 <= i < |AllTexts(fields).value| ==> WellFormed(AllTexts(fields).value[i])
  {
    hide TextField, WellFormed;
    if fields != [] {
      AllTextsAreWellFormed(DropLast(fields));
      TextFieldIsWellFormed(Last(fields));
    }
  }

  /** Whatever line arrives, every text a parsed state carries is well-formed UTF-16. */
  lemma ParsedStateIsWellFormed(line: string)
    requires ParseFields(Fields(line)).Some?
    ensures var state := ParseFields(Fields(line)).value;
      && WellFormed(state.text) && WellFormed(state.pending) && WellFormed(state.reading)
      && (forall i :: 0 <= i < |state.candidates| ==> WellFormed(state.candidates[i]))
  {
    hide TextField, WellFormed, Fields, AllTexts, Split;
    var f := Fields(line);
    TextFieldIsWellFormed(f[4]);
    TextFieldIsWellFormed(f[5]);
    AllTextsAreWellFormed(Split(f[7], ','));
    NoUnits();
    if |f| == 9 { TextFieldIsWellFormed(f[8]); }
  }

  lemma NoUnits()
    ensures WellFormed([])
  {
  }
}
