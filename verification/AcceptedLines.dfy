/** Exactly which hexadecimal fields and which STATE lines the client accepts. */
module AcceptedLines {
  import opened Common
  import opened Decimal
  import opened Unicode
  import opened Text
  import ScalarHex
  import opened StateLine

  // ---------------------------------------------------------------------------
  // Text fields.

  function LowerChar(c: char): char {
    if 'A' <= c <= 'F' then (c as int + 32) as char else c
  }

  /** The same digits in lower case. */
  function Lowered(hex: string): string {
    seq(|hex|, i requires 0 <= i < |hex| => LowerChar(hex[i]))
  }

  lemma LoweredAppend(a: string, b: string)
    ensures Lowered(a + b) == Lowered(a) + Lowered(b)
  {
  }

  lemma DigitIsLowered(c: char)
    ensures ScalarHex.AnyDigit(LowerChar(c)) == ScalarHex.AnyDigit(c)
    ensures ScalarHex.AnyDigit(c).Some? ==>
              ScalarHex.AnyDigit(c).value < 16 && ScalarHex.Nibble(ScalarHex.AnyDigit(c).value) == LowerChar(c)
  {
  }

  /** A number read from hex digits is written back as these digits, in lower case. */
  lemma {:induction false} NumberIsWrittenBack(s: string)
    ensures ScalarHex.Number(Lowered(s), true) == ScalarHex.Number(s, true)
    ensures ScalarHex.Number(s, true).Some? ==> ScalarHex.HexN(ScalarHex.Number(s, true).value, |s|) == Lowered(s)
  {
    hide ScalarHex.AnyDigit, ScalarHex.Nibble, LowerChar;
    if s != "" {
      NumberIsWrittenBack(DropLast(s));
      DigitIsLowered(Last(s));
      assert DropLast(Lowered(s)) == Lowered(DropLast(s)) && Last(Lowered(s)) == LowerChar(Last(s));
      if ScalarHex.Number(s, true).Some? {
        var n, d := ScalarHex.Number(DropLast(s), true).value, ScalarHex.AnyDigit(Last(s)).value;
        assert (16 * n + d) / 16 == n && (16 * n + d) % 16 == d;
      }
    }
  }

  lemma {:induction false} DecodedIsWrittenBack(hex: string)
    requires |hex| % 6 == 0
    ensures ScalarHex.Decode(Lowered(hex), true) == ScalarHex.Decode(hex, true)
    ensures ScalarHex.Decode(hex, true).Some? ==>
              var codes := ScalarHex.Decode(hex, true).value;
              AllScalars(codes) && ScalarHex.SixDigits(codes) == Lowered(hex) && |hex| == 6 * |codes|
  {
    hide ScalarHex.Number, ScalarHex.HexN, LowerChar;
    if hex != "" {
      var n := |hex| - 6;
      var front, last := hex[..n], hex[n..];
      assert hex == front + last;
      DecodedIsWrittenBack(front);
      NumberIsWrittenBack(last);
      LoweredAppend(front, last);
      assert Lowered(hex)[..n] == Lowered(front) && Lowered(hex)[n..] == Lowered(last);
      if ScalarHex.Decode(hex, true).Some? {
        var codes := ScalarHex.Decode(hex, true).value;
        assert DropLast(codes) == ScalarHex.Decode(front, true).value;
      }
    }
  }

  /** A field is accepted as a text exactly when it is the hex of that text, in upper or lower case. */
  lemma TextsAreAcceptedExactly(hex: string, codes: seq<nat>)
    ensures ScalarHex.Scalars(hex) == Some(codes) <==>
            AllScalars(codes) && if codes == [] then hex == "" || hex == "-" else Lowered(hex) == ScalarHex.Hex(codes)
  {
    hide ScalarHex.Decode, ScalarHex.SixDigits, LowerChar;
    if ScalarHex.Scalars(hex) == Some(codes) {
      if hex != "-" { DecodedIsWrittenBack(hex); }
    } else if AllScalars(codes) && codes != [] && Lowered(hex) == ScalarHex.Hex(codes) {
      ScalarHex.SixDigitsDecode(codes, true);
      DecodedIsWrittenBack(hex);
      assert false;
    } else if codes == [] {
      NothingDecodes();
    }
  }

  lemma NothingDecodes()
    ensures ScalarHex.Decode("", true) == Some([])
  {
  }

  // ---------------------------------------------------------------------------
  // Whole lines.

  /** A decimal numeral, perhaps with a minus sign, of a 32-bit number. */
  predicate IsNumeral(field: string, n: int) {
    && IsInt(n)
    && ((field != "" && AllDigits(field) && Value(field) == n)
        || ("-" < field && AllDigits(field[1..]) && Value(field[1..]) == -n))
  }

  lemma NumeralsAreAcceptedExactly(field: string, n: int)
    ensures ParseInt(field) == Some(n) <==> IsNumeral(field, n)
  {
    hide Value;
    if field != "" && AllDigits(field) { assert IsDigit(field[0]); }
  }

  /** The pieces of a field between its commas are these texts, in order. */
  predicate IsTextList(pieces: seq<string>, texts: seq<seq<nat>>) {
    |pieces| == |texts| && forall i :: 0 <= i < |pieces| ==> TextField(pieces[i]) == Some(texts[i])
  }

  lemma {:induction false} ListsAreAcceptedExactly(pieces: seq<string>, texts: seq<seq<nat>>)
    ensures AllTexts(pieces) == Some(texts) <==> IsTextList(pieces, texts)
  {
    hide TextField;
    if pieces != [] {
      if texts != [] {
        ListsAreAcceptedExactly(DropLast(pieces), DropLast(texts));
        assert texts == DropLast(texts) + [Last(texts)];
        if IsTextList(pieces, texts) {
          assert forall i :: 0 <= i < |pieces| - 1 ==> DropLast(pieces)[i] == pieces[i] && DropLast(texts)[i] == texts[i];
          assert TextField(pieces[|pieces| - 1]) == Some(texts[|texts| - 1]);
        }
        if AllTexts(pieces) == Some(texts) {
          var front := AllTexts(DropLast(pieces)).value;
          assert texts == front + [TextField(Last(pieces)).value];
          assert DropLast(texts) == front;
          forall i | 0 <= i < |pieces| ensures TextField(pieces[i]) == Some(texts[i]) {
            if i < |pieces| - 1 { assert TextField(DropLast(pieces)[i]) == Some(DropLast(texts)[i]); }
          }
        }
      }
    }
  }

  predicate IsCandidateList(field: string, candidates: seq<seq<nat>>) {
    if field == "-" then candidates == [] else IsTextList(Split(field, ','), candidates)
  }

  /** Eight fields, or nine in registration, each saying its part of the state. */
  predicate IsStateLine(f: seq<string>, s: ClientState) {
    && (|f| == 8 || (|f| == 9 && f[1] == "registration"))
    && f[0] == "STATE" && f[1] == s.mode
    && IsNumeral(f[2], s.cursor) && IsNumeral(f[3], s.compositionStart) && IsNumeral(f[6], s.candidateIndex)
    && TextField(f[4]) == Some(s.text) && TextField(f[5]) == Some(s.pending) && IsCandidateList(f[7], s.candidates)
    && (if |f| == 9 then TextField(f[8]) == Some(s.reading) else s.reading == [])
  }

  /** A line is accepted, and as this state, exactly when its fields say so one by one. */
  lemma LinesAreAcceptedExactly(f: seq<string>, s: ClientState)
    ensures ParseFields(f) == Some(s) <==> IsStateLine(f, s)
  {
    hide TextField, ParseInt, AllTexts, IsNumeral, IsTextList, Split;
    if |f| == 8 || |f| == 9 {
      NumeralsAreAcceptedExactly(f[2], s.cursor);
      NumeralsAreAcceptedExactly(f[3], s.compositionStart);
      NumeralsAreAcceptedExactly(f[6], s.candidateIndex);
      ListsAreAcceptedExactly(Split(f[7], ','), s.candidates);
    }
  }
}
