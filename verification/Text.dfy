/** Cutting strings: at a separator character, and into blank-separated fields. */
module Text {
  import opened Common

  /** The pieces between the separators; always at least one. */
  function Split(s: string, c: char): (pieces: seq<string>)
    ensures pieces != []
    decreases |s|
  {
    IndexOfFinds(s, c);
    var end := IndexOf(s, c);
    if end == |s| then [s] else [s[..end]] + Split(s[end + 1..], c)
  }

  function Join(pieces: seq<string>, c: char): string {
    if pieces == [] then ""
    else if |pieces| == 1 then pieces[0]
    else pieces[0] + [c] + Join(pieces[1..], c)
  }

  predicate Without(pieces: seq<string>, c: char) {
    forall i :: 0 <= i < |pieces| ==> c !in pieces[i]
  }

  lemma {:induction false} SplitJoin(pieces: seq<string>, c: char)
    requires pieces != [] && Without(pieces, c)
    ensures Split(Join(pieces, c), c) == pieces
  {
    var first := pieces[0];
    assert first[..|first|] == first;
    if |pieces| == 1 {
      IndexOfIs(first, c, |first|);
    } else {
      var rest := Join(pieces[1..], c);
      var s := first + [c] + rest;
      assert s[..|first|] == first && s[|first| + 1..] == rest;
      IndexOfIs(s, c, |first|);
      SplitJoin(pieces[1..], c);
    }
  }

  lemma {:induction false} JoinSplit(s: string, c: char)
    ensures Join(Split(s, c), c) == s && Without(Split(s, c), c)
    decreases |s|
  {
    IndexOfFinds(s, c);
    var end := IndexOf(s, c);
    if end == |s| {
      assert s[..end] == s;
    } else {
      JoinSplit(s[end + 1..], c);
      var rest := Split(s[end + 1..], c);
      assert ([s[..end]] + rest)[1..] == rest;
      assert s[..end] + [c] + s[end + 1..] == s;
    }
  }

  lemma {:induction false} JoinAppend(pieces: seq<string>, last: string, c: char)
    requires pieces != []
    ensures Join(pieces + [last], c) == Join(pieces, c) + [c] + last
  {
    if |pieces| == 1 {
      assert (pieces + [last])[1..] == [last];
    } else {
      JoinAppend(pieces[1..], last, c);
      assert (pieces + [last])[1..] == pieces[1..] + [last];
      assert pieces[0] + [c] + (Join(pieces[1..], c) + [c] + last) == pieces[0] + [c] + Join(pieces[1..], c) + [c] + last;
    }
  }

  // ---------------------------------------------------------------------------
  // Cutting piece by piece.

  /** The next separator from a position on, or the end. */
  function NextCut(s: string, start: nat, c: char): (end: nat)
    requires start <= |s|
    ensures start <= end <= |s|
  {
    IndexOfFinds(s[start..], c);
    start + IndexOf(s[start..], c)
  }

  /** The pieces before `start` are cut off; a position past the end leaves none. */
  ghost predicate Cutting(s: string, c: char, start: nat, done: seq<string>) {
    start <= |s| + 1 && Split(s, c) == done + (if start <= |s| then Split(s[start..], c) else [])
  }

  lemma CuttingStarts(s: string, c: char)
    ensures Cutting(s, c, 0, [])
  {
    assert s[0..] == s;
  }

  /** The next piece, and the pieces after its separator. */
  lemma SplitStep(s: string, start: nat, c: char)
    requires start <= |s|
    ensures var end := NextCut(s, start, c);
      Split(s[start..], c) == [s[start..end]] + (if end < |s| then Split(s[end + 1..], c) else [])
  {
    var rest := s[start..];
    IndexOfFinds(rest, c);
    var end := NextCut(s, start, c);
    assert s[start..end] == rest[..end - start];
    if end < |s| {
      assert rest[end - start + 1..] == s[end + 1..];
    } else {
      assert rest[..|rest|] == rest;
    }
  }

  lemma CuttingAdvances(s: string, c: char, start: nat, done: seq<string>)
    requires start <= |s| && Cutting(s, c, start, done)
    ensures Cutting(s, c, NextCut(s, start, c) + 1, done + [s[start..NextCut(s, start, c)]])
  {
    hide Split, NextCut;
    SplitStep(s, start, c);
    var end := NextCut(s, start, c);
    var piece := s[start..end];
    if end < |s| {
      assert done + ([piece] + Split(s[end + 1..], c)) == done + [piece] + Split(s[end + 1..], c);
    } else {
      assert done + [piece] + [] == done + [piece];
    }
  }

  lemma CuttingEnds(s: string, c: char, start: nat, done: seq<string>)
    requires Cutting(s, c, start, done) && start > |s|
    ensures Split(s, c) == done
  {
    assert done + [] == done;
  }

  lemma NextCutIs(s: string, start: nat, c: char, end: nat)
    requires start <= end <= |s| && c !in s[start..end] && (end < |s| ==> s[end] == c)
    ensures NextCut(s, start, c) == end
  {
    assert s[start..][..end - start] == s[start..end];
    IndexOfIs(s[start..], c, end - start);
  }

  // ---------------------------------------------------------------------------
  // Fields, as formatted stream input reads them.

  predicate IsBlank(c: char) {
    c == ' ' || c == '\n' || c == '\r' || c == '\t' || c == 11 as char || c == 12 as char
  }

  predicate IsField(s: string) {
    s != "" && forall i :: 0 <= i < |s| ==> !IsBlank(s[i])
  }

  function SkipBlanks(s: string): (rest: string)
    ensures |rest| <= |s| && (rest != "" ==> !IsBlank(rest[0]))
  {
    if s != "" && IsBlank(s[0]) then SkipBlanks(s[1..]) else s
  }

  function FieldLength(s: string): (n: nat)
    ensures n <= |s|
  {
    if s == "" || IsBlank(s[0]) then 0 else 1 + FieldLength(s[1..])
  }

  function Fields(s: string): seq<string>
    decreases |s|
  {
    var rest := SkipBlanks(s);
    if rest == "" then []
    else [rest[..FieldLength(rest)]] + Fields(rest[FieldLength(rest)..])
  }

  lemma {:induction false} FieldLengthIs(s: string, n: nat)
    requires n <= |s| && (forall i :: 0 <= i < n ==> !IsBlank(s[i])) && (n < |s| ==> IsBlank(s[n]))
    ensures FieldLength(s) == n
  {
    if n > 0 {
      assert !IsBlank(s[0]);
      FieldLengthIs(s[1..], n - 1);
    }
  }

  lemma FieldsOfBlank(s: string)
    ensures Fields(" " + s) == Fields(s)
  {
    assert (" " + s)[1..] == s;
  }

  lemma {:induction false} FieldsOfJoined(fields: seq<string>)
    requires forall i :: 0 <= i < |fields| ==> IsField(fields[i])
    ensures Fields(Join(fields, ' ')) == fields
  {
    if fields != [] {
      var first := fields[0];
      var s := Join(fields, ' ');
      if |fields| == 1 {
        FieldLengthIs(first, |first|);
        assert first[..|first|] == first && first[|first|..] == "";
      } else {
        var rest := Join(fields[1..], ' ');
        assert s == first + (" " + rest);
        FieldLengthIs(s, |first|);
        assert s[..|first|] == first && s[|first|..] == " " + rest;
        FieldsOfBlank(rest);
        FieldsOfJoined(fields[1..]);
      }
    }
  }
}
