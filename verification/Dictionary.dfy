/** The built-in dictionaries: parsing SKK-JISYO text, merging candidates, and the two reply formats. */
module Dictionary {
  import opened Common
  import opened Text

  type Jisyo = map<string, string>

  // ---------------------------------------------------------------------------
  // SKK-JISYO text.

  function StripReturn(line: string): string {
    if line != "" && Last(line) == '\r' then DropLast(line) else line
  }

  /** The reading and the candidate text of one line; comments and malformed lines have none. */
  function Entry(raw: string): Option<(string, string)> {
    var line := StripReturn(raw);
    if line == "" || ";;" <= line then None
    else
      IndexOfFinds(line, ' ');
      var space := IndexOf(line, ' ');
      if space == |line| then None
      else
        IndexOfFinds(line[space..], '/');
        var slash := space + IndexOf(line[space..], '/');
        if slash == |line| then None else Some((line[..space], line[slash..]))
  }

  /** Later lines win. */
  function AddLines(jisyo: Jisyo, lines: seq<string>): Jisyo {
    if lines == [] then jisyo
    else
      var before := AddLines(jisyo, DropLast(lines));
      match Entry(Last(lines))
      case Some((midasi, candidates)) => before[midasi := candidates]
      case None => before
  }

  method ParseSkkJisyo(contents: string, jisyo: Jisyo) returns (parsed: Jisyo)
    ensures parsed == AddLines(jisyo, Split(contents, '\n'))
  {
    hide Entry, Split, Cutting, NextCut, StripReturn;
    parsed := jisyo;
    var lineStart := 0;
    ghost var done: seq<string> := [];
    CuttingStarts(contents, '\n');
    while lineStart <= |contents|
      invariant Cutting(contents, '\n', lineStart, done) && parsed == AddLines(jisyo, done)
      decreases |contents| + 1 - lineStart
    {
      CuttingAdvances(contents, '\n', lineStart, done);
      var lineEnd := NextCut(contents, lineStart, '\n');
      var line := contents[lineStart..lineEnd];
      assert DropLast(done + [line]) == done;
      lineStart := lineEnd + 1;
      done := done + [line];
      var entry := Entry(line);
      if entry.Some? { parsed := parsed[entry.value.0 := entry.value.1]; }
    }
    CuttingEnds(contents, '\n', lineStart, done);
  }

  // ---------------------------------------------------------------------------
  // Merging.

  /** Candidates are the same when they agree before the annotation. */
  function Key(candidate: string): string {
    IndexOfFinds(candidate, ';');
    candidate[..IndexOf(candidate, ';')]
  }

  function Keys(candidates: seq<string>): seq<string> {
    seq(|candidates|, i requires 0 <= i < |candidates| => Key(candidates[i]))
  }

  /** The tokens that are candidates: not empty, and outside every "[okuri ... ]" block. */
  function Outside(tokens: seq<string>, inBracket: bool): seq<string> {
    if tokens == [] then []
    else
      var token, rest := tokens[0], tokens[1..];
      if token == "" then Outside(rest, inBracket)
      else if inBracket then Outside(rest, token != "]")
      else if token[0] == '[' then Outside(rest, true)
      else [token] + Outside(rest, false)
  }

  function Candidates(raw: string): seq<string> {
    Outside(Split(raw, '/'), false)
  }

  function Add(kept: seq<string>, candidate: string): seq<string> {
    if Key(candidate) in Keys(kept) then kept else kept + [candidate]
  }

  function AddAll(kept: seq<string>, candidates: seq<string>): seq<string> {
    if candidates == [] then kept else Add(AddAll(kept, DropLast(candidates)), Last(candidates))
  }

  /** The entries for one reading, over the dictionaries in priority order. */
  function Found(jisyos: seq<Jisyo>, midasi: string): seq<string> {
    if jisyos == [] then []
    else
      Found(DropLast(jisyos), midasi)
      + if midasi in Last(jisyos) then Candidates(Last(jisyos)[midasi]) else []
  }

  function Merge(jisyos: seq<Jisyo>, midasi: string): seq<string> {
    AddAll([], Found(jisyos, midasi))
  }

  /** Candidates as an SKK-JISYO value; no candidates, no value. */
  function Value(candidates: seq<string>): string {
    if candidates == [] then "" else Slashed(candidates) + "/"
  }

  function Slashed(candidates: seq<string>): string {
    if candidates == [] then "" else Slashed(DropLast(candidates)) + "/" + Last(candidates)
  }

  /** One dictionary value added to what is kept, token by token. */
  method MergeValue(raw: string, kept: seq<string>, seen: seq<string>)
    returns (ordered: seq<string>, keys: seq<string>)
    requires seen == Keys(kept)
    ensures ordered == AddAll(kept, Candidates(raw)) && keys == Keys(ordered)
  {
    hide Split, Key, Cutting, NextCut, AddAll, Outside;
    ordered, keys := kept, seen;
    var inBracket, pos := false, 0;
    ghost var done: seq<string> := [];
    CuttingStarts(raw, '/');
    while pos <= |raw|
      invariant Cutting(raw, '/', pos, done) && keys == Keys(ordered) && |done| <= |Split(raw, '/')|
      invariant AddAll(kept, Candidates(raw)) == AddAll(ordered, Outside(Split(raw, '/')[|done|..], inBracket))
      decreases |raw| + 1 - pos
    {
      CuttingAdvances(raw, '/', pos, done);
      var next := NextCut(raw, pos, '/');
      var candidate := raw[pos..next];
      PieceAfter(raw, next + 1, done, candidate);
      TokenStep(ordered, candidate, Split(raw, '/')[|done| + 1..], inBracket);
      if next > pos {
        if inBracket {
          if candidate == "]" { inBracket := false; }
        } else if candidate[0] == '[' {
          inBracket := true;
        } else if Key(candidate) !in keys {
          keys := keys + [Key(candidate)];
          ordered := ordered + [candidate];
        }
      }
      done := done + [candidate];
      pos := next + 1;
    }
    CuttingEnds(raw, '/', pos, done);
    assert Split(raw, '/')[|done|..] == [];
    NothingOutside(ordered, inBracket);
  }

  lemma PieceAfter(raw: string, start: nat, done: seq<string>, piece: string)
    requires Cutting(raw, '/', start, done + [piece])
    ensures |done| < |Split(raw, '/')|
    ensures Split(raw, '/')[|done|..] == [piece] + Split(raw, '/')[|done| + 1..]
  {
    hide Split;
    assert Split(raw, '/')[|done|] == (done + [piece])[|done|];
  }

  lemma NothingOutside(kept: seq<string>, inBracket: bool)
    ensures AddAll(kept, Outside([], inBracket)) == kept
  {
  }

  lemma TokenStep(kept: seq<string>, token: string, more: seq<string>, inBracket: bool)
    ensures AddAll(kept, Outside([token] + more, inBracket)) ==
            if token == "" then AddAll(kept, Outside(more, inBracket))
            else if inBracket then AddAll(kept, Outside(more, token != "]"))
            else if token[0] == '[' then AddAll(kept, Outside(more, true))
            else AddAll(Add(kept, token), Outside(more, false))
  {
    hide Key;
    assert ([token] + more)[1..] == more;
    AddAllAppend(kept, [token], Outside(more, false));
    assert DropLast([token]) == [];
  }

  method MergeBuiltinCandidates(jisyos: seq<Jisyo>, midasi: string) returns (merged: string)
    ensures merged == Value(Merge(jisyos, midasi))
  {
    hide Candidates, Key;
    var ordered: seq<string>, seen: seq<string> := [], [];
    for i := 0 to |jisyos|
      invariant ordered == AddAll([], Found(jisyos[..i], midasi)) && seen == Keys(ordered)
    {
      assert DropLast(jisyos[..i + 1]) == jisyos[..i];
      if midasi in jisyos[i] {
        AddAllAppend([], Found(jisyos[..i], midasi), Candidates(jisyos[i][midasi]));
        ordered, seen := MergeValue(jisyos[i][midasi], ordered, seen);
      } else {
        assert Found(jisyos[..i], midasi) + [] == Found(jisyos[..i], midasi);
      }
    }
    assert jisyos[..|jisyos|] == jisyos;
    if ordered == [] { return ""; }
    merged := "";
    for i := 0 to |ordered|
      invariant merged == Slashed(ordered[..i])
    {
      assert DropLast(ordered[..i + 1]) == ordered[..i];
      merged := merged + "/" + ordered[i];
    }
    assert ordered[..|ordered|] == ordered;
    merged := merged + "/";
  }

  lemma {:induction false} AddAllAppend(kept: seq<string>, a: seq<string>, b: seq<string>)
    ensures AddAll(kept, a + b) == AddAll(AddAll(kept, a), b)
    decreases |b|
  {
    hide Add;
    if b == [] {
      assert a + b == a;
    } else {
      AddAllAppend(kept, a, DropLast(b));
      assert DropLast(a + b) == a + DropLast(b);
    }
  }

  // ---------------------------------------------------------------------------
  // What merging means.

  /** Position `i` is the first with its key. */
  predicate IsFirst(candidates: seq<string>, i: nat)
    requires i < |candidates|
  {
    forall j :: 0 <= j < i ==> Key(candidates[j]) != Key(candidates[i])
  }

  /** `at` lists, increasing, exactly the first positions of their keys, and `kept` what stands there. */
  predicate KeepsFirsts(candidates: seq<string>, kept: seq<string>, at: seq<nat>) {
    && |at| == |kept|
    && (forall k :: 0 <= k < |at| ==> at[k] < |candidates| && kept[k] == candidates[at[k]] && IsFirst(candidates, at[k]))
    && (forall k, m :: 0 <= k < m < |at| ==> at[k] < at[m])
    && (forall i :: 0 <= i < |candidates| && IsFirst(candidates, i) ==> i in at)
    && (forall i :: 0 <= i < |candidates| ==> Key(candidates[i]) in Keys(kept))
  }

  lemma FirstsOfFront(candidates: seq<string>, i: nat)
    requires candidates != [] && i < |candidates| - 1
    ensures IsFirst(DropLast(candidates), i) == IsFirst(candidates, i)
  {
    hide Key;
    assert forall j :: 0 <= j <= i ==> DropLast(candidates)[j] == candidates[j];
  }

  lemma RepeatedKeyIsDropped(candidates: seq<string>, kept: seq<string>, at: seq<nat>)
    requires candidates != [] && KeepsFirsts(DropLast(candidates), kept, at) && Key(Last(candidates)) in Keys(kept)
    ensures KeepsFirsts(candidates, kept, at)
  {
    hide Key, IsFirst;
    forall i | 0 <= i < |candidates| - 1 ensures IsFirst(DropLast(candidates), i) == IsFirst(candidates, i) {
      FirstsOfFront(candidates, i);
    }
    var k :| 0 <= k < |Keys(kept)| && Keys(kept)[k] == Key(Last(candidates));
    RepeatedIsNotFirst(candidates, at[k]);
  }

  lemma RepeatedIsNotFirst(candidates: seq<string>, j: nat)
    requires j < |candidates| - 1 && Key(candidates[j]) == Key(Last(candidates))
    ensures !IsFirst(candidates, |candidates| - 1)
  {
    hide Key;
  }

  lemma NewKeyIsKept(candidates: seq<string>, kept: seq<string>, at: seq<nat>)
    requires candidates != [] && KeepsFirsts(DropLast(candidates), kept, at) && Key(Last(candidates)) !in Keys(kept)
    ensures KeepsFirsts(candidates, kept + [Last(candidates)], at + [|candidates| - 1])
  {
    hide Key, IsFirst;
    var front, last := DropLast(candidates), |candidates| - 1;
    forall i | 0 <= i < last ensures IsFirst(front, i) == IsFirst(candidates, i) { FirstsOfFront(candidates, i); }
    assert IsFirst(candidates, last) by {
      NewIsFirst(candidates, kept);
    }
    assert Keys(kept + [Last(candidates)]) == Keys(kept) + [Key(Last(candidates))];
    forall i | 0 <= i < |candidates| ensures Key(candidates[i]) in Keys(kept + [Last(candidates)]) {
      if i < last { assert Key(front[i]) in Keys(kept); }
    }
  }

  lemma NewIsFirst(candidates: seq<string>, kept: seq<string>)
    requires candidates != [] && Key(Last(candidates)) !in Keys(kept)
    requires forall i :: 0 <= i < |DropLast(candidates)| ==> Key(DropLast(candidates)[i]) in Keys(kept)
    ensures IsFirst(candidates, |candidates| - 1)
  {
    hide Key, Keys;
    forall j | 0 <= j < |candidates| - 1 ensures Key(candidates[j]) != Key(Last(candidates)) {
      assert Key(DropLast(candidates)[j]) in Keys(kept);
    }
  }

  /** The merged list is exactly the candidates at the first position of their key, in order. */
  lemma {:induction false} MergeKeepsFirsts(candidates: seq<string>) returns (at: seq<nat>)
    ensures KeepsFirsts(candidates, AddAll([], candidates), at)
  {
    hide Key, Keys, IsFirst;
    if candidates == [] {
      at := [];
    } else {
      var kept := AddAll([], DropLast(candidates));
      at := MergeKeepsFirsts(DropLast(candidates));
      if Key(Last(candidates)) in Keys(kept) {
        RepeatedKeyIsDropped(candidates, kept, at);
      } else {
        NewKeyIsKept(candidates, kept, at);
        at := at + [|candidates| - 1];
      }
    }
  }

  predicate DistinctKeys(candidates: seq<string>) {
    forall i, j :: 0 <= i < j < |candidates| ==> Key(candidates[i]) != Key(candidates[j])
  }

  lemma MergedKeysAreDistinct(candidates: seq<string>)
    ensures DistinctKeys(AddAll([], candidates))
  {
    hide Key;
    var at := MergeKeepsFirsts(candidates);
    var kept := AddAll([], candidates);
    forall i, j | 0 <= i < j < |kept| ensures Key(kept[i]) != Key(kept[j]) {
      assert at[i] < at[j] && IsFirst(candidates, at[j]);
      assert Key(candidates[at[i]]) != Key(candidates[at[j]]);
    }
  }

  lemma {:induction false} AddingExtends(kept: seq<string>, candidates: seq<string>)
    ensures kept <= AddAll(kept, candidates)
  {
    hide Key, Keys;
    if candidates != [] { AddingExtends(kept, DropLast(candidates)); }
  }

  lemma {:induction false} FoundAppend(jisyos: seq<Jisyo>, more: seq<Jisyo>, midasi: string)
    ensures Found(jisyos, midasi) <= Found(jisyos + more, midasi)
    decreases |more|
  {
    hide Candidates;
    if more == [] {
      assert jisyos + more == jisyos;
    } else {
      FoundAppend(jisyos, DropLast(more), midasi);
      assert DropLast(jisyos + more) == jisyos + DropLast(more);
    }
  }

  /** Further dictionaries only add candidates at the end. */
  lemma MoreDictionariesExtend(jisyos: seq<Jisyo>, more: seq<Jisyo>, midasi: string)
    ensures Merge(jisyos, midasi) <= Merge(jisyos + more, midasi)
  {
    hide Found, AddAll;
    FoundAppend(jisyos, more, midasi);
    var a, b := Found(jisyos, midasi), Found(jisyos + more, midasi);
    assert b == a + b[|a|..];
    AddAllAppend([], a, b[|a|..]);
    AddingExtends(AddAll([], a), b[|a|..]);
  }

  // ---------------------------------------------------------------------------
  // Values round trip.

  /** A token that reads back as itself: not empty, no slash, not the start of a bracket block. */
  predicate IsCandidate(c: string) {
    c != "" && '/' !in c && c[0] != '['
  }

  predicate AllCandidates(candidates: seq<string>) {
    forall i :: 0 <= i < |candidates| ==> IsCandidate(candidates[i])
  }

  lemma {:induction false} OutsideAreCandidates(tokens: seq<string>, inBracket: bool)
    requires Without(tokens, '/')
    ensures AllCandidates(Outside(tokens, inBracket))
  {
    if tokens != [] {
      OutsideAreCandidates(tokens[1..], inBracket);
      OutsideAreCandidates(tokens[1..], true);
      OutsideAreCandidates(tokens[1..], false);
      assert '/' !in tokens[0];
    }
  }

  lemma {:induction false} FoundAreCandidates(jisyos: seq<Jisyo>, midasi: string)
    ensures AllCandidates(Found(jisyos, midasi))
  {
    hide Outside, Split;
    if jisyos != [] {
      FoundAreCandidates(DropLast(jisyos), midasi);
      if midasi in Last(jisyos) {
        JoinSplit(Last(jisyos)[midasi], '/');
        OutsideAreCandidates(Split(Last(jisyos)[midasi], '/'), false);
      }
    }
  }

  lemma MergedAreCandidates(jisyos: seq<Jisyo>, midasi: string)
    ensures AllCandidates(Merge(jisyos, midasi))
  {
    hide IsCandidate, AddAll, Found, Key;
    FoundAreCandidates(jisyos, midasi);
    var at := MergeKeepsFirsts(Found(jisyos, midasi));
  }

  /** A rendered value, cut at its slashes: the candidates between two empty pieces. */
  lemma {:induction false} SlashedPieces(candidates: seq<string>)
    requires candidates != [] && AllCandidates(candidates)
    ensures Split(Value(candidates), '/') == [""] + candidates + [""]
  {
    var pieces := [""] + candidates;
    SlashedIsJoined(candidates);
    JoinAppend(pieces, "", '/');
    assert Value(candidates) == Join(pieces + [""], '/') by {
      assert Slashed(candidates) + "/" + "" == Slashed(candidates) + "/";
    }
    SplitJoin(pieces + [""], '/');
  }

  lemma {:induction false} SlashedIsJoined(candidates: seq<string>)
    ensures Slashed(candidates) == Join([""] + candidates, '/')
  {
    if candidates != [] {
      SlashedIsJoined(DropLast(candidates));
      JoinAppend([""] + DropLast(candidates), Last(candidates), '/');
      assert [""] + DropLast(candidates) + [Last(candidates)] == [""] + candidates;
    }
  }

  lemma {:induction false} OutsideOfCandidates(candidates: seq<string>)
    requires AllCandidates(candidates)
    ensures Outside(candidates + [""], false) == candidates
  {
    if candidates == [] {
      assert Outside([""], false) == Outside([""][1..], false) == [];
    } else {
      assert IsCandidate(candidates[0]);
      OutsideOfCandidates(candidates[1..]);
      assert (candidates + [""])[1..] == candidates[1..] + [""];
    }
  }

  lemma ValueReadsBack(candidates: seq<string>)
    requires candidates != [] && AllCandidates(candidates)
    ensures Candidates(Value(candidates)) == candidates
  {
    hide Split, Value, IsCandidate;
    SlashedPieces(candidates);
    var pieces := [""] + candidates + [""];
    assert pieces[1..] == candidates + [""];
    OutsideOfCandidates(candidates);
  }

  lemma NoValueReadsBack()
    ensures Candidates(Value([])) == []
  {
    assert ""[..0] == "";
    assert Split("", '/') == [""];
    assert [""][1..] == [];
  }

  lemma {:induction false} DistinctStay(candidates: seq<string>)
    requires DistinctKeys(candidates)
    ensures AddAll([], candidates) == candidates
  {
    hide Key, Keys, DistinctKeys;
    if candidates != [] {
      DistinctFront(candidates);
      DistinctStay(DropLast(candidates));
      assert DropLast(candidates) + [Last(candidates)] == candidates;
    }
  }

  lemma DistinctFront(candidates: seq<string>)
    requires candidates != [] && DistinctKeys(candidates)
    ensures DistinctKeys(DropLast(candidates)) && Key(Last(candidates)) !in Keys(DropLast(candidates))
  {
    hide Key;
    var front := DropLast(candidates);
    assert forall i :: 0 <= i < |front| ==> front[i] == candidates[i];
    forall i | 0 <= i < |front| ensures Keys(front)[i] != Key(Last(candidates)) {
      assert Keys(front)[i] == Key(candidates[i]);
    }
  }

  /** Merging a merged value again changes nothing. */
  lemma MergeIsIdempotent(jisyos: seq<Jisyo>, midasi: string)
    ensures Merge([map[midasi := Value(Merge(jisyos, midasi))]], midasi) == Merge(jisyos, midasi)
  {
    hide AddAll, Value, Candidates, DistinctKeys, AllCandidates;
    var merged := Merge(jisyos, midasi);
    NoValueReadsBack();
    MergedAreCandidates(jisyos, midasi);
    MergedKeysAreDistinct(Found(jisyos, midasi));
    if merged != [] { ValueReadsBack(merged); }
    DistinctStay(merged);
    var one := [map[midasi := Value(merged)]];
    assert DropLast(one) == [] && Found([], midasi) == [];
    assert Found(one, midasi) == [] + merged == merged;
  }

  // ---------------------------------------------------------------------------
  // Rendering and parsing a dictionary.

  predicate IsEntry(midasi: string, candidates: string) {
    && ' ' !in midasi && '\n' !in midasi && !(";;" <= midasi)
    && candidates != "" && candidates[0] == '/' && '\n' !in candidates && Last(candidates) != '\r'
  }

  function LineOf(entry: (string, string)): string {
    entry.0 + " " + entry.1
  }

  function Lines(entries: seq<(string, string)>): seq<string> {
    seq(|entries|, i requires 0 <= i < |entries| => LineOf(entries[i]))
  }

  /** Entries as text, one line each, the last with its newline too. */
  function Render(entries: seq<(string, string)>): string {
    Join(Lines(entries) + [""], '\n')
  }

  /** Later entries win. */
  function AsMap(entries: seq<(string, string)>): Jisyo {
    if entries == [] then map[] else AsMap(DropLast(entries))[Last(entries).0 := Last(entries).1]
  }

  lemma EntryOfLine(midasi: string, candidates: string)
    requires IsEntry(midasi, candidates)
    ensures Entry(LineOf((midasi, candidates))) == Some((midasi, candidates)) && '\n' !in LineOf((midasi, candidates))
  {
    var line := LineOf((midasi, candidates));
    assert Last(line) == Last(candidates);
    assert line[..|midasi|] == midasi && line[|midasi|] == ' ' && line[|midasi| + 1..] == candidates;
    IndexOfIs(line, ' ', |midasi|);
    assert !(";;" <= line) by {
      if |midasi| >= 2 { assert line[0] == midasi[0] && line[1] == midasi[1]; }
    }
    var rest := line[|midasi|..];
    assert rest == " " + candidates;
    IndexOfIs(rest, '/', 1);
    assert line[|midasi| + 1..] == candidates;
  }

  lemma {:induction false} LinesParse(entries: seq<(string, string)>)
    requires forall i :: 0 <= i < |entries| ==> IsEntry(entries[i].0, entries[i].1)
    ensures AddLines(map[], Lines(entries)) == AsMap(entries) && Without(Lines(entries), '\n')
  {
    hide Entry, IsEntry, LineOf;
    if entries != [] {
      LinesParse(DropLast(entries));
      assert DropLast(Lines(entries)) == Lines(DropLast(entries));
      EntryOfLine(Last(entries).0, Last(entries).1);
      assert (Last(entries).0, Last(entries).1) == Last(entries);
      assert forall i :: 0 <= i < |entries| - 1 ==> Lines(entries)[i] == Lines(DropLast(entries))[i];
    }
  }

  /** Parsing rendered entries gives the map back, the last entry of a reading winning. */
  lemma JisyoRoundTrip(entries: seq<(string, string)>)
    requires forall i :: 0 <= i < |entries| ==> IsEntry(entries[i].0, entries[i].1)
    ensures AddLines(map[], Split(Render(entries), '\n')) == AsMap(entries)
  {
    hide Split, Entry, LineOf, IsEntry;
    LinesParse(entries);
    var lines := Lines(entries) + [""];
    SplitJoin(lines, '\n');
    assert DropLast(lines) == Lines(entries) && Last(lines) == "";
    NoEntryOfNothing();
  }

  lemma NoEntryOfNothing()
    ensures Entry("") == None
  {
  }

  // ---------------------------------------------------------------------------
  // The two replies and their two parsers.

  /** The host's answer to a lookup, when only the built-in dictionaries serve. */
  function ServerReply(jisyos: seq<Jisyo>, midasi: string): string {
    if Merge(jisyos, midasi) == [] then "4" else "1" + Value(Merge(jisyos, midasi))
  }

  function PreviewReply(jisyos: seq<Jisyo>, midasi: string): string {
    if Merge(jisyos, midasi) == [] then "PREVIEW -" else "PREVIEW " + Value(Merge(jisyos, midasi))
  }

  function NonEmpty(pieces: seq<string>): seq<string> {
    if pieces == [] then []
    else NonEmpty(DropLast(pieces)) + if Last(pieces) == "" then [] else [Last(pieces)]
  }

  /** The engine keeps what stands before a slash. */
  function EngineCandidates(reply: string): seq<string> {
    if reply == "" || reply[0] != '1' then [] else NonEmpty(DropLast(Split(reply[1..], '/')))
  }

  method ParseServerReply(reply: string) returns (candidates: seq<string>)
    ensures candidates == EngineCandidates(reply)
  {
    hide Split, Cutting, NextCut, NonEmpty;
    candidates := [];
    if reply == "" || reply[0] != '1' { return; }
    ghost var done: seq<string> := [];
    var start, index := 1, 1;
    CuttingStarts(reply[1..], '/');
    NothingKept();
    while index < |reply|
      invariant 1 <= start <= index <= |reply|
      invariant '/' !in reply[start..index]
      invariant Cutting(reply[1..], '/', start - 1, done) && candidates == NonEmpty(done)
    {
      if reply[index] == '/' {
        PieceEnds(reply, start, index, done);
        var piece := reply[start..index];
        if index > start { candidates := candidates + [piece]; }
        done := done + [piece];
        start := index + 1;
      } else {
        OneMoreCharacter(reply, start, index);
      }
      index := index + 1;
    }
    LastPieceEnds(reply, start, done);
  }

  lemma NothingKept()
    ensures NonEmpty([]) == []
  {
  }

  lemma OneMoreCharacter(s: string, start: nat, index: nat)
    requires start <= index < |s| && '/' !in s[start..index] && s[index] != '/'
    ensures '/' !in s[start..index + 1]
  {
    assert s[start..index + 1] == s[start..index] + [s[index]];
  }

  /** A slash ends a piece, kept if it is not empty. */
  lemma PieceEnds(reply: string, start: nat, index: nat, done: seq<string>)
    requires 1 <= start <= index < |reply| && reply[index] == '/' && '/' !in reply[start..index]
    requires Cutting(reply[1..], '/', start - 1, done)
    ensures var piece := reply[start..index];
      && Cutting(reply[1..], '/', index, done + [piece])
      && NonEmpty(done + [piece]) == NonEmpty(done) + if index > start then [piece] else []
  {
    hide Split, Cutting, NextCut;
    DropOne(reply, start, index);
    NextCutIs(reply[1..], start - 1, '/', index - 1);
    CuttingAdvances(reply[1..], '/', start - 1, done);
    assert DropLast(done + [reply[start..index]]) == done;
  }

  /** What stands behind the last slash is no candidate. */
  lemma LastPieceEnds(reply: string, start: nat, done: seq<string>)
    requires 1 <= start <= |reply| && '/' !in reply[start..|reply|] && Cutting(reply[1..], '/', start - 1, done)
    ensures Split(reply[1..], '/') != [] && DropLast(Split(reply[1..], '/')) == done
  {
    hide Split, Cutting, NextCut;
    var body := reply[1..];
    var rest := body[start - 1..|body|];
    DropOne(reply, start, |reply|);
    NextCutIs(body, start - 1, '/', |body|);
    CuttingAdvances(body, '/', start - 1, done);
    CuttingEnds(body, '/', |body| + 1, done + [rest]);
    assert DropLast(done + [rest]) == done;
  }

  lemma DropOne(s: string, start: nat, end: nat)
    requires 1 <= start <= end <= |s|
    ensures s[1..][start - 1..end - 1] == s[start..end]
  {
  }

  /** The preview client keeps every piece that is not empty; no answer for a foreign reply. */
  function PreviewCandidates(reply: string): Option<seq<string>> {
    if !("PREVIEW " <= reply) then None
    else if reply == "PREVIEW -" then Some([])
    else Some(NonEmpty(Split(reply[8..], '/')))
  }

  method ParsePreviewReply(reply: string) returns (candidates: Option<seq<string>>)
    ensures candidates == PreviewCandidates(reply)
  {
    hide Split, Cutting, NextCut;
    if !("PREVIEW " <= reply) { return None; }
    if reply == "PREVIEW -" { return Some([]); }
    var raw, start, list := reply[8..], 0, [];
    ghost var done: seq<string> := [];
    CuttingStarts(raw, '/');
    while start <= |raw|
      invariant Cutting(raw, '/', start, done) && list == NonEmpty(done)
      decreases |raw| + 1 - start
    {
      CuttingAdvances(raw, '/', start, done);
      var end := NextCut(raw, start, '/');
      var candidate := raw[start..end];
      assert DropLast(done + [candidate]) == done;
      if end > start { list := list + [candidate]; }
      done := done + [candidate];
      start := end + 1;
    }
    CuttingEnds(raw, '/', start, done);
    candidates := Some(list);
  }

  lemma {:induction false} NonEmptyPieces(candidates: seq<string>)
    requires AllCandidates(candidates)
    ensures NonEmpty([""] + candidates) == candidates
  {
    if candidates == [] {
      assert DropLast([""]) == [];
    } else {
      assert IsCandidate(Last(candidates));
      NonEmptyPieces(DropLast(candidates));
      assert DropLast([""] + candidates) == [""] + DropLast(candidates);
    }
  }

  /** Both parsers recover exactly the merged candidates from the host's replies. */
  lemma RepliesRoundTrip(jisyos: seq<Jisyo>, midasi: string)
    ensures EngineCandidates(ServerReply(jisyos, midasi)) == Merge(jisyos, midasi)
    ensures PreviewCandidates(PreviewReply(jisyos, midasi)) == Some(Merge(jisyos, midasi))
  {
    hide Split, Merge, Value, IsCandidate, NonEmpty;
    var merged := Merge(jisyos, midasi);
    if merged != [] {
      MergedAreCandidates(jisyos, midasi);
      SlashedPieces(merged);
      var value := Value(merged);
      var pieces := [""] + merged + [""];
      assert ("1" + value)[1..] == value && ("PREVIEW " + value)[8..] == value;
      assert DropLast(pieces) == [""] + merged;
      NonEmptyPieces(merged);
      LastIsEmpty([""] + merged);
      ValueStartsWithSlash(merged);
    }
  }

  lemma LastIsEmpty(pieces: seq<string>)
    ensures NonEmpty(pieces + [""]) == NonEmpty(pieces)
  {
    assert DropLast(pieces + [""]) == pieces;
  }

  lemma {:induction false} ValueStartsWithSlash(candidates: seq<string>)
    requires candidates != []
    ensures Value(candidates) != "" && Value(candidates)[0] == '/' && Value(candidates) != "-"
    ensures "PREVIEW " + Value(candidates) != "PREVIEW -"
  {
    SlashedStartsWithSlash(candidates);
    var value := Value(candidates);
    assert ("PREVIEW " + value)[8] == '/';
    assert "PREVIEW -"[8] == '-';
  }

  lemma {:induction false} SlashedStartsWithSlash(candidates: seq<string>)
    requires candidates != []
    ensures Slashed(candidates) != "" && Slashed(candidates)[0] == '/'
  {
    if |candidates| > 1 { SlashedStartsWithSlash(DropLast(candidates)); }
  }
}
