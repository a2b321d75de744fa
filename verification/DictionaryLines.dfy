/** Which dictionary lines count, which candidates are the same, and what a merge skips. */
module DictionaryLines {
  import opened Common
  import opened Text
  import opened Dictionary

  // ---------------------------------------------------------------------------
  // Candidates are the same when they differ in the annotation only.

  lemma KeyIsTheWord(word: string, note: string)
    requires ';' !in word
    ensures Key(word) == word && Key(word + ";" + note) == word
  {
    IndexOfIs(word, ';', |word|);
    assert word[..|word|] == word;
    var annotated := word + ";" + note;
    assert annotated[..|word|] == word && annotated[|word|] == ';';
    IndexOfIs(annotated, ';', |word|);
  }

  /** The annotation, if there is one, and the semicolon before it are all that a key leaves out. */
  lemma KeyLeavesTheAnnotation(candidate: string)
    ensures var key := Key(candidate);
      ';' !in key && (candidate == key || exists note :: candidate == key + ";" + note)
  {
    IndexOfFinds(candidate, ';');
    var n := IndexOf(candidate, ';');
    if n < |candidate| { assert candidate == candidate[..n] + ";" + candidate[n + 1..]; }
  }

  /** A word given twice is offered once, with its first annotation, whether or not one has none. */
  lemma SameWordIsOfferedOnce(word: string, first: string, second: string)
    requires ';' !in word
    requires first == word || exists note :: first == word + ";" + note
    requires second == word || exists note :: second == word + ";" + note
    ensures AddAll([], [first, second]) == [first]
  {
    KeyOf(word, first);
    KeyOf(word, second);
    hide Key;
    assert DropLast([first, second]) == [first] && DropLast([first]) == [];
    assert AddAll([], [first]) == Add([], first) == [] + [first] == [first];
    assert Keys([first])[0] == word;
  }

  lemma KeyOf(word: string, candidate: string)
    requires ';' !in word && (candidate == word || exists note :: candidate == word + ";" + note)
    ensures Key(candidate) == word
  {
    hide Key;
    KeyIsTheWord(word, "");
    if candidate != word {
      var note :| candidate == word + ";" + note;
      KeyIsTheWord(word, note);
    }
  }

  /** Different words are both offered, in their order. */
  lemma DifferentWordsAreBothOffered(first: string, second: string)
    requires Key(first) != Key(second)
    ensures AddAll([], [first, second]) == [first, second]
  {
    hide Key;
    assert DropLast([first, second]) == [first] && DropLast([first]) == [];
    assert AddAll([], [first]) == Add([], first) == [] + [first] == [first];
    assert Keys([first]) == [Key(first)];
  }

  // ---------------------------------------------------------------------------
  // Bracket blocks.

  /** Everything from a token that opens a bracket to the closing one is left out, and nothing else. */
  lemma {:induction false} BlocksAreSkipped(before: seq<string>, opening: string, block: seq<string>, after: seq<string>)
    requires AllCandidates(before) && opening != "" && opening[0] == '[' && "]" !in block
    ensures Outside(before + [opening] + block + ["]"] + after, false) == before + Outside(after, false)
  {
    if before == [] {
      var rest := block + ["]"] + after;
      assert before + [opening] + block + ["]"] + after == [opening] + rest;
      assert ([opening] + rest)[1..] == rest;
      BlockIsSkipped(block, after);
    } else {
      var first, more := before[0], before[1..];
      assert IsCandidate(first);
      BlocksAreSkipped(more, opening, block, after);
      var tokens := before + [opening] + block + ["]"] + after;
      assert tokens[1..] == more + [opening] + block + ["]"] + after;
      assert [first] + (more + Outside(after, false)) == before + Outside(after, false);
    }
  }

  lemma {:induction false} BlockIsSkipped(block: seq<string>, after: seq<string>)
    requires "]" !in block
    ensures Outside(block + ["]"] + after, true) == Outside(after, false)
  {
    var tokens := block + ["]"] + after;
    if block == [] {
      assert tokens[1..] == after;
    } else {
      assert block[0] != "]";
      BlockIsSkipped(block[1..], after);
      assert tokens[1..] == block[1..] + ["]"] + after;
    }
  }

  // ---------------------------------------------------------------------------
  // Lines.

  /** A line with an entry: no comment, a reading, a space, and candidates from the first slash on. */
  ghost predicate HasEntry(line: string, midasi: string, candidates: string) {
    && !(";;" <= line) && ' ' !in midasi
    && candidates != "" && candidates[0] == '/'
    && exists between :: '/' !in between && line == midasi + " " + between + candidates
  }

  /** A line yields an entry exactly when it has one, a carriage return at its end left aside. */
  lemma EntriesAreRead(line: string, midasi: string, candidates: string)
    requires line == "" || Last(line) != '\r'
    ensures Entry(line) == Some((midasi, candidates)) <==> HasEntry(line, midasi, candidates)
    ensures Entry(line + "\r") == Entry(line)
  {
    ReturnIsStripped(line);
    hide StripReturn;
    if HasEntry(line, midasi, candidates) { WellFormedLineIsRead(line, midasi, candidates); }
    if Entry(line) == Some((midasi, candidates)) { ReadLineIsWellFormed(line, midasi, candidates); }
  }

  lemma ReturnIsStripped(line: string)
    requires line == "" || Last(line) != '\r'
    ensures StripReturn(line) == line && StripReturn(line + "\r") == line
  {
    assert DropLast(line + "\r") == line;
  }

  lemma WellFormedLineIsRead(line: string, midasi: string, candidates: string)
    requires StripReturn(line) == line && HasEntry(line, midasi, candidates)
    ensures Entry(line) == Some((midasi, candidates))
  {
    hide StripReturn;
    var between :| '/' !in between && line == midasi + " " + between + candidates;
    var space := |midasi|;
    assert line[..space] == midasi && line[space] == ' ';
    IndexOfIs(line, ' ', space);
    var rest := line[space..];
    assert rest == " " + between + candidates;
    var slash := 1 + |between|;
    forall i | 0 <= i < slash ensures rest[i] != '/' {
      if i > 0 { assert rest[i] == between[i - 1]; }
    }
    assert '/' !in rest[..slash] && rest[slash] == candidates[0];
    IndexOfIs(rest, '/', slash);
    assert line[space + slash..] == candidates;
  }

  lemma ReadLineIsWellFormed(line: string, midasi: string, candidates: string)
    requires StripReturn(line) == line && Entry(line) == Some((midasi, candidates))
    ensures HasEntry(line, midasi, candidates)
  {
    hide StripReturn;
    IndexOfFinds(line, ' ');
    var space := IndexOf(line, ' ');
    var rest := line[space..];
    IndexOfFinds(rest, '/');
    var slash := IndexOf(rest, '/');
    assert midasi == line[..space] && candidates == line[space + slash..];
    assert rest[0] == ' ' && slash > 0;
    var between := rest[1..slash];
    forall i | 0 <= i < |between| ensures between[i] != '/' {
      assert between[i] == rest[..slash][i + 1];
    }
    assert line == midasi + " " + between + candidates;
  }

  /** The same lines with a carriage return at the end of each. */
  function WithReturns(lines: seq<string>): seq<string> {
    seq(|lines|, i requires 0 <= i < |lines| => lines[i] + "\r")
  }

  predicate NoReturns(lines: seq<string>) {
    forall i :: 0 <= i < |lines| ==> '\r' !in lines[i]
  }

  lemma {:induction false} ReturnsAddNothing(jisyo: Jisyo, lines: seq<string>)
    requires NoReturns(lines)
    ensures AddLines(jisyo, WithReturns(lines)) == AddLines(jisyo, lines)
  {
    hide Entry;
    if lines != [] {
      ReturnsAddNothing(jisyo, DropLast(lines));
      assert DropLast(WithReturns(lines)) == WithReturns(DropLast(lines));
      var line := Last(lines);
      assert line == "" || Last(line) in line;
      EntriesAreRead(line, "", "");
    }
  }

  /** Text with lines that end in a carriage return and a newline is parsed like text with newlines. */
  lemma CrlfTextIsParsedAlike(jisyo: Jisyo, lines: seq<string>)
    requires lines != [] && NoReturns(lines) && Without(lines, '\n')
    ensures AddLines(jisyo, Split(Join(WithReturns(lines), '\n'), '\n')) == AddLines(jisyo, Split(Join(lines, '\n'), '\n'))
  {
    hide Entry, Split, Join;
    SplitJoin(lines, '\n');
    assert Without(WithReturns(lines), '\n') by {
      forall i | 0 <= i < |lines| ensures '\n' !in WithReturns(lines)[i] {
        assert WithReturns(lines)[i] == lines[i] + "\r";
        assert forall k :: 0 <= k < |lines[i]| ==> (lines[i] + "\r")[k] == lines[i][k];
      }
    }
    SplitJoin(WithReturns(lines), '\n');
    ReturnsAddNothing(jisyo, lines);
  }
}
