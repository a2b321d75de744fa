/** Line framing on the engine's stdin: reads give whatever has arrived, requests are lines. */
module Framing {
  import opened Common
  import opened Text

  function StripReturns(line: string): string {
    if line != "" && Last(line) == '\r' then StripReturns(DropLast(line)) else line
  }

  function Concat(chunks: seq<string>): string {
    if chunks == [] then "" else chunks[0] + Concat(chunks[1..])
  }

  predicate NonEmptyChunks(chunks: seq<string>) {
    forall i :: 0 <= i < |chunks| ==> chunks[i] != ""
  }

  /** A complete line at the front of the buffer, and what is left behind it. */
  function Take(pending: string): Option<(string, string)> {
    IndexOfFinds(pending, '\n');
    var n := IndexOf(pending, '\n');
    if n == |pending| then None else Some((StripReturns(pending[..n]), pending[n + 1..]))
  }

  /** The next line; reads more input while the buffer holds none. An empty read is the end of input. */
  function ReadLine(pending: string, chunks: seq<string>): (Option<string>, string, seq<string>)
    decreases |chunks|
  {
    match Take(pending)
    case Some((line, rest)) => (Some(line), rest, chunks)
    case None =>
      if chunks == [] || chunks[0] == "" then
        (if pending == "" then None else Some(pending), "", if chunks == [] then [] else chunks[1..])
      else ReadLine(pending + chunks[0], chunks[1..])
  }

  /** The lines of a whole input: carriage returns go with their newline; a rest without one is a line as it is. */
  function Framed(input: string): seq<string>
    decreases |input|
  {
    if input == "" then []
    else
      match Take(input)
      case None => [input]
      case Some((line, rest)) =>
        TakeShortens(input);
        [line] + Framed(rest)
  }

  lemma TakeShortens(pending: string)
    ensures Take(pending).Some? ==> |Take(pending).value.1| < |pending|
  {
    IndexOfFinds(pending, '\n');
  }

  lemma TakeIsStable(pending: string, more: string)
    requires Take(pending).Some?
    ensures Take(pending + more) == Some((Take(pending).value.0, Take(pending).value.1 + more))
  {
    IndexOfFinds(pending, '\n');
    var n := IndexOf(pending, '\n');
    assert (pending + more)[..n] == pending[..n];
    assert (pending + more)[n + 1..] == pending[n + 1..] + more;
    IndexOfIs(pending + more, '\n', n);
  }

  /** One call yields the first line of all that is still to come, whatever the chunks are. */
  lemma {:induction false} ReadLineTakesTheFirst(pending: string, chunks: seq<string>)
    requires NonEmptyChunks(chunks)
    ensures var (line, rest, left) := ReadLine(pending, chunks);
      && NonEmptyChunks(left)
      && (line.None? ==> pending + Concat(chunks) == "" && left == [] && rest == "")
      && (line.Some? ==> Framed(pending + Concat(chunks)) == [line.value] + Framed(rest + Concat(left)))
      && (line.Some? ==> |rest + Concat(left)| < |pending + Concat(chunks)|)
    decreases |chunks|
  {
    hide StripReturns;
    match Take(pending)
    case Some((line, rest)) =>
      TakeIsStable(pending, Concat(chunks));
      TakeShortens(pending);
    case None =>
      if chunks == [] {
        assert pending + Concat(chunks) == pending;
        assert "" + Concat([]) == "";
      } else {
        ReadLineTakesTheFirst(pending + chunks[0], chunks[1..]);
        assert pending + chunks[0] + Concat(chunks[1..]) == pending + Concat(chunks);
      }
  }

  /** Reading until there is no line any more. */
  function ReadAll(pending: string, chunks: seq<string>): seq<string>
    requires NonEmptyChunks(chunks)
    decreases |pending + Concat(chunks)|
  {
    ReadLineTakesTheFirst(pending, chunks);
    var (line, rest, left) := ReadLine(pending, chunks);
    if line.None? then [] else [line.value] + ReadAll(rest, left)
  }

  /** However the input is divided into reads, the lines are those of the whole input. */
  lemma {:induction false} FramingIsChunkIndependent(pending: string, chunks: seq<string>)
    requires NonEmptyChunks(chunks)
    ensures ReadAll(pending, chunks) == Framed(pending + Concat(chunks))
    decreases |pending + Concat(chunks)|
  {
    hide Framed, ReadLine;
    ReadLineTakesTheFirst(pending, chunks);
    var (line, rest, left) := ReadLine(pending, chunks);
    if line.Some? {
      FramingIsChunkIndependent(rest, left);
    } else {
      NothingFramed();
    }
  }

  lemma NothingFramed()
    ensures Framed("") == []
  {
  }

  function StrippedAll(lines: seq<string>): seq<string> {
    seq(|lines|, i requires 0 <= i < |lines| => StripReturns(lines[i]))
  }

  /** The lines are the newline split: all but the last piece stripped, the last kept if not empty. */
  lemma {:induction false} FramedIsSplit(input: string)
    ensures var pieces := Split(input, '\n');
      Framed(input) == StrippedAll(DropLast(pieces)) + (if Last(pieces) == "" then [] else [Last(pieces)])
    decreases |input|
  {
    hide StripReturns;
    IndexOfFinds(input, '\n');
    var n := IndexOf(input, '\n');
    var pieces := Split(input, '\n');
    if n == |input| {
      assert DropLast(pieces) == [];
    } else {
      var rest := input[n + 1..];
      FramedIsSplit(rest);
      var more := Split(rest, '\n');
      assert pieces == [input[..n]] + more;
      assert DropLast(pieces) == [input[..n]] + DropLast(more) && Last(pieces) == Last(more);
      assert StrippedAll(DropLast(pieces)) == [StripReturns(input[..n])] + StrippedAll(DropLast(more));
    }
  }

  /** An empty read in mid-input cuts a line in two: the bound to non-empty chunks is needed. */
  lemma EmptyReadCutsALine(a: string, b: string)
    requires a != "" && b != "" && '\n' !in a && '\n' !in b
    ensures ReadLine("", [a, b]).0 == Some(a + b)
    ensures ReadLine("", [a, "", b]).0 == Some(a)
  {
    assert a[..|a|] == a && (a + b)[..|a + b|] == a + b;
    IndexOfIs(a, '\n', |a|);
    IndexOfIs(a + b, '\n', |a + b|);
    assert "" + a == a && [a, "", b][1..] == ["", b] && ["", b][1..] == [b];
    assert [a, b][1..] == [b] && [b][1..] == [];
    assert ReadLine("", [a, b]) == ReadLine(a, [b]) == ReadLine(a + b, []);
  }

  // ---------------------------------------------------------------------------
  // The reader.

  class LineReader {
    var pending: string
    var chunks: seq<string>   // what the reads still to come return

    constructor (chunks: seq<string>)
      ensures pending == "" && this.chunks == chunks
    {
      pending, this.chunks := "", chunks;
    }

    method TakeLine() returns (line: Option<string>)
      modifies this`pending
      ensures match Take(old(pending))
        case Some((taken, rest)) => line == Some(taken) && pending == rest
        case None => line == None && pending == old(pending)
    {
      var newline := 0;
      while newline < |pending| && pending[newline] != '\n'
        invariant newline <= |pending| && '\n' !in pending[..newline]
      {
        assert pending[..newline + 1] == pending[..newline] + [pending[newline]];
        newline := newline + 1;
      }
      IndexOfIs(pending, '\n', newline);
      if newline == |pending| { return None; }
      var text := pending[..newline];
      pending := pending[newline + 1..];
      var length := |text|;
      assert text[..length] == text;
      while length > 0 && text[length - 1] == '\r'
        invariant 0 <= length <= |text| && StripReturns(text[..length]) == StripReturns(text)
      {
        assert DropLast(text[..length]) == text[..length - 1];
        length := length - 1;
      }
      line := Some(text[..length]);
    }

    method ReadNextLine() returns (line: Option<string>)
      modifies this
      ensures (line, pending, chunks) == ReadLine(old(pending), old(chunks))
    {
      hide Take, StripReturns;
      line := TakeLine();
      var eof := false;
      while line.None? && !eof
        invariant eof ==> line.None?
        invariant eof ==>
          ReadLine(old(pending), old(chunks)) == (if pending == "" then None else Some(pending), "", chunks)
        invariant !eof && line.None? ==> Take(pending).None? && ReadLine(old(pending), old(chunks)) == ReadLine(pending, chunks)
        invariant line.Some? ==> ReadLine(old(pending), old(chunks)) == (line, pending, chunks)
        decreases |chunks|, !eof
      {
        if chunks == [] {
          eof := true;
        } else {
          var chunk := chunks[0];
          chunks := chunks[1..];
          if chunk == "" {
            eof := true;
          } else {
            pending := pending + chunk;
            line := TakeLine();
          }
        }
      }
      if line.None? && pending != "" {
        line := Some(pending);
        pending := "";
      }
    }
  }
}
