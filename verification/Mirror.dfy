/**
  The state mirror: a sequence-numbered shared buffer, written by the relay under its mutex and read
  by another process, byte by byte, in any interleaving and any order of bytes.
 */
module Mirror {
  import opened Common

  const SIZE := 8192
  const CAPACITY := 8191
  const NUL := 0 as char

  /** The part of a response that fits the buffer. */
  function Fitting(response: string): string {
    if |response| < CAPACITY then response else response[..CAPACITY]
  }

  /** A NUL-terminated buffer read as a string. */
  function CString(bytes: string): string {
    IndexOfFinds(bytes, NUL);
    bytes[..IndexOf(bytes, NUL)]
  }

  datatype Writer = Resting | Filling(response: string, done: set<nat>) | Terminated(response: string)

  datatype Reader = Waiting | Copying(before: nat, copy: seq<char>, done: set<nat>)

  // A snapshot the reader accepted: the publication it belongs to, and its text.
  datatype Snapshot = Snapshot(version: nat, text: string)

  datatype State = State(
    sequence: nat, line: seq<char>, writer: Writer, reader: Reader, seen: nat,
    published: seq<string>, accepted: seq<Snapshot>)

  datatype Event =
    | Publish(response: string)
    | WriteByte(k: nat)
    | WriteNul
    | Finish
    | Look
    | CopyByte(k: nat)
    | Decide

  function WriterStep(s: State, e: Event): State
    requires |s.line| == SIZE
  {
    match (s.writer, e)
    case (Resting, Publish(response)) =>
      if "STATE " <= response then s.(sequence := s.sequence + 1, writer := Filling(response, {})) else s
    case (Filling(response, done), WriteByte(k)) =>
      if k < |Fitting(response)| then
        s.(line := s.line[k := response[k]], writer := Filling(response, done + {k}))
      else s
    case (Filling(response, done), WriteNul) =>
      if forall k :: 0 <= k < |Fitting(response)| ==> k in done then
        s.(line := s.line[|Fitting(response)| := NUL], writer := Terminated(response))
      else s
    case (Terminated(response), Finish) =>
      s.(sequence := s.sequence + 1, writer := Resting, published := s.published + [response])
    case _ => s
  }

  function ReaderStep(s: State, e: Event): State
    requires |s.line| == SIZE && (s.reader.Copying? ==> |s.reader.copy| == CAPACITY)
  {
    match (s.reader, e)
    case (Waiting, Look) =>
      if s.sequence == 0 || s.sequence % 2 == 1 || s.sequence == s.seen then s
      else s.(reader := Copying(s.sequence, seq(CAPACITY, _ => NUL), {}))
    case (Copying(before, copy, done), CopyByte(k)) =>
      if k < CAPACITY then s.(reader := Copying(before, copy[k := s.line[k]], done + {k})) else s
    case (Copying(before, copy, done), Decide) =>
      if exists k :: 0 <= k < CAPACITY && k !in done then s
      else if before != s.sequence || s.sequence % 2 == 1 then s.(reader := Waiting)
      else
        s.(reader := Waiting, seen := s.sequence,
           accepted := s.accepted + [Snapshot(s.sequence / 2, CString(copy))])
    case _ => s
  }

  predicate Shaped(s: State) {
    |s.line| == SIZE && (s.reader.Copying? ==> |s.reader.copy| == CAPACITY)
  }

  function Step(s: State, e: Event): State
    requires Shaped(s)
  {
    match e
    case Look => ReaderStep(s, e)
    case CopyByte(_) => ReaderStep(s, e)
    case Decide => ReaderStep(s, e)
    case _ => WriterStep(s, e)
  }

  function Run(s: State, events: seq<Event>): (t: State)
    requires Shaped(s)
    ensures Shaped(t)
  {
    if events == [] then s else Step(Run(s, DropLast(events)), Last(events))
  }

  const START := State(0, seq(SIZE, _ => NUL), Resting, Waiting, 0, [], [])

  // ---------------------------------------------------------------------------
  // The invariant.

  /** The buffer holds a response, up to its terminator. */
  predicate Shows(line: seq<char>, response: string) {
    var n := |Fitting(response)|;
    n < |line| && line[..n] == Fitting(response) && line[n] == NUL
  }

  predicate WriterFits(s: State)
    requires Shaped(s)
  {
    match s.writer
    case Resting => s.sequence == 2 * |s.published| && (s.published != [] ==> Shows(s.line, Last(s.published)))
    case Filling(response, done) =>
      && s.sequence == 2 * |s.published| + 1
      && (forall k :: k in done && k < |Fitting(response)| ==> s.line[k] == response[k])
    case Terminated(response) => s.sequence == 2 * |s.published| + 1 && Shows(s.line, response)
  }

  /** While the sequence is the one the reader saw, its copy agrees with the buffer. */
  predicate ReaderFits(s: State)
    requires Shaped(s)
  {
    s.reader.Copying? ==>
      && s.seen < s.reader.before <= s.sequence && s.reader.before % 2 == 0
      && (s.reader.before == s.sequence ==>
            forall k :: k in s.reader.done && k < CAPACITY ==> s.reader.copy[k] == s.line[k])
  }

  predicate SnapshotsFit(s: State) {
    && s.seen <= s.sequence
    && (s.accepted != [] ==> s.seen == 2 * Last(s.accepted).version)
    && (forall i :: 0 <= i < |s.accepted| ==>
          && 0 < s.accepted[i].version <= |s.published|
          && s.accepted[i].text == CString(Fitting(s.published[s.accepted[i].version - 1])))
    && (forall i, j :: 0 <= i < j < |s.accepted| ==> s.accepted[i].version < s.accepted[j].version)
  }

  predicate Sound(s: State) {
    Shaped(s) && WriterFits(s) && ReaderFits(s) && SnapshotsFit(s)
  }

  lemma CopiedString(copy: seq<char>, line: seq<char>, response: string)
    requires |copy| == CAPACITY && |line| == SIZE && copy == line[..CAPACITY] && Shows(line, response)
    ensures CString(copy) == CString(Fitting(response))
  {
    var text := Fitting(response);
    var n := |text|;
    IndexOfFinds(text, NUL);
    var m := IndexOf(text, NUL);
    assert copy[..n] == text;
    assert copy[..m] == text[..m];
    IndexOfIs(copy, NUL, m);
  }

  lemma WriterKeeps(s: State, e: Event)
    requires Sound(s)
    ensures Sound(WriterStep(s, e))
  {
    hide CString;
    match (s.writer, e)
    case (Resting, Publish(response)) =>
    case (Filling(response, done), WriteByte(k)) =>
    case (Filling(response, done), WriteNul) =>
      if forall k :: 0 <= k < |Fitting(response)| ==> k in done {
        var n := |Fitting(response)|;
        assert s.line[n := NUL][..n] == Fitting(response);
      }
    case (Terminated(response), Finish) => PublishingKeepsSnapshots(s, response);
    case _ =>
  }

  lemma PublishingKeepsSnapshots(s: State, response: string)
    requires Sound(s) && s.writer == Terminated(response)
    ensures Sound(WriterStep(s, Finish))
  {
    hide CString, Fitting;
    assert Last(s.published + [response]) == response;
  }

  lemma ReaderKeeps(s: State, e: Event)
    requires Sound(s)
    ensures Sound(ReaderStep(s, e))
  {
    hide CString, Fitting, Shows;
    match (s.reader, e)
    case (Waiting, Look) =>
    case (Copying(before, copy, done), CopyByte(k)) =>
    case (Copying(before, copy, done), Decide) =>
      if !(exists k :: 0 <= k < CAPACITY && k !in done) && before == s.sequence {
        AcceptingKeeps(s);
      }
    case _ =>
  }

  lemma AcceptingKeeps(s: State)
    requires Sound(s) && s.reader.Copying? && s.reader.before == s.sequence
    requires forall k :: 0 <= k < CAPACITY ==> k in s.reader.done
    ensures Sound(ReaderStep(s, Decide))
  {
    hide CString, Fitting, Shows;
    assert s.writer.Resting? && s.published != [];
    assert s.reader.copy == s.line[..CAPACITY];
    CopiedString(s.reader.copy, s.line, Last(s.published));
    var t := ReaderStep(s, Decide);
    assert t.accepted == s.accepted + [Snapshot(|s.published|, CString(s.reader.copy))];
    forall i | 0 <= i < |s.accepted| ensures s.accepted[i].version < |s.published| {
      assert s.accepted[i].version <= Last(s.accepted).version;
    }
  }

  lemma {:induction false} RunIsSound(events: seq<Event>)
    ensures Sound(Run(START, events))
  {
    hide WriterStep, ReaderStep;
    if events == [] {
      assert WriterFits(START);
    } else {
      RunIsSound(DropLast(events));
      var s := Run(START, DropLast(events));
      match Last(events)
      case Look => ReaderKeeps(s, Last(events));
      case CopyByte(_) => ReaderKeeps(s, Last(events));
      case Decide => ReaderKeeps(s, Last(events));
      case _ => WriterKeeps(s, Last(events));
    }
  }

  /**
    On every interleaving: each accepted snapshot is one published STATE line, whole up to the size of
    the buffer, and later snapshots belong to later publications. Lines hold no NUL.
   */
  lemma SnapshotsAreWhole(events: seq<Event>, i: nat)
    requires i < |Run(START, events).accepted|
    requires forall r :: r in Run(START, events).published ==> NUL !in r
    ensures var s := Run(START, events);
      && 0 < s.accepted[i].version <= |s.published|
      && (forall j :: i < j < |s.accepted| ==> s.accepted[i].version < s.accepted[j].version)
    ensures var s := Run(START, events); var response := s.published[s.accepted[i].version - 1];
      s.accepted[i].text == if |response| <= 8191 then response else response[..8191]
  {
    hide Step, Fitting;
    RunIsSound(events);
    var s := Run(START, events);
    var response := s.published[s.accepted[i].version - 1];
    assert NUL !in response;
    WithoutNul(response);
    WhatFits(response);
  }

  lemma WhatFits(response: string)
    ensures Fitting(response) == if |response| <= 8191 then response else response[..8191]
  {
  }

  lemma WithoutNul(response: string)
    requires NUL !in response
    ensures CString(Fitting(response)) == Fitting(response)
  {
    var text := Fitting(response);
    assert text[..|text|] == text;
    IndexOfIs(text, NUL, |text|);
  }

  // ---------------------------------------------------------------------------
  // Publications arrive: what the two ends do when left alone.

  lemma {:induction false} RunAppend(s: State, a: seq<Event>, b: seq<Event>)
    requires Shaped(s)
    ensures Run(s, a + b) == Run(Run(s, a), b)
    decreases |b|
  {
    hide Step;
    if b == [] {
      assert a + b == a;
    } else {
      RunAppend(s, a, DropLast(b));
      assert DropLast(a + b) == a + DropLast(b);
    }
  }

  function Writes(n: nat): seq<Event> {
    seq(n, k requires 0 <= k < n => WriteByte(k))
  }

  function Copies(n: nat): seq<Event> {
    seq(n, k requires 0 <= k < n => CopyByte(k))
  }

  function Below(n: nat): (numbers: set<nat>)
    ensures forall k: nat :: k in numbers <==> k < n
  {
    if n == 0 then {} else Below(n - 1) + {n - 1}
  }

  /** One publication, byte by byte. */
  function Publication(response: string): seq<Event> {
    [Publish(response)] + Writes(|Fitting(response)|) + [WriteNul, Finish]
  }

  /** One reading, byte by byte. */
  function Reading(): seq<Event> {
    [Look] + Copies(CAPACITY) + [Decide]
  }

  lemma OneEvent(s: State, e: Event)
    requires Shaped(s)
    ensures Run(s, [e]) == Step(s, e)
  {
    hide Step;
    assert DropLast([e]) == [];
  }

  lemma {:induction false} WritingGoesOn(s: State, response: string, n: nat)
    requires Shaped(s) && s.writer == Filling(response, {}) && n <= |Fitting(response)|
    ensures var t := Run(s, Writes(n));
      && t == s.(line := t.line, writer := Filling(response, Below(n)))
  {
    hide Fitting;
    if n > 0 {
      WritingGoesOn(s, response, n - 1);
      assert DropLast(Writes(n)) == Writes(n - 1) && Last(Writes(n)) == WriteByte(n - 1);
    } else {
      assert Writes(n) == [];
    }
  }

  /** A publication left to finish is published, and leaves the reader's side alone. */
  lemma PublishingFinishes(s: State, response: string)
    requires Shaped(s) && s.writer.Resting? && "STATE " <= response
    ensures var t := Run(s, Publication(response));
      && t.published == s.published + [response] && t.sequence == s.sequence + 2 && t.writer.Resting?
      && t.reader == s.reader && t.accepted == s.accepted && t.seen == s.seen
  {
    hide Fitting;
    var n := |Fitting(response)|;
    var s1 := Step(s, Publish(response));
    OneEvent(s, Publish(response));
    WritingGoesOn(s1, response, n);
    var s2 := Run(s1, Writes(n));
    RunAppend(s, [Publish(response)], Writes(n));
    OneEvent(s2, WriteNul);
    var s3 := Step(s2, WriteNul);
    assert s3 == s2.(line := s3.line, writer := Terminated(response));
    OneEvent(s3, Finish);
    RunAppend(s2, [WriteNul], [Finish]);
    assert [WriteNul] + [Finish] == [WriteNul, Finish];
    RunAppend(s, [Publish(response)] + Writes(n), [WriteNul, Finish]);
  }

  lemma {:induction false} CopyingGoesOn(s: State, before: nat, n: nat)
    requires Shaped(s) && s.reader.Copying? && s.reader.before == before && s.reader.done == {} && n <= CAPACITY
    ensures var t := Run(s, Copies(n));
      && t == s.(reader := t.reader) && t.reader.Copying? && t.reader.before == before
      && t.reader.done == Below(n)
  {
    if n > 0 {
      CopyingGoesOn(s, before, n - 1);
      assert DropLast(Copies(n)) == Copies(n - 1) && Last(Copies(n)) == CopyByte(n - 1);
    } else {
      assert Copies(n) == [];
    }
  }

  lemma {:induction false} CopyingKeeps(s: State, n: nat)
    requires Sound(s)
    ensures Sound(Run(s, Copies(n)))
  {
    hide ReaderStep, WriterFits, ReaderFits, SnapshotsFit;
    if n == 0 {
      assert Copies(n) == [];
    } else {
      CopyingKeeps(s, n - 1);
      assert DropLast(Copies(n)) == Copies(n - 1) && Last(Copies(n)) == CopyByte(n - 1);
      ReaderKeeps(Run(s, Copies(n - 1)), CopyByte(n - 1));
    }
  }

  lemma DecidingAccepts(s: State)
    requires Sound(s) && s.writer.Resting? && s.published != []
    requires s.reader.Copying? && s.reader.before == s.sequence && s.reader.done == Below(CAPACITY)
    ensures var t := ReaderStep(s, Decide);
      && t.accepted == s.accepted + [Snapshot(|s.published|, CString(Fitting(Last(s.published))))]
      && t.seen == s.sequence && t.reader.Waiting? && t.published == s.published
  {
    hide Fitting, CString, Shows, SnapshotsFit;
    assert s.reader.copy == s.line[..CAPACITY];
    CopiedString(s.reader.copy, s.line, Last(s.published));
  }

  /** A reading left alone while something new is shown accepts the last publication. */
  lemma ReadingFinishes(s: State)
    requires Sound(s) && s.writer.Resting? && s.reader.Waiting? && s.published != [] && s.seen != s.sequence
    ensures var t := Run(s, Reading());
      && t.accepted == s.accepted + [Snapshot(|s.published|, CString(Fitting(Last(s.published))))]
      && t.seen == s.sequence && t.reader.Waiting? && t.published == s.published
  {
    hide Fitting, CString, Shows, SnapshotsFit, Copies, Run;
    var s1 := ReaderStep(s, Look);
    OneEvent(s, Look);
    ReaderKeeps(s, Look);
    CopyingGoesOn(s1, s.sequence, CAPACITY);
    CopyingKeeps(s1, CAPACITY);
    var s2 := Run(s1, Copies(CAPACITY));
    RunAppend(s, [Look], Copies(CAPACITY));
    DecidingAccepts(s2);
    OneEvent(s2, Decide);
    RunAppend(s, [Look] + Copies(CAPACITY), [Decide]);
  }

  // ---------------------------------------------------------------------------
  // The two ends, undisturbed.

  class StateMirror {
    var sequence: nat
    const line: array<char>

    predicate Valid()
      reads this
    {
      line.Length == SIZE
    }

    constructor ()
      ensures Valid() && sequence == 0 && fresh(line)
    {
      sequence := 0;
      line := new char[SIZE](_ => NUL);
    }

    /** Publishes a STATE line; any other response leaves the mirror alone. */
    method PublishStateMirror(response: string)
      requires Valid()
      modifies this`sequence, line
      ensures "STATE " <= response ==> sequence == old(sequence) + 2 && Shows(line[..], response)
      ensures "STATE " <= response ==>
                var n := if |response| <= 8191 then |response| else 8191; line[..n] == response[..n] && line[n] == NUL
      ensures !("STATE " <= response) ==> sequence == old(sequence) && line[..] == old(line[..])
    {
      if !("STATE " <= response) { return; }
      sequence := sequence + 1;
      var count := if |response| < CAPACITY then |response| else CAPACITY;
      for k := 0 to count
        modifies line
        invariant forall i :: 0 <= i < k ==> line[i] == response[i]
      {
        line[k] := response[k];
      }
      line[count] := NUL;
      assert line[..][..count] == Fitting(response);
      sequence := sequence + 1;
    }

    /** A read nothing interferes with: new and stable means accepted. */
    method ReadStateMirror(seen: nat) returns (accepted: bool, nowSeen: nat, reply: string)
      requires Valid()
      ensures accepted <==> sequence != 0 && sequence % 2 == 0 && sequence != seen
      ensures nowSeen == if accepted then sequence else seen
      ensures accepted ==> reply == CString(line[..CAPACITY])
    {
      var before := sequence;
      if before == 0 || before % 2 == 1 || before == seen { return false, seen, ""; }
      var copy := new char[CAPACITY](_ => NUL);
      for k := 0 to CAPACITY
        invariant forall i :: 0 <= i < k ==> copy[i] == line[i]
      {
        copy[k] := line[k];
      }
      assert copy[..] == line[..CAPACITY];
      var after := sequence;
      if before != after || after % 2 == 1 { return false, seen, ""; }
      return true, after, CString(copy[..]);
    }
  }
}
