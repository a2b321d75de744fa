/** How long a session lives, and what it starts from: between two CLOSEs it is an engine of its own. */
module SessionLifetime {
  import opened Common
  import opened Sessions
  import opened SessionIsolation
  import Relay

  // ---------------------------------------------------------------------------
  // Runs in two parts.

  lemma {:induction false} RunAppend(step: Interpreter, initial: Globals, m: Model, a: seq<Request>, b: seq<Request>)
    ensures var (between, first) := Run(step, initial, m, a); var (end, second) := Run(step, initial, between, b);
      Run(step, initial, m, a + b) == (end, first + second)
    decreases |b|
  {
    hide Serve;
    var (between, first) := Run(step, initial, m, a);
    if b == [] {
      assert a + b == a && first + [] == first;
    } else {
      RunAppend(step, initial, m, a, DropLast(b));
      assert DropLast(a + b) == a + DropLast(b) && Last(a + b) == Last(b);
      var (before, second) := Run(step, initial, between, DropLast(b));
      var reply := Serve(step, initial, before, Last(b).0, Last(b).1).1;
      assert (first + second) + [reply] == first + (second + [reply]);
    }
  }

  lemma {:induction false} OwnAppend(a: seq<Request>, b: seq<Request>, id: string)
    ensures Own(a + b, id) == Own(a, id) + Own(b, id)
    decreases |b|
  {
    if b == [] {
      assert a + b == a;
    } else {
      OwnAppend(a, DropLast(b), id);
      assert DropLast(a + b) == a + DropLast(b) && Last(a + b) == Last(b);
    }
  }

  lemma {:induction false} OwnRepliesAppend(
    a: seq<Request>, b: seq<Request>, first: seq<string>, second: seq<string>, id: string)
    requires |first| == |a| && |second| == |b|
    ensures OwnReplies(a + b, first + second, id) == OwnReplies(a, first, id) + OwnReplies(b, second, id)
    decreases |b|
  {
    if b == [] {
      assert a + b == a && first + second == first;
    } else {
      OwnRepliesAppend(a, DropLast(b), first, DropLast(second), id);
      assert DropLast(a + b) == a + DropLast(b) && Last(a + b) == Last(b);
      assert DropLast(first + second) == first + DropLast(second) && Last(first + second) == Last(second);
    }
  }

  // ---------------------------------------------------------------------------
  // When a session exists.

  /** Between two requests of its own nothing brings a session in or takes it out. */
  lemma ServingAnother(step: Interpreter, initial: Globals, m: Model, id: string, other: string, line: string)
    requires other != id
    ensures var t := Serve(step, initial, m, other, line).0;
      (id in t.table <==> id in m.table) && (id in m.table ==> t.table[id] == m.table[id])
  {
  }

  /** After its own request a session exists unless that request was CLOSE, which is acknowledged. */
  lemma ServingItself(step: Interpreter, initial: Globals, m: Model, id: string, line: string)
    ensures var (t, reply) := Serve(step, initial, m, id, line);
      (id in t.table <==> line != "CLOSE") && (line == "CLOSE" ==> reply == "OK CLOSED" && t.ambient == m.ambient)
  {
  }

  /** On every run a session exists exactly from its first request after a CLOSE to its next CLOSE. */
  lemma {:induction false} HeldUntilClosed(
    step: Interpreter, initial: Globals, m: Model, requests: seq<Request>, id: string)
    ensures id in Run(step, initial, m, requests).0.table <==>
            if Own(requests, id) == [] then id in m.table else Last(Own(requests, id)).1 != "CLOSE"
  {
    hide Serve;
    if requests != [] {
      HeldUntilClosed(step, initial, m, DropLast(requests), id);
      var t := Run(step, initial, m, DropLast(requests)).0;
      var (other, line) := Last(requests);
      if other == id {
        ServingItself(step, initial, t, id, line);
        assert Last(Own(requests, id)) == (id, line);
      } else {
        ServingAnother(step, initial, t, id, other, line);
      }
    }
  }

  // ---------------------------------------------------------------------------
  // What a session starts from.

  /** The session was closed last, or never opened. */
  predicate Absent(m: Model, requests: seq<Request>, id: string) {
    if Own(requests, id) == [] then id !in m.table else Last(Own(requests, id)).1 == "CLOSE"
  }

  /**
    Whatever happened before: once a session is closed, the replies to its further requests, in any
    interleaving with others, are those of the same requests alone on an engine that never held it.
   */
  lemma ReopenedSessionIsNew(
    symbols: seq<Native>, step: Interpreter, initial: Globals, m: Model, n: Model,
    before: seq<Request>, after: seq<Request>, id: string)
    requires WellBehaved(symbols, step) && Insensitive(step, Uninitialized(symbols, initial))
    requires Ready(symbols, initial, m) && Ready(symbols, initial, n)
    requires Absent(m, before, id) && id !in n.table
    ensures |Run(step, initial, m, before).1| == |before|
    ensures |Run(step, initial, m, before + after).1| == |before + after|
    ensures OwnReplies(before + after, Run(step, initial, m, before + after).1, id)
         == OwnReplies(before, Run(step, initial, m, before).1, id) + Run(step, initial, n, Own(after, id)).1
  {
    hide Run, Own, OwnReplies, WellBehaved, Insensitive, Uninitialized, Ready, Serve;
    RunAnswersAll(step, initial, m, before);
    RunAnswersAll(step, initial, m, before + after);
    RunAppend(step, initial, m, before, after);
    var (between, first) := Run(step, initial, m, before);
    HeldUntilClosed(step, initial, m, before, id);
    RunKeepsReady(symbols, step, initial, m, before);
    Isolation(symbols, step, initial, between, n, after, id);
    RunAnswersAll(step, initial, between, after);
    OwnRepliesAppend(before, after, first, Run(step, initial, between, after).1, id);
  }

  /** Initialization's values, and anything at all where it has none. */
  predicate Initialized(symbols: seq<Native>, initial: Globals, g: Globals) {
    Clean(symbols, g) && forall x :: x in initial ==> x in g && g[x] == initial[x]
  }

  /**
    The first request of a session, or the first after its CLOSE, is answered as on an empty buffer
    with the initial values of the variables, no registration under way and no command before it.
   */
  lemma FirstRequestFindsNothing(
    symbols: seq<Native>, step: Interpreter, initial: Globals, m: Model, id: string, line: string, g: Globals)
    requires Ready(symbols, initial, m) && Insensitive(step, Uninitialized(symbols, initial))
    requires id !in m.table && line != "CLOSE" && Initialized(symbols, initial, g)
    ensures Serve(step, initial, m, id, line).1 == step(Local(g, "", 1, Nil, Registration(None, "", false, "", 0)), line).1
  {
    var empty := Local(g, "", 1, Nil, Registration(None, "", false, "", 0));
    assert SameExcept(Fresh(initial, m.ambient), empty, Uninitialized(symbols, initial));
  }

  // ---------------------------------------------------------------------------
  // The sessions the relay counts on.

  /** The session a line runs in; the unscoped KEY and the session count switch to none. */
  function Routed(line: string): Option<Request> {
    if line == "DIAG SESSION-COUNT" || (|line| > 4 && "KEY " <= line) then None else Relay.Route(line)
  }

  function AllRouted(lines: seq<string>): seq<Request> {
    if lines == [] then []
    else
      AllRouted(DropLast(lines)) +
      match Routed(Last(lines))
      case Some(request) => [request]
      case None => []
  }

  function Tables(table: set<string>, lines: seq<string>): set<string> {
    if lines == [] then table else Relay.TableAfter(Tables(table, DropLast(lines)), Last(lines))
  }

  /** The sessions the engine holds are the ones the relay's account of its input says it holds. */
  lemma {:induction false} TableIsAsTheRelayCounts(step: Interpreter, initial: Globals, m: Model, lines: seq<string>)
    ensures Run(step, initial, m, AllRouted(lines)).0.table.Keys == Tables(m.table.Keys, lines)
  {
    hide Serve, Relay.Route;
    if lines != [] {
      var front, line := DropLast(lines), Last(lines);
      TableIsAsTheRelayCounts(step, initial, m, front);
      var t := Run(step, initial, m, AllRouted(front)).0;
      match Routed(line)
      case Some(request) =>
        assert DropLast(AllRouted(front) + [request]) == AllRouted(front);
        OneLineCounts(step, initial, t, line);
      case None => assert AllRouted(lines) == AllRouted(front);
    }
  }

  lemma OneLineCounts(step: Interpreter, initial: Globals, m: Model, line: string)
    requires Routed(line).Some?
    ensures var (id, inner) := Routed(line).value;
      Serve(step, initial, m, id, inner).0.table.Keys == Relay.TableAfter(m.table.Keys, line)
  {
    hide Relay.Route;
  }

  /** A scoped line is routed to its session, with the rest of the line as the request. */
  lemma ScopedLineIsRouted(id: string, inner: string)
    requires Relay.ValidId(id) && inner != ""
    ensures Routed("SESSION " + id + " " + inner) == Some((id, inner))
  {
    var line := "SESSION " + id + " " + inner;
    var rest := line[8..];
    assert rest == id + " " + inner;
    forall i | 0 <= i < |id| ensures rest[..|id|][i] != ' ' {
      assert rest[..|id|][i] == id[i] && Relay.IsIdChar(id[i]);
    }
    IndexOfIs(rest, ' ', |id|);
    assert line[8..8 + |id|] == id && line[8 + |id| + 1..] == inner;
    assert line[0] == 'S' && line[1] == 'E';
    assert "DIAG SESSION-COUNT"[0] == 'D' && "KEY "[0] == 'K';
  }
}
