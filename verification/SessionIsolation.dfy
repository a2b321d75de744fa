/** When does the shared interpreter behave like one independent engine per client? */
module SessionIsolation {
  import opened Common
  import opened Sessions

  // A scoped request: the session id and the request line behind it.
  type Request = (string, string)

  /** The engine after a run, and the reply to every request of it. */
  function Run(step: Interpreter, initial: Globals, m: Model, requests: seq<Request>): (Model, seq<string>) {
    if requests == [] then (m, [])
    else
      var (before, replies) := Run(step, initial, m, DropLast(requests));
      var (after, reply) := Serve(step, initial, before, Last(requests).0, Last(requests).1);
      (after, replies + [reply])
  }

  /** One client's own requests, in order. */
  function Own(requests: seq<Request>, id: string): seq<Request> {
    if requests == [] then []
    else if Last(requests).0 == id then Own(DropLast(requests), id) + [Last(requests)]
    else Own(DropLast(requests), id)
  }

  /** The replies one client received out of all replies of the run. */
  function OwnReplies(requests: seq<Request>, replies: seq<string>, id: string): seq<string>
    requires |replies| == |requests|
  {
    if requests == [] then []
    else if Last(requests).0 == id then OwnReplies(DropLast(requests), DropLast(replies), id) + [Last(replies)]
    else OwnReplies(DropLast(requests), DropLast(replies), id)
  }

  lemma {:induction false} RunAnswersAll(step: Interpreter, initial: Globals, m: Model, requests: seq<Request>)
    ensures |Run(step, initial, m, requests).1| == |requests|
  {
    if requests != [] {
      RunAnswersAll(step, initial, m, DropLast(requests));
    }
  }

  // ---------------------------------------------------------------------------
  // Session states that differ in variables which initialization leaves alone.

  predicate SameExcept(a: Local, b: Local, leaks: set<Native>) {
    && a == b.(natives := a.natives)
    && a.natives.Keys == b.natives.Keys
    && forall x :: x in a.natives && x !in leaks ==> a.natives[x] == b.natives[x]
  }

  /** The interpreter neither shows nor spreads a difference confined to `leaks`. */
  ghost predicate Insensitive(step: Interpreter, leaks: set<Native>) {
    forall a: Local, b: Local, line: string :: SameExcept(a, b, leaks) ==>
      step(a, line).1 == step(b, line).1 && SameExcept(step(a, line).0, step(b, line).0, leaks)
  }

  /** What initialization leaves to whatever the previous session installed. */
  function Uninitialized(symbols: seq<Native>, initial: Globals): set<Native> {
    (set x | x in symbols) - initial.Keys
  }

  /** Two engines agree about one session, up to `leaks`. */
  predicate Agree(m: Model, n: Model, id: string, leaks: set<Native>) {
    && (id in m.table <==> id in n.table)
    && (id in m.table ==> SameExcept(m.table[id], n.table[id], leaks))
  }

  lemma ServeKeepsAmbientClean(symbols: seq<Native>, step: Interpreter, initial: Globals, m: Model, id: string, line: string)
    requires WellBehaved(symbols, step) && Ready(symbols, initial, m)
    ensures Ready(symbols, initial, Serve(step, initial, m, id, line).0)
  {
  }

  /** Everything a boot of the engine guarantees, kept by every request. */
  predicate Ready(symbols: seq<Native>, initial: Globals, m: Model) {
    && initial.Keys <= (set x | x in symbols) && Untagged(initial)
    && Clean(symbols, m.ambient)
    && forall id :: id in m.table ==> Clean(symbols, m.table[id].natives)
  }

  lemma {:induction false} RunKeepsReady(symbols: seq<Native>, step: Interpreter, initial: Globals, m: Model, requests: seq<Request>)
    requires WellBehaved(symbols, step) && Ready(symbols, initial, m)
    ensures Ready(symbols, initial, Run(step, initial, m, requests).0)
  {
    if requests != [] {
      RunKeepsReady(symbols, step, initial, m, DropLast(requests));
      ServeKeepsAmbientClean(symbols, step, initial, Run(step, initial, m, DropLast(requests)).0,
                             Last(requests).0, Last(requests).1);
    }
  }

  lemma FreshSessionsAgree(symbols: seq<Native>, initial: Globals, a: Globals, b: Globals)
    requires initial.Keys <= (set x | x in symbols) && Clean(symbols, a) && Clean(symbols, b)
    ensures SameExcept(Fresh(initial, a), Fresh(initial, b), Uninitialized(symbols, initial))
  {
  }

  lemma OwnRequestKeepsAgreement(
    symbols: seq<Native>, step: Interpreter, initial: Globals, m: Model, n: Model, id: string, line: string)
    requires Ready(symbols, initial, m) && Ready(symbols, initial, n)
    requires Insensitive(step, Uninitialized(symbols, initial))
    requires Agree(m, n, id, Uninitialized(symbols, initial))
    ensures Agree(Serve(step, initial, m, id, line).0, Serve(step, initial, n, id, line).0, id,
                  Uninitialized(symbols, initial))
    ensures Serve(step, initial, m, id, line).1 == Serve(step, initial, n, id, line).1
  {
    hide Uninitialized, Clean;
    FreshSessionsAgree(symbols, initial, m.ambient, n.ambient);
  }

  lemma OtherRequestKeepsAgreement(
    step: Interpreter, initial: Globals, m: Model, n: Model, id: string, other: string, line: string,
    leaks: set<Native>)
    requires Agree(m, n, id, leaks) && other != id
    ensures Agree(Serve(step, initial, m, other, line).0, n, id, leaks)
  {
  }

  /**
    Isolation: in any interleaving, CLOSE and re-creation included, each client's replies are those
    of its own requests alone, for interpreters insensitive to what initialization leaves alone.
   */
  lemma {:induction false} Isolation(
    symbols: seq<Native>, step: Interpreter, initial: Globals, m: Model, n: Model,
    requests: seq<Request>, id: string)
    requires WellBehaved(symbols, step) && Insensitive(step, Uninitialized(symbols, initial))
    requires Ready(symbols, initial, m) && Ready(symbols, initial, n)
    requires Agree(m, n, id, Uninitialized(symbols, initial))
    ensures |Run(step, initial, m, requests).1| == |requests|
    ensures OwnReplies(requests, Run(step, initial, m, requests).1, id)
         == Run(step, initial, n, Own(requests, id)).1
    ensures Agree(Run(step, initial, m, requests).0, Run(step, initial, n, Own(requests, id)).0, id,
                  Uninitialized(symbols, initial))
  {
    hide Serve, Agree, Ready, Insensitive, WellBehaved, Uninitialized;
    if requests != [] {
      var front := DropLast(requests);
      Isolation(symbols, step, initial, m, n, front, id);
      var (a, replies) := Run(step, initial, m, front);
      var b := Run(step, initial, n, Own(front, id)).0;
      var (other, line) := Last(requests);
      assert DropLast(Run(step, initial, m, requests).1) == replies;
      if other == id {
        RunKeepsReady(symbols, step, initial, m, front);
        RunKeepsReady(symbols, step, initial, n, Own(front, id));
        OwnRequestKeepsAgreement(symbols, step, initial, a, b, id, line);
        assert DropLast(Own(requests, id)) == Own(front, id);
      } else {
        OtherRequestKeepsAgreement(step, initial, a, b, id, other, line, Uninitialized(symbols, initial));
      }
    }
  }

  // ---------------------------------------------------------------------------
  // For which initializations is every interpreter isolated?

  /** On these requests, client `id` gets the replies it would get alone. */
  predicate SeesOnlyItself(step: Interpreter, initial: Globals, boot: Globals, requests: seq<Request>, id: string) {
    && |Run(step, initial, Model(map[], boot), requests).1| == |requests|
    && OwnReplies(requests, Run(step, initial, Model(map[], boot), requests).1, id)
       == Run(step, initial, Model(map[], boot), Own(requests, id)).1
  }

  /** From any boot, every client sees only itself. */
  ghost predicate Isolated(symbols: seq<Native>, step: Interpreter, initial: Globals) {
    forall boot: Globals, requests: seq<Request>, id: string :: Clean(symbols, boot) ==>
      SeesOnlyItself(step, initial, boot, requests, id)
  }

  ghost predicate AlwaysIsolated(symbols: seq<Native>, initial: Globals) {
    forall step: Interpreter :: WellBehaved(symbols, step) ==> Isolated(symbols, step, initial)
  }

  lemma FullInitializationIsolatesOne(symbols: seq<Native>, step: Interpreter, initial: Globals)
    requires Untagged(initial) && initial.Keys == (set x | x in symbols)
    requires WellBehaved(symbols, step)
    ensures Isolated(symbols, step, initial)
  {
    hide Run, Own, OwnReplies, WellBehaved, Insensitive;
    EverythingIsInsensitiveToNothing(step);
    assert Uninitialized(symbols, initial) == {};
    forall boot: Globals, requests: seq<Request>, id: string | Clean(symbols, boot)
      ensures SeesOnlyItself(step, initial, boot, requests, id)
    {
      Isolation(symbols, step, initial, Model(map[], boot), Model(map[], boot), requests, id);
    }
  }

  lemma FullInitializationIsolates(symbols: seq<Native>, initial: Globals)
    requires Untagged(initial) && initial.Keys == (set x | x in symbols)
    ensures AlwaysIsolated(symbols, initial)
  {
    hide Isolated, WellBehaved;
    forall step: Interpreter | WellBehaved(symbols, step) ensures Isolated(symbols, step, initial) {
      FullInitializationIsolatesOne(symbols, step, initial);
    }
  }

  lemma EverythingIsInsensitiveToNothing(step: Interpreter)
    ensures Insensitive(step, {})
  {
    forall a: Local, b: Local, line: string | SameExcept(a, b, {})
      ensures step(a, line).1 == step(b, line).1 && SameExcept(step(a, line).0, step(b, line).0, {})
    {
      assert a.natives == b.natives;
    }
  }

  /** An interpreter whose replies show one variable, and whose PUT request sets it. */
  function Spy(x: Native): Interpreter {
    (s: Local, line: string) =>
      if x !in s.natives then (s, "")
      else if line == "PUT" then (s.(natives := s.natives[x := Number(1)]), "")
      else (s, if s.natives[x] == Number(1) then "1" else "0")
  }

  lemma SpyReports(x: Native, initial: Globals, ambient: Globals, line: string)
    requires x in ambient && x !in initial
    ensures var (s, reply) := Spy(x)(Fresh(initial, ambient), line);
      && (line == "PUT" ==> s.natives == (ambient + initial)[x := Number(1)])
      && (line == "GET" ==> reply == if ambient[x] == Number(1) then "1" else "0")
  {
    assert Fresh(initial, ambient).natives[x] == ambient[x];
  }

  const PUT: Request := ("a", "PUT")
  const GET: Request := ("b", "GET")

  lemma GetAlone(x: Native, initial: Globals, boot: Globals)
    requires x in boot && x !in initial && boot[x] == Nil
    ensures Run(Spy(x), initial, Model(map[], boot), [GET]).1 == ["0"]
  {
    SpyReports(x, initial, boot, "GET");
    assert DropLast([GET]) == [];
  }

  lemma GetAfterPut(x: Native, initial: Globals, boot: Globals)
    requires x in boot && x !in initial
    ensures Run(Spy(x), initial, Model(map[], boot), [PUT, GET]).1 == ["", "1"]
  {
    var m := Model(map[], boot);
    SpyReports(x, initial, boot, "PUT");
    assert DropLast([PUT]) == [] && DropLast([PUT, GET]) == [PUT];
    assert Run(Spy(x), initial, m, []) == (m, []);
    var after := Run(Spy(x), initial, m, [PUT]).0;
    assert after == Serve(Spy(x), initial, m, "a", "PUT").0;
    SpyReports(x, initial, after.ambient, "GET");
  }

  lemma OwnOfPutGet()
    ensures Own([PUT, GET], "b") == [GET] && OwnReplies([PUT, GET], ["", "1"], "b") == ["1"]
  {
    assert DropLast([PUT]) == [] && DropLast([PUT, GET]) == [PUT] && DropLast(["", "1"]) == [""];
    assert DropLast([""]) == [] && PUT.0 != "b";
    assert Own([PUT], "b") == [];
    assert OwnReplies([PUT], [""], "b") == OwnReplies([], [], "b") == [];
  }

  lemma SpyIsWellBehaved(symbols: seq<Native>, x: Native)
    ensures WellBehaved(symbols, Spy(x))
  {
  }

  /** A variable that initialization forgets carries one client's state into another's replies. */
  lemma ForgottenVariableLeaks(symbols: seq<Native>, initial: Globals, x: Native)
    requires initial.Keys <= (set y | y in symbols) && x in symbols && x !in initial
    ensures WellBehaved(symbols, Spy(x)) && !Isolated(symbols, Spy(x), initial)
  {
    hide Run, Own, OwnReplies, Spy;
    SpyIsWellBehaved(symbols, x);
    var boot: Globals := map y | y in symbols :: Nil;
    assert Clean(symbols, boot);
    GetAlone(x, initial, boot);
    GetAfterPut(x, initial, boot);
    OwnOfPutGet();
    assert Own([PUT, GET], "b") == [GET];
    assert !SeesOnlyItself(Spy(x), initial, boot, [PUT, GET], "b");
  }

  /** Every interpreter is isolated if and only if initialization assigns every session variable. */
  lemma IsolationExactly(symbols: seq<Native>, initial: Globals)
    requires Untagged(initial) && initial.Keys <= (set x | x in symbols)
    ensures AlwaysIsolated(symbols, initial) <==> Uninitialized(symbols, initial) == {}
  {
    hide Isolated, WellBehaved;
    if Uninitialized(symbols, initial) == {} {
      assert forall y :: y in symbols ==> y !in Uninitialized(symbols, initial);
      FullInitializationIsolates(symbols, initial);
    } else {
      var x :| x in Uninitialized(symbols, initial);
      ForgottenVariableLeaks(symbols, initial, x);
    }
  }

  /** The fifteen variables this engine checkpoints but does not initialize. */
  predicate IsLeak(x: Native) {
    x.OkuriAriMin? || x.OkuriAriMax? || x.OkuriNasiMin? || x.PreviousPoint? || x.OkuriganaStartPoint?
    || x.LastKakuteiHenkanKey? || x.SelfInsertNonUndoCount? || x.LastHenkanData?
    || x.UndoKakuteiPrevState? || x.UndoKakuteiPreviousPoint? || x.UndoKakuteiPreviousLength?
    || x.HenkanInMinibuffFlag? || x.AfterPrefix? || x.Jisx0201Roman? || x.NumList?
  }

  const LEAKS: set<Native> := set x: Native | IsLeak(x)

  /** Initialization assigns exactly the other variables. */
  lemma LeaksAreUnassigned(x: Native)
    ensures x in INITIAL <==> !IsLeak(x)
  {
    hide NATIVES, LEAKS;
  }

  lemma EngineLeaks()
    ensures Uninitialized(NATIVES, INITIAL) == LEAKS
  {
    hide NATIVES, INITIAL, IsLeak;
    forall x: Native
      ensures x in Uninitialized(NATIVES, INITIAL) <==> x in LEAKS
    {
      EveryNativeIsListed(x);
      LeaksAreUnassigned(x);
    }
  }

  lemma InitialIsPartial()
    ensures Untagged(INITIAL) && INITIAL.Keys <= (set x | x in NATIVES)
  {
    forall x | x in INITIAL ensures x in NATIVES { EveryNativeIsListed(x); }
  }

  /** For this engine: not isolated for every interpreter, isolated for those blind to the fifteen. */
  lemma EngineIsolation(step: Interpreter, boot: Globals, requests: seq<Request>, id: string)
    requires WellBehaved(NATIVES, step) && Insensitive(step, LEAKS) && Clean(NATIVES, boot)
    ensures !AlwaysIsolated(NATIVES, INITIAL)
    ensures |Run(step, INITIAL, Model(map[], boot), requests).1| == |requests|
    ensures OwnReplies(requests, Run(step, INITIAL, Model(map[], boot), requests).1, id)
         == Run(step, INITIAL, Model(map[], boot), Own(requests, id)).1
  {
    hide NATIVES, INITIAL, Run, Own, OwnReplies, Insensitive, WellBehaved, AlwaysIsolated;
    EngineLeaks();
    InitialIsPartial();
    assert OkuriAriMin in LEAKS;
    IsolationExactly(NATIVES, INITIAL);
    Isolation(NATIVES, step, INITIAL, Model(map[], boot), Model(map[], boot), requests, id);
  }
}
