/** Exactly which names break the promise not to collect while composing. */
module NameCollision {
  import opened Common
  import Decimal
  import opened Relay
  import opened RelayTrace
  import opened RelayOwnership
  import opened RelayRuns
  import opened IdleCollection

  /** A collection about to be dispatched finds this owner's last published STATE not mid-composition. */
  predicate Told(s: State, o: Owner) {
    Collecting(s) && o in s.shared.modes ==> !s.shared.modes[o]
  }

  /** No session outside `names` was ever named, and at most `clients` clients ever connected. */
  predicate Within(s: State, names: set<string>, clients: nat) {
    s.shared.named <= names && s.next <= clients + 1
  }

  /** A session may be named like a client in use: that session, or that client, shares its entry. */
  predicate Collides(o: Owner, names: set<string>, clients: nat) {
    match o
    case Session(id) => id in names && exists c :: 1 <= c <= clients && id == KeyOf(Legacy(c))
    case Legacy(client) => 1 <= client <= clients && KeyOf(o) in names
  }

  // ---------------------------------------------------------------------------
  // Without a collision the promise holds.

  lemma SharedOnlyByCollision(w: World, events: seq<Event>, o: Owner, names: set<string>, clients: nat)
    requires Within(Run(w, START, events), names, clients) && o in Run(w, START, events).shared.modes
    ensures Unshared(o, Run(w, START, events).shared) || Collides(o, names, clients)
  {
    hide KeyOf, OwnersWork, Arbitrated, ComposersAreOwned, ModesAreTracked, FlagIsSet;
    RunIsSound(w, events);
    var s := Run(w, START, events);
    if o.Session? && IsTouched(o.id, s.shared.touched) {
      var c :| c in s.shared.touched && o.id == KeyOf(Legacy(c));
      assert 1 <= c <= clients;
    }
  }

  lemma ToldUnlessColliding(w: World, events: seq<Event>, o: Owner, names: set<string>, clients: nat)
    requires Within(Run(w, START, events), names, clients) && !Collides(o, names, clients)
    ensures Told(Run(w, START, events), o)
  {
    hide Unshared, Collides, Run;
    var s := Run(w, START, events);
    if Collecting(s) && o in s.shared.modes {
      SharedOnlyByCollision(w, events, o, names, clients);
      NoCollectionWhileComposing(w, events, o);
    }
  }

  // ---------------------------------------------------------------------------
  // Requests on a run.

  function Workers(n: nat): map<nat, Worker> {
    if n == 0 then map[] else Workers(n - 1)[n := READING]
  }

  /** Clients 1 to `n` have connected and nothing else happened. */
  function Connected(n: nat): State {
    State(START.shared, Workers(n), n + 1, Clock(0, 0, false, false), Asleep, [])
  }

  lemma {:induction false} ConnectedIsReachable(w: World, n: nat)
    ensures Reachable(w, Connected(n))
  {
    hide Reachable;
    if n == 0 {
      StartIsReachable(w);
      assert Connected(0) == START;
    } else {
      ConnectedIsReachable(w, n - 1);
      Onward(w, Connected(n - 1), Connect);
      assert Step(w, Connected(n - 1), Connect) == Connected(n);
    }
  }

  /** A request read, noted, served and answered. */
  function Requested(w: World, s: State, c: nat, line: string): State
    requires c in s.workers
  {
    var worker := s.workers[c];
    var r := Classify(line);
    var sessions := if r.Scoped? then worker.sessions + {r.id} else worker.sessions;
    State(ServeLocked(w, s.shared, c, line).0, s.workers[c := Worker(sessions, Reading, "")], s.next,
          Clock(s.clock.now, s.clock.now, true, true), s.collector, s.log + [StoredStamp(s.clock.now)] + [NotedDue])
  }

  lemma RequestRuns(w: World, s: State, c: nat, line: string)
    requires Reachable(w, s) && s.collector == Asleep && c in s.workers && s.workers[c].stage == Reading
    requires !Classify(line).Shutdown? && !Classify(line).Preview? && ServeLocked(w, s.shared, c, line).1.Some?
    ensures Reachable(w, Requested(w, s, c, line))
  {
    hide Reachable, Classify, ServeLocked;
    var now, worker := s.clock.now, s.workers[c];
    Onward(w, s, Read(c, line));
    var s1 := WithWorker(s, c, Worker(worker.sessions, Stamped(now), line));
    assert Step(w, s, Read(c, line)) == s1;
    Onward(w, s1, Note(c));
    var s2 := WithWorker(s1, c, Worker(worker.sessions, Stored, line)).(
      clock := s.clock.(lastActivity := now), log := s.log + [StoredStamp(now)]);
    assert Step(w, s1, Note(c)) == s2;
    Onward(w, s2, Note(c));
    var s3 := WithWorker(s2, c, Worker(worker.sessions, Flagged, line)).(
      clock := s2.clock.(gcPending := true), log := s2.log + [NotedDue]);
    assert Step(w, s2, Note(c)) == s3;
    Onward(w, s3, Note(c));
    var s4 := WithWorker(s3, c, Worker(worker.sessions, Ready, line)).(clock := Clock(now, now, true, true));
    assert Step(w, s3, Note(c)) == s4;
    Onward(w, s4, Serve(c, true));
    assert s4.shared == s.shared;
    assert Step(w, s4, Serve(c, true)).workers == Requested(w, s, c, line).workers;
    assert Step(w, s4, Serve(c, true)) == Requested(w, s, c, line);
  }

  lemma DispatchSays(w: World, child: Child, c: nat, text: string, line: string)
    requires w.accepts(child.written) && w.output(child.taken) == Some(line) && !("SERVER " <= line)
    ensures var (next, reply) := Dispatch(w, child, c, text); reply == Some(line) && next.taken == child.taken + 1
  {
    hide TableAfter;
  }

  /** Every write is taken, and every line read is a response. */
  ghost predicate Plain(w: World) {
    && (forall n: nat :: w.accepts(n))
    && (forall n: nat :: w.output(n).Some? && !("SERVER " <= w.output(n).value))
  }

  lemma InputServes(w: World, sh: Shared, c: nat, line: string)
    requires Plain(w) && Classify(line) == Input && sh.active != c
    ensures var (t, reply) := ServeLocked(w, sh, c, line);
      && reply == w.output(sh.child.taken + 1) && t.child.taken == sh.child.taken + 2
      && t == Track(sh.(child := t.child, active := c), Legacy(c), reply.value)
  {
    hide Dispatch, Classify, Track;
    DispatchSays(w, sh.child, c, "RESET", w.output(sh.child.taken).value);
    var first := Dispatch(w, sh.child, c, "RESET").0;
    DispatchSays(w, first, c, line, w.output(first.taken).value);
    var second := Dispatch(w, first, c, line).0;
    TrackKeepsNames(sh.(child := second, active := c), Legacy(c), w.output(first.taken).value);
  }

  lemma ScopedServes(w: World, sh: Shared, c: nat, line: string, id: string)
    requires Plain(w) && Classify(line) == Scoped(id, false)
    ensures var (t, reply) := ServeLocked(w, sh, c, line);
      && reply == w.output(sh.child.taken) && t.child.taken == sh.child.taken + 1
      && t == Track(Claim(sh, c, id).(child := t.child), Session(id), reply.value)
  {
    hide Dispatch, Classify, Track;
    DispatchSays(w, sh.child, c, line, w.output(sh.child.taken).value);
    var next := Dispatch(w, sh.child, c, line).0;
    TrackKeepsNames(Claim(sh, c, id).(child := next), Session(id), w.output(sh.child.taken).value);
  }

  // ---------------------------------------------------------------------------
  // Two requests of one client, one unscoped and one in a session named like it.

  const KEY_LINE := "KEY 97"
  const MID := "STATE preedit 0"
  const IDLE := "STATE latin 0"

  function ScopedLine(id: string): string {
    "SESSION " + id + " KEY 97"
  }

  lemma ModeIs(response: string, mode: string)
    requires |response| >= 6 && ' ' !in mode && response[6..] == mode + " 0"
    ensures ModeOf(response) == mode
  {
    var rest := response[6..];
    assert rest[..|mode|] == mode;
    IndexOfIs(rest, ' ', |mode|);
    assert response[6..6 + |mode|] == mode;
  }

  lemma MidIsComposing()
    ensures "STATE " <= MID && IsComposingMode(ModeOf(MID)) && !("SERVER " <= MID)
  {
    hide ModeOf;
    assert MID[6..] == "preedit" + " 0";
    ModeIs(MID, "preedit");
    assert MID[1] == 'T' && "SERVER "[1] == 'E';
  }

  lemma IdleIsNot()
    ensures "STATE " <= IDLE && !IsComposingMode(ModeOf(IDLE)) && !("SERVER " <= IDLE)
  {
    hide ModeOf;
    assert IDLE[6..] == "latin" + " 0";
    ModeIs(IDLE, "latin");
    assert "latin"[0] == 'l' && "preedit"[0] == 'p' && "candidate"[0] == 'c' && "registration"[0] == 'r';
    assert IDLE[1] == 'T' && "SERVER "[1] == 'E';
  }

  lemma RepliesHaveModes()
    ensures "STATE " <= MID && IsComposingMode(ModeOf(MID)) && !("SERVER " <= MID)
    ensures "STATE " <= IDLE && !IsComposingMode(ModeOf(IDLE)) && !("SERVER " <= IDLE)
  {
    hide IsComposingMode, ModeOf;
    MidIsComposing();
    IdleIsNot();
  }

  lemma KeyLineIsInput()
    ensures Classify(KEY_LINE) == Input
  {
    assert KEY_LINE[0] == 'K' && "SHUTDOWN"[0] == 'S' && "PREVIEW "[0] == 'P' && "SESSION "[0] == 'S';
    assert "RESET"[0] == 'R' && CONVERT[0] == 'C';
    assert "KEY " <= KEY_LINE;
  }

  lemma ScopedLineIsScoped(id: string)
    requires IsWord(id)
    ensures Classify(ScopedLine(id)) == Scoped(id, false)
  {
    hide IsInput;
    var line := ScopedLine(id);
    assert line == "SESSION " + (id + " KEY 97");
    assert line[8..] == id + " KEY 97" && line[8..][..|id|] == id;
    IndexOfIs(line[8..], ' ', |id|);
    assert line[8..8 + |id|] == id;
    StartsWithS(line);
    assert |line| != |CloseLine(id)|;
  }

  lemma KeyIsWord(c: nat)
    ensures IsWord(KeyOf(Legacy(c)))
  {
    hide Decimal.Digits, Decimal.Value;
    Decimal.ValueOfDigits(c);
    var digits := Decimal.Digits(c);
    forall i | 0 <= i < |KeyOf(Legacy(c))| ensures KeyOf(Legacy(c))[i] != ' ' {
      if i >= |LEGACY| { assert KeyOf(Legacy(c))[i] == digits[i - |LEGACY|] && Decimal.IsDigit(digits[i - |LEGACY|]); }
    }
  }

  /** An engine that answers every line, mid-composition the `mid`-th time and idle otherwise. */
  function Engine(idle: Interval, mid: nat): World {
    World(n => true, n => Some(if n == mid then MID else IDLE), word => "", idle, false)
  }

  lemma EngineIsPlain(idle: Interval, mid: nat)
    ensures Plain(Engine(idle, mid))
  {
    RepliesHaveModes();
  }

  /** From two answered requests at time 0, with nothing left in the composing set, to a collection. */
  lemma CollectsLater(w: World, s: State)
    requires Reachable(w, s) && s.collector == Asleep && s.clock == Clock(0, 0, true, true)
    requires !s.shared.sessionComposing
    ensures exists t :: Reachable(w, t) && Collecting(t) && t.shared == s.shared && t.next == s.next
  {
    hide Reachable, Elapsed, Collect;
    Onward(w, s, Tick(w.idle));
    var s1 := s.(clock := Clock(w.idle, 0, true, true));
    assert Step(w, s, Tick(w.idle)) == s1;
    ElapsedIsDifference(w.idle, 0);
    CollectorRuns(w, s1);
    CheckBegins(w, s1.(collector := Locked));
    var s2 := CollectorStep(w, s1.(collector := Locked));
    CheckPasses(w, s2, w.idle, 0);
  }

  lemma CheckPasses(w: World, s: State, now: nat, stamp: nat)
    requires Reachable(w, s) && s.clock.gcPending && !s.shared.sessionComposing
    requires if w.clockFirst then s.collector == HasClock(now) && stamp == s.clock.lastActivity
             else s.collector == HasStamp(stamp) && now == s.clock.now
    requires Elapsed(now, stamp) >= w.idle
    ensures exists t :: Reachable(w, t) && Collecting(t) && t.shared == s.shared && t.next == s.next
  {
    hide Reachable, Elapsed, Collect;
    Onward(w, s, Collector);
    var s1 := s.(collector := FoundIdle, log := s.log + [CheckedIdle(now, stamp)]);
    assert CollectorStep(w, s) == s1;
    Onward(w, s1, Collector);
    var s2 := s1.(collector := FoundCalm);
    assert CollectorStep(w, s1) == s2;
    assert Collecting(s2);
  }

  /** The client types and is mid-composition; its namesake session then reports an idle mode. */
  lemma ClientIsHidden(idle: Interval, c: nat)
    requires c >= 1
    ensures exists s :: Reachable(Engine(idle, 1), s) && Within(s, {KeyOf(Legacy(c))}, c) && !Told(s, Legacy(c))
  {
    hide Reachable, Classify, ServeLocked, ModeOf, IsComposingMode, KeyOf, Collecting, Plain;
    var w, key := Engine(idle, 1), KeyOf(Legacy(c));
    EngineIsPlain(idle, 1);
    RepliesHaveModes();
    KeyLineIsInput();
    KeyIsWord(c);
    ScopedLineIsScoped(key);
    SessionKeyIsName(key);
    ConnectedIsReachable(w, c);
    var s0 := Connected(c);
    InputServes(w, s0.shared, c, KEY_LINE);
    RequestRuns(w, s0, c, KEY_LINE);
    var s1 := Requested(w, s0, c, KEY_LINE);
    assert s1.shared.composing == {key} && s1.shared.modes == map[Legacy(c) := true] && s1.shared.child.taken == 2;
    ScopedServes(w, s1.shared, c, ScopedLine(key), key);
    RequestRuns(w, s1, c, ScopedLine(key));
    var s2 := Requested(w, s1, c, ScopedLine(key));
    assert s2.shared.composing == {} && s2.shared.modes == map[Legacy(c) := true, Session(key) := false];
    CollectsLater(w, s2);
  }

  /** The session is mid-composition; the client it is named after then reports an idle mode. */
  lemma SessionIsHidden(idle: Interval, c: nat)
    requires c >= 1
    ensures exists s ::
      Reachable(Engine(idle, 0), s) && Within(s, {KeyOf(Legacy(c))}, c) && !Told(s, Session(KeyOf(Legacy(c))))
  {
    hide Reachable, Classify, ServeLocked, ModeOf, IsComposingMode, KeyOf, Collecting, Plain;
    var w, key := Engine(idle, 0), KeyOf(Legacy(c));
    EngineIsPlain(idle, 0);
    RepliesHaveModes();
    KeyLineIsInput();
    KeyIsWord(c);
    ScopedLineIsScoped(key);
    SessionKeyIsName(key);
    ConnectedIsReachable(w, c);
    var s0 := Connected(c);
    ScopedServes(w, s0.shared, c, ScopedLine(key), key);
    RequestRuns(w, s0, c, ScopedLine(key));
    var s1 := Requested(w, s0, c, ScopedLine(key));
    assert s1.shared.composing == {key} && s1.shared.modes == map[Session(key) := true] && s1.shared.child.taken == 1;
    InputServes(w, s1.shared, c, KEY_LINE);
    RequestRuns(w, s1, c, KEY_LINE);
    var s2 := Requested(w, s1, c, KEY_LINE);
    assert s2.shared.composing == {} && s2.shared.modes == map[Session(key) := true, Legacy(c) := false];
    CollectsLater(w, s2);
  }

  lemma SessionKeyIsName(id: string)
    ensures KeyOf(Session(id)) == id
  {
  }

  lemma CollidingClient(o: Owner, names: set<string>, clients: nat) returns (c: nat)
    requires Collides(o, names, clients)
    ensures 1 <= c <= clients && KeyOf(Legacy(c)) in names
    ensures o == Legacy(c) || o == Session(KeyOf(Legacy(c)))
  {
    hide KeyOf;
    match o
    case Session(id) => c :| 1 <= c <= clients && id == KeyOf(Legacy(c));
    case Legacy(client) => c := client;
  }

  lemma WithinMore(s: State, names: set<string>, clients: nat, more: set<string>, many: nat)
    requires Within(s, names, clients) && names <= more && clients <= many
    ensures Within(s, more, many)
  {
  }

  /** A run that breaks the promise, given a collision. */
  lemma CollidingRun(o: Owner, names: set<string>, clients: nat) returns (w: World, events: seq<Event>)
    requires Collides(o, names, clients)
    ensures Within(Run(w, START, events), names, clients) && !Told(Run(w, START, events), o)
  {
    hide Told, Within, Run, Collides, KeyOf;
    var c := CollidingClient(o, names, clients);
    if o.Session? { SessionIsHidden(0, c); } else { ClientIsHidden(0, c); }
    w := Engine(0, if o.Session? then 0 else 1);
    var s :| Reachable(w, s) && Within(s, {KeyOf(Legacy(c))}, c) && !Told(s, o);
    events :| Run(w, START, events) == s;
    WithinMore(s, {KeyOf(Legacy(c))}, c, names, clients);
  }

  /**
    Among the runs that name only sessions of `names` and connect at most `clients` clients: every
    collection finds this owner not composing if and only if no session may be named "legacy:" followed
    by the decimal number of a client in use such that the two share this owner's entry.
   */
  lemma PromiseHoldsExactly(o: Owner, names: set<string>, clients: nat)
    ensures (forall w: World, events: seq<Event> ::
               Within(Run(w, START, events), names, clients) ==> Told(Run(w, START, events), o))
            <==> !Collides(o, names, clients)
  {
    hide Told, Within, Run;
    if !Collides(o, names, clients) {
      forall w: World, events: seq<Event> | Within(Run(w, START, events), names, clients)
        ensures Told(Run(w, START, events), o)
      {
        ToldUnlessColliding(w, events, o, names, clients);
      }
    } else {
      var w, events := CollidingRun(o, names, clients);
      assert Within(Run(w, START, events), names, clients) && !Told(Run(w, START, events), o);
    }
  }
}
