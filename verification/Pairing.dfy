/**
  Requests and replies end to end: pipe clients that time out and reconnect, one worker a
  connection, one engine behind one mutex, dictionary lookups nested in a request.
 */
module Pairing {
  import opened Common

  const MAX_LOOKUPS := 64

  // The step-th of the dispatches one client request needs.
  datatype Tag = Tag(serial: nat, step: nat, steps: nat)

  datatype Line = RequestLine(tag: Tag) | LookupLine

  // What the engine writes: a lookup, or the response to the line it took as a request.
  datatype Output = ServerLine | Response(origin: Line)

  // The engine takes whatever line comes when it waits, and as a lookup's answer when it asked.
  datatype EnginePhase = Waiting | Working(origin: Line, lookups: nat) | Asking(origin: Line, lookups: nat)

  datatype Engine = Engine(stdin: seq<Line>, stdout: seq<Output>, phase: EnginePhase, alive: bool)

  // A response made by the host alone, or one the engine gave.
  datatype Answer = Local(serial: nat) | FromEngine(origin: Line)

  datatype Worker =
    | Listening
    | Holding(serial: nat, steps: nat)
    | Dispatching(serial: nat, step: nat, steps: nat, sent: bool, owes: bool, count: nat)
    | Answering(serial: nat, answer: Answer)
    | Gone

  // One pipe instance: the client's end, the two directions, the host's worker.
  datatype Conn = Conn(open: bool, waiting: Option<nat>, toHost: seq<nat>, toClient: seq<Answer>, worker: Worker)

  datatype State = State(
    conns: map<nat, Conn>, nextConn: nat, nextSerial: nat, mutex: Option<nat>, engine: Engine,
    // history: what was asked, and what came back for it
    delivered: seq<(nat, Answer)>)

  datatype Event =
    | Accept
    | Send(c: nat)
    | Receive(c: nat)
    | GiveUp(c: nat)                 // timeout, I/O error, cancellation or disconnect
    | Hear(c: nat, steps: nat)
    | AnswerLocally(c: nat)
    | Acquire(c: nat)
    | WriteRequest(c: nat)
    | ReadOutput(c: nat)
    | WriteLookup(c: nat)
    | Reply(c: nat)
    | HangUp(c: nat)
    | EngineTakes(lookups: nat)
    | EngineEmits
    | EngineHears
    | EngineDies

  function With(s: State, c: nat, conn: Conn): State {
    s.(conns := s.conns[c := conn])
  }

  /** The dispatch failed: the worker leaves its loop and the mutex. */
  function Fail(s: State, c: nat, conn: Conn): State {
    With(s, c, conn.(worker := Gone)).(mutex := None)
  }

  function ReadStep(s: State, c: nat, conn: Conn): State
    requires conn.worker.Dispatching?
  {
    var d := conn.worker;
    if s.engine.stdout == [] then (if s.engine.alive then s else Fail(s, c, conn))
    else
      var read := s.(engine := s.engine.(stdout := s.engine.stdout[1..]));
      match s.engine.stdout[0]
      case ServerLine =>
        if d.count + 1 > MAX_LOOKUPS then Fail(read, c, conn)
        else With(read, c, conn.(worker := d.(owes := true, count := d.count + 1)))
      case Response(origin) =>
        if d.step + 1 < d.steps then
          With(read, c, conn.(worker := Dispatching(d.serial, d.step + 1, d.steps, false, false, 0)))
        else With(read, c, conn.(worker := Answering(d.serial, FromEngine(origin)))).(mutex := None)
  }

  function WriteStep(s: State, c: nat, conn: Conn, line: Line): State
    requires conn.worker.Dispatching?
  {
    if !s.engine.alive then Fail(s, c, conn)
    else
      With(s, c, conn.(worker := conn.worker.(sent := true, owes := false)))
        .(engine := s.engine.(stdin := s.engine.stdin + [line]))
  }

  function ClientStep(s: State, e: Event, conn: Conn): State
    requires e.Send? || e.Receive? || e.GiveUp?
  {
    match e
    case Send(c) =>
      if conn.open && conn.waiting.None? then
        With(s, c, conn.(waiting := Some(s.nextSerial), toHost := conn.toHost + [s.nextSerial]))
          .(nextSerial := s.nextSerial + 1)
      else s
    case Receive(c) =>
      if conn.open && conn.waiting.Some? && conn.toClient != [] then
        With(s, c, conn.(waiting := None, toClient := conn.toClient[1..]))
          .(delivered := s.delivered + [(conn.waiting.value, conn.toClient[0])])
      else s
    case GiveUp(c) => With(s, c, conn.(open := false, waiting := None))
  }

  function HostStep(s: State, e: Event, conn: Conn): State
    requires e.Hear? || e.AnswerLocally? || e.Acquire? || e.WriteRequest? || e.ReadOutput? || e.WriteLookup?
             || e.Reply? || e.HangUp?
  {
    match e
    case Hear(c, steps) =>
      if conn.worker.Listening? && conn.toHost != [] && steps >= 1 then
        With(s, c, conn.(worker := Holding(conn.toHost[0], steps), toHost := conn.toHost[1..]))
      else s
    case AnswerLocally(c) =>
      if conn.worker.Holding? then With(s, c, conn.(worker := Answering(conn.worker.serial, Local(conn.worker.serial))))
      else s
    case Acquire(c) =>
      if conn.worker.Holding? && s.mutex.None? then
        With(s, c, conn.(worker := Dispatching(conn.worker.serial, 0, conn.worker.steps, false, false, 0)))
          .(mutex := Some(c))
      else s
    case WriteRequest(c) =>
      if conn.worker.Dispatching? && !conn.worker.sent then
        WriteStep(s, c, conn, RequestLine(Tag(conn.worker.serial, conn.worker.step, conn.worker.steps)))
      else s
    case ReadOutput(c) =>
      if conn.worker.Dispatching? && conn.worker.sent && !conn.worker.owes then ReadStep(s, c, conn) else s
    case WriteLookup(c) =>
      if conn.worker.Dispatching? && conn.worker.sent && conn.worker.owes then WriteStep(s, c, conn, LookupLine) else s
    case Reply(c) =>
      if conn.worker.Answering? then
        (if conn.open then With(s, c, conn.(worker := Listening, toClient := conn.toClient + [conn.worker.answer]))
         else With(s, c, conn.(worker := Gone)))
      else s
    case HangUp(c) =>
      if conn.worker.Listening? && !conn.open && conn.toHost == [] then With(s, c, conn.(worker := Gone)) else s
  }

  function EngineStep(limit: nat, x: Engine, e: Event): Engine
    requires e.EngineTakes? || e.EngineEmits? || e.EngineHears? || e.EngineDies?
  {
    match e
    case EngineTakes(lookups) =>
      if x.alive && x.phase.Waiting? && x.stdin != [] && lookups <= limit then
        x.(stdin := x.stdin[1..], phase := Working(x.stdin[0], lookups))
      else x
    case EngineEmits =>
      if x.alive && x.phase.Working? then
        (if x.phase.lookups > 0 then
           x.(stdout := x.stdout + [ServerLine], phase := Asking(x.phase.origin, x.phase.lookups - 1))
         else x.(stdout := x.stdout + [Response(x.phase.origin)], phase := Waiting))
      else x
    case EngineHears =>
      if x.alive && x.phase.Asking? && x.stdin != [] then
        x.(stdin := x.stdin[1..], phase := Working(x.phase.origin, x.phase.lookups))
      else x
    case EngineDies => x.(alive := false)
  }

  /** One step of one party; `limit` bounds the lookups of one request. A disabled event changes nothing. */
  function Step(limit: nat, s: State, e: Event): State {
    match e
    case Accept => With(s, s.nextConn, Conn(true, None, [], [], Listening)).(nextConn := s.nextConn + 1)
    case Send(c) => if c in s.conns then ClientStep(s, e, s.conns[c]) else s
    case Receive(c) => if c in s.conns then ClientStep(s, e, s.conns[c]) else s
    case GiveUp(c) => if c in s.conns then ClientStep(s, e, s.conns[c]) else s
    case EngineTakes(_) => s.(engine := EngineStep(limit, s.engine, e))
    case EngineEmits => s.(engine := EngineStep(limit, s.engine, e))
    case EngineHears => s.(engine := EngineStep(limit, s.engine, e))
    case EngineDies => s.(engine := EngineStep(limit, s.engine, e))
    case _ => if e.c in s.conns then HostStep(s, e, s.conns[e.c]) else s
  }

  function Run(limit: nat, s: State, events: seq<Event>): State {
    if events == [] then s else Step(limit, Run(limit, s, DropLast(events)), Last(events))
  }

  const START := State(map[], 0, 0, None, Engine([], [], Waiting, true), [])

  // ---------------------------------------------------------------------------
  // The invariant.

  /** The answer to a request: the host's own, or the response to its last dispatch. */
  predicate Answers(a: Answer, serial: nat) {
    match a
    case Local(x) => x == serial
    case FromEngine(origin) =>
      origin.RequestLine? && origin.tag.serial == serial && origin.tag.step + 1 == origin.tag.steps
  }

  predicate WorkerFits(worker: Worker) {
    match worker
    case Holding(_, steps) => steps >= 1
    case Dispatching(_, step, steps, sent, owes, count) => step < steps && (!sent ==> !owes && count == 0)
    case Answering(serial, a) => Answers(a, serial)
    case _ => true
  }

  predicate Idle(worker: Worker) {
    worker.Listening? || worker.Gone?
  }

  /** The worker is busy with this request, or gave it up. */
  predicate On(worker: Worker, serial: nat) {
    match worker
    case Listening => false
    case Gone => true
    case Holding(x, _) => x == serial
    case Dispatching(x, _, _, _, _, _) => x == serial
    case Answering(x, _) => x == serial
  }

  /** An open connection carries at most one request, and it is in exactly one place. */
  predicate ConnFits(conn: Conn) {
    && WorkerFits(conn.worker)
    && (conn.open && conn.waiting.None? ==> conn.toHost == [] && conn.toClient == [] && Idle(conn.worker))
    && (conn.open && conn.waiting.Some? ==>
          || (conn.toHost == [conn.waiting.value] && conn.toClient == [] && Idle(conn.worker))
          || (conn.toHost == [] && conn.toClient == [] && On(conn.worker, conn.waiting.value))
          || (conn.toHost == [] && |conn.toClient| == 1 && Answers(conn.toClient[0], conn.waiting.value)
              && Idle(conn.worker)))
  }

  /** Nothing of an earlier request is left in the engine or its pipes. */
  predicate Quiet(x: Engine) {
    x.stdout == [] && (x.alive ==> x.stdin == [] && x.phase.Waiting?)
  }

  /** Request `line` is in flight: on its way in, being worked on, between lookups, or on its way out. */
  predicate InFlight(x: Engine, line: Line, owes: bool, count: nat) {
    || (!owes && x.stdin == [line] && x.stdout == [] && x.phase.Waiting? && count == 0)
    || (!owes && x.stdin == [] && x.stdout == [] && x.phase.Working? && x.phase.origin == line
        && count + x.phase.lookups <= MAX_LOOKUPS)
    || (!owes && x.stdin == [] && x.stdout == [ServerLine] && x.phase.Asking? && x.phase.origin == line
        && count + 1 + x.phase.lookups <= MAX_LOOKUPS)
    || (owes && x.stdin == [] && x.stdout == [] && x.phase.Asking? && x.phase.origin == line
        && count + x.phase.lookups <= MAX_LOOKUPS)
    || (!owes && x.stdin == [LookupLine] && x.stdout == [] && x.phase.Asking? && x.phase.origin == line
        && count + x.phase.lookups <= MAX_LOOKUPS)
    || (!owes && x.stdin == [] && x.stdout == [Response(line)] && x.phase.Waiting?)
  }

  predicate EngineFits(x: Engine, worker: Worker) {
    if worker.Dispatching? && worker.sent then
      InFlight(x, RequestLine(Tag(worker.serial, worker.step, worker.steps)), worker.owes, worker.count)
    else Quiet(x)
  }

  predicate Guarded(s: State) {
    && (forall c :: c in s.conns && s.conns[c].worker.Dispatching? ==> s.mutex == Some(c))
    && (s.mutex.None? ==> Quiet(s.engine))
    && (s.mutex.Some? ==> s.mutex.value in s.conns && s.conns[s.mutex.value].worker.Dispatching?
                          && EngineFits(s.engine, s.conns[s.mutex.value].worker))
  }

  predicate AllFit(s: State) {
    forall c :: c in s.conns ==> c < s.nextConn && ConnFits(s.conns[c])
  }

  predicate AllPaired(delivered: seq<(nat, Answer)>) {
    forall i :: 0 <= i < |delivered| ==> Answers(delivered[i].1, delivered[i].0)
  }

  predicate Sound(s: State) {
    Guarded(s) && AllFit(s) && AllPaired(s.delivered)
  }

  // ---------------------------------------------------------------------------
  // Every step keeps it.

  lemma ClientKeeps(s: State, e: Event)
    requires Sound(s) && (e.Send? || e.Receive? || e.GiveUp?) && e.c in s.conns
    ensures Sound(ClientStep(s, e, s.conns[e.c]))
  {
    hide EngineFits, Quiet;
    match e
    case Send(c) =>
    case Receive(c) =>
    case GiveUp(c) =>
  }

  /** A step of a worker that neither holds nor takes the mutex. */
  lemma FreeWorkerKeeps(s: State, c: nat, conn: Conn)
    requires Sound(s) && c in s.conns && !s.conns[c].worker.Dispatching?
    requires ConnFits(conn) && !conn.worker.Dispatching?
    ensures Sound(With(s, c, conn))
  {
    hide EngineFits, Quiet, ConnFits;
  }

  /** A step of the worker that holds the mutex. */
  lemma HolderKeeps(s: State, c: nat, conn: Conn, x: Engine)
    requires Sound(s) && s.mutex == Some(c) && ConnFits(conn) && conn.worker.Dispatching? && EngineFits(x, conn.worker)
    ensures Sound(With(s, c, conn).(engine := x))
  {
    hide EngineFits, Quiet, ConnFits;
  }

  /** The holder leaves the mutex behind a quiet engine. */
  lemma ReleaseKeeps(s: State, c: nat, conn: Conn, x: Engine)
    requires Sound(s) && s.mutex == Some(c) && ConnFits(conn) && !conn.worker.Dispatching? && Quiet(x)
    ensures Sound(With(s, c, conn).(engine := x, mutex := None))
  {
    hide EngineFits, Quiet, ConnFits;
  }

  lemma HolderIsDispatching(s: State, c: nat)
    requires Sound(s) && c in s.conns && s.conns[c].worker.Dispatching?
    ensures s.mutex == Some(c) && EngineFits(s.engine, s.conns[c].worker) && ConnFits(s.conns[c])
  {
    hide EngineFits, Quiet, ConnFits;
  }

  lemma GivingUpFits(conn: Conn)
    requires ConnFits(conn) && conn.worker.Dispatching?
    ensures ConnFits(conn.(worker := Gone))
  {
  }

  lemma WriteKeeps(s: State, c: nat, line: Line)
    requires Sound(s) && c in s.conns && s.conns[c].worker.Dispatching?
    requires var d := s.conns[c].worker;
      (!d.sent && line == RequestLine(Tag(d.serial, d.step, d.steps)) && d.count == 0) || (d.sent && d.owes && line == LookupLine)
    ensures Sound(WriteStep(s, c, s.conns[c], line))
  {
    hide Sound, Answers;
    HolderIsDispatching(s, c);
    var conn := s.conns[c];
    GivingUpFits(conn);
    if !s.engine.alive {
      ReleaseKeeps(s, c, conn.(worker := Gone), s.engine);
    } else {
      var d := conn.worker.(sent := true, owes := false);
      assert ConnFits(conn.(worker := d));
      HolderKeeps(s, c, conn.(worker := d), s.engine.(stdin := s.engine.stdin + [line]));
    }
  }

  lemma ReadKeeps(s: State, c: nat)
    requires Sound(s) && c in s.conns && s.conns[c].worker.Dispatching?
    requires s.conns[c].worker.sent && !s.conns[c].worker.owes
    ensures Sound(ReadStep(s, c, s.conns[c]))
  {
    hide Sound;
    HolderIsDispatching(s, c);
    var conn := s.conns[c];
    var d := conn.worker;
    GivingUpFits(conn);
    if s.engine.stdout == [] {
      if !s.engine.alive { ReleaseKeeps(s, c, conn.(worker := Gone), s.engine); }
    } else {
      var x := s.engine.(stdout := s.engine.stdout[1..]);
      match s.engine.stdout[0]
      case ServerLine =>
        HolderKeeps(s, c, conn.(worker := d.(owes := true, count := d.count + 1)), x);
      case Response(origin) =>
        if d.step + 1 < d.steps {
          HolderKeeps(s, c, conn.(worker := Dispatching(d.serial, d.step + 1, d.steps, false, false, 0)), x);
        } else {
          ReleaseKeeps(s, c, conn.(worker := Answering(d.serial, FromEngine(origin))), x);
        }
    }
  }

  lemma EngineKeeps(limit: nat, x: Engine, e: Event, worker: Worker)
    requires limit <= MAX_LOOKUPS && (e.EngineTakes? || e.EngineEmits? || e.EngineHears? || e.EngineDies?)
    ensures EngineFits(x, worker) ==> EngineFits(EngineStep(limit, x, e), worker)
    ensures Quiet(x) ==> Quiet(EngineStep(limit, x, e))
  {
  }

  lemma EngineStepKeeps(limit: nat, s: State, e: Event)
    requires Sound(s) && limit <= MAX_LOOKUPS && (e.EngineTakes? || e.EngineEmits? || e.EngineHears? || e.EngineDies?)
    ensures Sound(s.(engine := EngineStep(limit, s.engine, e)))
  {
    hide EngineFits, Quiet, ConnFits, EngineStep;
    if s.mutex.Some? {
      EngineKeeps(limit, s.engine, e, s.conns[s.mutex.value].worker);
    } else {
      EngineKeeps(limit, s.engine, e, Gone);
    }
  }

  lemma HostKeeps(s: State, e: Event)
    requires Sound(s)
    requires e.Hear? || e.AnswerLocally? || e.Acquire? || e.WriteRequest? || e.ReadOutput? || e.WriteLookup?
             || e.Reply? || e.HangUp?
    requires e.c in s.conns
    ensures Sound(HostStep(s, e, s.conns[e.c]))
  {
    hide EngineFits, Quiet, ReadStep, WriteStep, With;
    var conn := s.conns[e.c];
    match e
    case Hear(c, steps) =>
      if conn.worker.Listening? && conn.toHost != [] && steps >= 1 {
        FreeWorkerKeeps(s, c, conn.(worker := Holding(conn.toHost[0], steps), toHost := conn.toHost[1..]));
      }
    case AnswerLocally(c) =>
      if conn.worker.Holding? {
        FreeWorkerKeeps(s, c, conn.(worker := Answering(conn.worker.serial, Local(conn.worker.serial))));
      }
    case Acquire(c) => if conn.worker.Holding? && s.mutex.None? { AcquireKeeps(s, c); }
    case WriteRequest(c) =>
      if conn.worker.Dispatching? && !conn.worker.sent {
        WriteKeeps(s, c, RequestLine(Tag(conn.worker.serial, conn.worker.step, conn.worker.steps)));
      }
    case ReadOutput(c) =>
      if conn.worker.Dispatching? && conn.worker.sent && !conn.worker.owes { ReadKeeps(s, c); }
    case WriteLookup(c) =>
      if conn.worker.Dispatching? && conn.worker.sent && conn.worker.owes { WriteKeeps(s, c, LookupLine); }
    case Reply(c) =>
      if conn.worker.Answering? {
        if conn.open {
          FreeWorkerKeeps(s, c, conn.(worker := Listening, toClient := conn.toClient + [conn.worker.answer]));
        } else {
          FreeWorkerKeeps(s, c, conn.(worker := Gone));
        }
      }
    case HangUp(c) =>
      if conn.worker.Listening? && !conn.open && conn.toHost == [] { FreeWorkerKeeps(s, c, conn.(worker := Gone)); }
  }

  lemma AcquireKeeps(s: State, c: nat)
    requires Sound(s) && c in s.conns && s.conns[c].worker.Holding? && s.mutex.None?
    ensures var conn := s.conns[c];
      Sound(With(s, c, conn.(worker := Dispatching(conn.worker.serial, 0, conn.worker.steps, false, false, 0)))
              .(mutex := Some(c)))
  {
    hide Quiet, Answers;
  }

  lemma StepKeeps(limit: nat, s: State, e: Event)
    requires Sound(s) && limit <= MAX_LOOKUPS
    ensures Sound(Step(limit, s, e))
  {
    hide ConnFits, EngineFits, Quiet, HostStep, ClientStep, EngineStep;
    match e
    case Accept => AcceptKeeps(s);
    case Send(c) => if c in s.conns { ClientKeeps(s, e); }
    case Receive(c) => if c in s.conns { ClientKeeps(s, e); }
    case GiveUp(c) => if c in s.conns { ClientKeeps(s, e); }
    case EngineTakes(_) => EngineStepKeeps(limit, s, e);
    case EngineEmits => EngineStepKeeps(limit, s, e);
    case EngineHears => EngineStepKeeps(limit, s, e);
    case EngineDies => EngineStepKeeps(limit, s, e);
    case _ => if e.c in s.conns { HostKeeps(s, e); }
  }

  lemma AcceptKeeps(s: State)
    requires Sound(s)
    ensures Sound(Step(0, s, Accept))
  {
    hide EngineFits, Quiet;
    assert ConnFits(Conn(true, None, [], [], Listening));
    assert s.nextConn !in s.conns;
  }

  lemma {:induction false} RunKeeps(limit: nat, events: seq<Event>)
    requires limit <= MAX_LOOKUPS
    ensures Sound(Run(limit, START, events))
  {
    hide Step;
    if events != [] {
      RunKeeps(limit, DropLast(events));
      StepKeeps(limit, Run(limit, START, DropLast(events)), Last(events));
    }
  }

  /**
    On every run, with any number of connections, clients that give up at any moment, engine death and
    at most 64 lookups a request: each reply a client takes is the answer to the very request it waits on.
   */
  lemma RepliesArePaired(limit: nat, events: seq<Event>, i: nat)
    requires limit <= MAX_LOOKUPS && i < |Run(limit, START, events).delivered|
    ensures var (asked, got) := Run(limit, START, events).delivered[i]; Answers(got, asked)
  {
    hide Guarded, AllFit, Answers;
    RunKeeps(limit, events);
  }

  // ---------------------------------------------------------------------------
  // Past the bound: a run that delivers one client's answer to another.

  ghost predicate Reachable(limit: nat, s: State) {
    exists events :: Run(limit, START, events) == s
  }

  lemma Onward(limit: nat, s: State, e: Event)
    requires Reachable(limit, s)
    ensures Reachable(limit, Step(limit, s, e))
  {
    hide Step;
    var events :| Run(limit, START, events) == s;
    assert DropLast(events + [e]) == events && Last(events + [e]) == e;
    assert Run(limit, START, events + [e]) == Step(limit, s, e);
  }

  const FIRST := RequestLine(Tag(0, 0, 1))
  const SECOND := RequestLine(Tag(1, 0, 1))

  /** Two clients wait for their answers; the first worker's dispatch is `worker`, the second holds its request. */
  function TwoWaiting(first: Worker, second: Worker, mutex: Option<nat>, engine: Engine): State {
    State(map[0 := Conn(true, Some(0), [], [], first), 1 := Conn(true, Some(1), [], [], second)],
          2, 2, mutex, engine, [])
  }

  /** The first request is being worked on: `count` lookups answered, `left` to come. */
  function Looking(count: nat, left: nat): State {
    TwoWaiting(Dispatching(0, 0, 1, true, false, count), Holding(1, 1), Some(0), Engine([], [], Working(FIRST, left), true))
  }

  lemma BothAskReachable(limit: nat)
    ensures Reachable(limit, TwoWaiting(Holding(0, 1), Holding(1, 1), None, START.engine))
  {
    hide Reachable;
    StartIsReachable(limit);
    var connected := Conn(true, None, [], [], Listening);
    Onward(limit, START, Accept);
    var s1 := State(map[0 := connected], 1, 0, None, START.engine, []);
    assert Step(limit, START, Accept) == s1;
    Onward(limit, s1, Accept);
    var s2 := State(map[0 := connected, 1 := connected], 2, 0, None, START.engine, []);
    assert Step(limit, s1, Accept) == s2;
    Onward(limit, s2, Send(0));
    var asked := Conn(true, Some(0), [0], [], Listening);
    var s3 := State(map[0 := asked, 1 := connected], 2, 1, None, START.engine, []);
    var empty: seq<nat> := [];
    assert empty + [0] == [0] && empty + [1] == [1];
    assert Step(limit, s2, Send(0)) == s3;
    Onward(limit, s3, Send(1));
    var s4 := State(map[0 := asked, 1 := Conn(true, Some(1), [1], [], Listening)], 2, 2, None, START.engine, []);
    assert Step(limit, s3, Send(1)) == s4;
    BothHeard(limit, s4);
  }

  lemma StartIsReachable(limit: nat)
    ensures Reachable(limit, START)
  {
    assert Run(limit, START, []) == START;
  }

  lemma BothHeard(limit: nat, s: State)
    requires Reachable(limit, s)
    requires s == State(map[0 := Conn(true, Some(0), [0], [], Listening), 1 := Conn(true, Some(1), [1], [], Listening)],
                        2, 2, None, START.engine, [])
    ensures Reachable(limit, TwoWaiting(Holding(0, 1), Holding(1, 1), None, START.engine))
  {
    hide Reachable;
    Onward(limit, s, Hear(0, 1));
    assert [0 as nat][1..] == [] && [1 as nat][1..] == [];
    var s1 := s.(conns := s.conns[0 := Conn(true, Some(0), [], [], Holding(0, 1))]);
    assert Step(limit, s, Hear(0, 1)) == s1;
    Onward(limit, s1, Hear(1, 1));
    assert Step(limit, s1, Hear(1, 1)) == TwoWaiting(Holding(0, 1), Holding(1, 1), None, START.engine);
  }

  lemma LookingIsReachable(limit: nat, lookups: nat)
    requires lookups <= limit
    ensures Reachable(limit, Looking(0, lookups))
  {
    hide Reachable;
    BothAskReachable(limit);
    var s0 := TwoWaiting(Holding(0, 1), Holding(1, 1), None, START.engine);
    Onward(limit, s0, Acquire(0));
    var s1 := TwoWaiting(Dispatching(0, 0, 1, false, false, 0), Holding(1, 1), Some(0), START.engine);
    assert Step(limit, s0, Acquire(0)) == s1;
    Onward(limit, s1, WriteRequest(0));
    var s2 := TwoWaiting(Dispatching(0, 0, 1, true, false, 0), Holding(1, 1), Some(0), Engine([FIRST], [], Waiting, true));
    assert Step(limit, s1, WriteRequest(0)) == s2;
    Onward(limit, s2, EngineTakes(lookups));
    assert Step(limit, s2, EngineTakes(lookups)) == Looking(0, lookups);
  }

  /** Replies do arrive: with any limit a run hands the first client the answer to its request. */
  lemma DeliveryIsReachable(limit: nat)
    ensures exists s :: Reachable(limit, s) && s.delivered == [(0, FromEngine(FIRST))]
  {
    hide Reachable;
    LookingIsReachable(limit, 0);
    var quiet := Engine([], [], Waiting, true);
    var s0 := Looking(0, 0);
    Onward(limit, s0, EngineEmits);
    var s1 := TwoWaiting(Dispatching(0, 0, 1, true, false, 0), Holding(1, 1), Some(0), quiet.(stdout := [Response(FIRST)]));
    assert Step(limit, s0, EngineEmits) == s1;
    Onward(limit, s1, ReadOutput(0));
    var s2 := TwoWaiting(Answering(0, FromEngine(FIRST)), Holding(1, 1), None, quiet);
    assert Step(limit, s1, ReadOutput(0)) == s2;
    Onward(limit, s2, Reply(0));
    var s3 := s2.(conns := s2.conns[0 := Conn(true, Some(0), [], [FromEngine(FIRST)], Listening)]);
    assert [] + [FromEngine(FIRST)] == [FromEngine(FIRST)];
    assert Step(limit, s2, Reply(0)) == s3;
    Onward(limit, s3, Receive(0));
    assert Step(limit, s3, Receive(0)).delivered == [(0, FromEngine(FIRST))];
  }

  /** One lookup asked, read, answered and heard. */
  lemma OneRound(limit: nat, count: nat, left: nat)
    requires Reachable(limit, Looking(count, left)) && count < MAX_LOOKUPS && left > 0
    ensures Reachable(limit, Looking(count + 1, left - 1))
  {
    hide Reachable;
    var s0 := Looking(count, left);
    Onward(limit, s0, EngineEmits);
    var d := Dispatching(0, 0, 1, true, false, count);
    var s1 := TwoWaiting(d, Holding(1, 1), Some(0), Engine([], [ServerLine], Asking(FIRST, left - 1), true));
    assert Step(limit, s0, EngineEmits) == s1;
    Onward(limit, s1, ReadOutput(0));
    var s2 := TwoWaiting(Dispatching(0, 0, 1, true, true, count + 1), Holding(1, 1), Some(0),
                         Engine([], [], Asking(FIRST, left - 1), true));
    assert Step(limit, s1, ReadOutput(0)) == s2;
    Onward(limit, s2, WriteLookup(0));
    var s3 := TwoWaiting(Dispatching(0, 0, 1, true, false, count + 1), Holding(1, 1), Some(0),
                         Engine([LookupLine], [], Asking(FIRST, left - 1), true));
    assert Step(limit, s2, WriteLookup(0)) == s3;
    Onward(limit, s3, EngineHears);
    assert Step(limit, s3, EngineHears) == Looking(count + 1, left - 1);
  }

  lemma {:induction false} ManyRounds(limit: nat, count: nat)
    requires limit > MAX_LOOKUPS && count <= MAX_LOOKUPS
    ensures Reachable(limit, Looking(count, MAX_LOOKUPS + 1 - count))
  {
    hide Reachable;
    if count == 0 {
      LookingIsReachable(limit, MAX_LOOKUPS + 1);
    } else {
      ManyRounds(limit, count - 1);
      OneRound(limit, count - 1, MAX_LOOKUPS + 2 - count);
    }
  }

  /** The 65th lookup is read and abandoned, with the engine still asking. */
  lemma AbandonedIsReachable(limit: nat)
    requires limit > MAX_LOOKUPS
    ensures Reachable(limit, TwoWaiting(Gone, Holding(1, 1), None, Engine([], [], Asking(FIRST, 0), true)))
  {
    hide Reachable;
    ManyRounds(limit, MAX_LOOKUPS);
    var s0 := Looking(MAX_LOOKUPS, 1);
    Onward(limit, s0, EngineEmits);
    var d := Dispatching(0, 0, 1, true, false, MAX_LOOKUPS);
    var s1 := TwoWaiting(d, Holding(1, 1), Some(0), Engine([], [ServerLine], Asking(FIRST, 0), true));
    assert Step(limit, s0, EngineEmits) == s1;
    Onward(limit, s1, ReadOutput(0));
    assert Step(limit, s1, ReadOutput(0))
        == TwoWaiting(Gone, Holding(1, 1), None, Engine([], [], Asking(FIRST, 0), true));
  }

  /** The engine swallows the second request and answers the first. */
  lemma SwallowedIsReachable(limit: nat)
    requires limit > MAX_LOOKUPS
    ensures Reachable(limit, TwoWaiting(Gone, Dispatching(1, 0, 1, true, false, 0), Some(1),
                                        Engine([], [Response(FIRST)], Waiting, true)))
  {
    hide Reachable;
    AbandonedIsReachable(limit);
    var asking := Engine([], [], Asking(FIRST, 0), true);
    var s0 := TwoWaiting(Gone, Holding(1, 1), None, asking);
    Onward(limit, s0, Acquire(1));
    var s1 := TwoWaiting(Gone, Dispatching(1, 0, 1, false, false, 0), Some(1), asking);
    assert Step(limit, s0, Acquire(1)) == s1;
    Onward(limit, s1, WriteRequest(1));
    var d := Dispatching(1, 0, 1, true, false, 0);
    var s2 := TwoWaiting(Gone, d, Some(1), asking.(stdin := [SECOND]));
    assert Step(limit, s1, WriteRequest(1)) == s2;
    Onward(limit, s2, EngineHears);
    var s3 := TwoWaiting(Gone, d, Some(1), Engine([], [], Working(FIRST, 0), true));
    assert Step(limit, s2, EngineHears) == s3;
    Onward(limit, s3, EngineEmits);
    assert Step(limit, s3, EngineEmits) == TwoWaiting(Gone, d, Some(1), Engine([], [Response(FIRST)], Waiting, true));
  }

  /** The second client takes the first one's answer. */
  lemma MisdeliveryIsReachable(limit: nat)
    requires limit > MAX_LOOKUPS
    ensures exists s :: Reachable(limit, s) && s.delivered == [(1, FromEngine(FIRST))]
  {
    hide Reachable;
    SwallowedIsReachable(limit);
    var quiet := Engine([], [], Waiting, true);
    var s0 := TwoWaiting(Gone, Dispatching(1, 0, 1, true, false, 0), Some(1), quiet.(stdout := [Response(FIRST)]));
    Onward(limit, s0, ReadOutput(1));
    var s1 := TwoWaiting(Gone, Answering(1, FromEngine(FIRST)), None, quiet);
    assert Step(limit, s0, ReadOutput(1)) == s1;
    Onward(limit, s1, Reply(1));
    var s2 := s1.(conns := s1.conns[1 := Conn(true, Some(1), [], [FromEngine(FIRST)], Listening)]);
    var empty: seq<Answer> := [];
    assert empty + [FromEngine(FIRST)] == [FromEngine(FIRST)];
    assert Step(limit, s1, Reply(1)) == s2;
    Onward(limit, s2, Receive(1));
    assert Step(limit, s2, Receive(1)).delivered == [(1, FromEngine(FIRST))];
  }

  /** Every reply of every run answers its own request if and only if no request makes more than 64 lookups. */
  lemma RepliesArePairedExactly(limit: nat)
    ensures (forall events :: AllPaired(Run(limit, START, events).delivered)) <==> limit <= MAX_LOOKUPS
  {
    hide Guarded, AllFit, Run, AllPaired;
    if limit <= MAX_LOOKUPS {
      forall events ensures AllPaired(Run(limit, START, events).delivered) { RunKeeps(limit, events); }
    } else {
      MisdeliveryIsReachable(limit);
      var s :| Reachable(limit, s) && s.delivered == [(1, FromEngine(FIRST))];
      var events :| Run(limit, START, events) == s;
      WrongAnswerIsUnpaired();
      assert !AllPaired(Run(limit, START, events).delivered);
    }
  }

  lemma WrongAnswerIsUnpaired()
    ensures !AllPaired([(1, FromEngine(FIRST))])
  {
    assert !Answers(FromEngine(FIRST), 1);
    assert [(1, FromEngine(FIRST))][0] == (1, FromEngine(FIRST));
  }
}
