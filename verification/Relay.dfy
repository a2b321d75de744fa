/**
  The relay host: pipe workers and an idle collector share one engine process under one mutex.
  A state is what the mutex guards, the workers, the activity clock and the collector thread.
 */
module Relay {
  import opened Common
  import Decimal
  import KeyList

  // ---------------------------------------------------------------------------
  // Requests.

  datatype Request =
    | Shutdown
    | Preview
    | Scoped(id: string, close: bool)
    | Reset
    | Convert(encoded: string)
    | Input
    | Plain

  /** The session a request names, or the empty string. */
  function SessionId(line: string): string {
    if !("SESSION " <= line) then ""
    else
      var n := IndexOf(line[8..], ' ');
      IndexOfFinds(line[8..], ' ');
      if n == |line| - 8 then "" else line[8..8 + n]
  }

  const CONVERT := "CONTROL CONVERT-KEYS "

  function Classify(line: string): Request {
    if line == "SHUTDOWN" then Shutdown
    else if "PREVIEW " <= line then Preview
    else if SessionId(line) != "" then Scoped(SessionId(line), line == "SESSION " + SessionId(line) + " CLOSE")
    else if line == "RESET" then Reset
    else if CONVERT <= line then Convert(line[|CONVERT|..])
    else if IsInput(line) then Input
    else Plain
  }

  /** An unscoped line that types into the engine. */
  predicate IsInput(text: string) {
    "KEY " <= text || "CONTROL " <= text
  }

  // ---------------------------------------------------------------------------
  // The engine as the host sees it.

  // One line written to the engine, and the client it was written for; 0 is the host itself.
  datatype Line = Line(client: nat, text: string)

  const MAX_LOOKUPS := 64

  // A 32-bit number of milliseconds.
  type Interval = n: nat | n < 0x1_0000_0000 witness 0

  // Outcomes the host cannot choose: whether the n-th write to the engine succeeds, what the n-th
  // read brings, and what a dictionary lookup answers. The idle interval is configured; the compiler
  // decides whether the collector's check reads the clock or the stamp first.
  datatype World = World(
    accepts: nat -> bool, output: nat -> Option<string>, lookup: string -> string, idle: Interval, clockFirst: bool)

  // The writes and reads so far, the requests the engine received, the lookups answered in between,
  // and the sessions the engine holds.
  datatype Child = Child(written: nat, taken: nat, sent: seq<Line>, lookups: seq<string>, table: set<string>)

  predicate ValidId(id: string) {
    0 < |id| <= 96 && forall i :: 0 <= i < |id| ==> IsIdChar(id[i])
  }

  predicate IsIdChar(c: char) {
    'a' <= c <= 'z' || 'A' <= c <= 'Z' || '0' <= c <= '9' || c == '-' || c == '_' || c == '.' || c == ':'
  }

  /** The session id and the inner line the engine routes to; unscoped lines run in session "legacy". */
  function Route(line: string): Option<(string, string)> {
    if |line| > 8 && "SESSION " <= line then
      var n := IndexOf(line[8..], ' ');
      IndexOfFinds(line[8..], ' ');
      if n == |line| - 8 then None
      else if !ValidId(line[8..8 + n]) || line[8 + n + 1..] == "" then None
      else Some((line[8..8 + n], line[8 + n + 1..]))
    else Some(("legacy", line))
  }

  /** Which sessions the engine's table holds after a line. */
  function TableAfter(table: set<string>, line: string): set<string> {
    if line == "DIAG SESSION-COUNT" || (|line| > 4 && "KEY " <= line) then table
    else
      match Route(line)
      case None => table
      case Some((id, inner)) => if inner == "CLOSE" then table - {id} else table + {id}
  }

  function Receive(child: Child, client: nat, text: string): Child {
    child.(sent := child.sent + [Line(client, text)], table := TableAfter(child.table, text))
  }

  /** Reads until the response, answering the dictionary lookups that come before it. */
  function Await(w: World, child: Child, exchanges: nat): (Child, Option<string>)
    requires exchanges <= MAX_LOOKUPS
    decreases MAX_LOOKUPS - exchanges
  {
    var read := child.(taken := child.taken + 1);
    match w.output(child.taken)
    case None => (read, None)
    case Some(line) =>
      if !("SERVER " <= line) then (read, Some(line))
      else if exchanges + 1 > MAX_LOOKUPS then (read, None)
      else
        var wrote := read.(written := read.written + 1);
        if !w.accepts(read.written) then (wrote, None)
        else Await(w, wrote.(lookups := read.lookups + [w.lookup(line[7..])]), exchanges + 1)
  }

  /** A dispatch may never reach the engine, or reach it without coming back. */
  function Dispatch(w: World, child: Child, client: nat, text: string): (Child, Option<string>) {
    var wrote := child.(written := child.written + 1);
    if !w.accepts(child.written) then (wrote, None) else Await(w, Receive(wrote, client, text), 0)
  }

  function FeedKeys(w: World, child: Child, client: nat, keys: seq<nat>, last: string): (Child, Option<string>)
    decreases |keys|
  {
    if keys == [] then (child, Some(last))
    else
      var (next, reply) := Dispatch(w, child, client, "KEY " + Decimal.Digits(keys[0]));
      if reply.None? then (next, None) else FeedKeys(w, next, client, keys[1..], reply.value)
  }

  /** A whole-preedit conversion: reset, replay the keys, convert unless a conversion already started. */
  function ConvertKeys(w: World, child: Child, client: nat, encoded: string): (Child, Option<string>) {
    if encoded == "" || |encoded| > KeyList.MAX_BYTES then (child, None)
    else
      var (cleared, reset) := Dispatch(w, child, client, "RESET");
      if reset.None? then (cleared, None)
      else
        var (keys, ok) := KeyList.HostKeys(encoded);
        var (fed, last) := FeedKeys(w, cleared, client, keys, reset.value);
        if last.None? || !ok then (fed, None)
        else if "STATE candidate " <= last.value || "STATE registration " <= last.value then (fed, last)
        else Dispatch(w, fed, client, "CONTROL CONVERT")
  }

  // ---------------------------------------------------------------------------
  // What the mutex guards.

  // Whose state a STATE line describes: a scoped session, or an unscoped client.
  datatype Owner = Session(id: string) | Legacy(client: nat)

  const LEGACY := "legacy:"

  /** The name a state owner has in the composing set. */
  function KeyOf(o: Owner): string {
    match o
    case Session(id) => id
    case Legacy(client) => LEGACY + Decimal.Digits(client)
  }

  datatype Shared = Shared(
    owners: map<string, nat>, composing: set<string>, sessionComposing: bool, active: nat,
    child: Child, published: seq<string>,
    // history: whether each owner's last published STATE was mid-composition, and every session ever named
    // and every unscoped client whose entry was ever written
    modes: map<Owner, bool>, named: set<string>, touched: set<nat>)

  const IGNORED_RESET := "STATE hiragana 0 -1 - - -1 -"

  function ModeOf(response: string): string
    requires |response| >= 6
  {
    IndexOfFinds(response[6..], ' ');
    response[6..6 + IndexOf(response[6..], ' ')]
  }

  predicate IsComposingMode(mode: string) {
    mode == "preedit" || mode == "candidate" || mode == "registration"
  }

  /** A reply to the request of state owner `o` is published if it is a STATE line. */
  function Track(sh: Shared, o: Owner, response: string): Shared {
    if !("STATE " <= response) then sh
    else
      var mid := IsComposingMode(ModeOf(response));
      var composing := if mid then sh.composing + {KeyOf(o)} else sh.composing - {KeyOf(o)};
      sh.(composing := composing, sessionComposing := composing != {},
          published := sh.published + [response], modes := sh.modes[o := mid],
          touched := if o.Legacy? then sh.touched + {o.client} else sh.touched)
  }

  function Claim(sh: Shared, client: nat, id: string): Shared {
    sh.(owners := sh.owners[id := client], named := sh.named + {id})
  }

  /** The host forgets a session: its owner, and whatever it was composing. */
  function Forget(sh: Shared, id: string): Shared {
    var composing := sh.composing - {id};
    sh.(owners := sh.owners - {id}, composing := composing, sessionComposing := composing != {},
        modes := sh.modes - {Session(id)})
  }

  function Send(w: World, sh: Shared, client: nat, text: string): (Shared, Option<string>) {
    var (child, reply) := Dispatch(w, sh.child, client, text);
    (sh.(child := child), reply)
  }

  /** A scoped request: claim the session, relay, track the reply, release on CLOSE. */
  function ServeScoped(w: World, sh: Shared, client: nat, line: string, id: string, close: bool)
    : (Shared, Option<string>)
  {
    var (sent, reply) := Send(w, Claim(sh, client, id), client, line);
    if reply.None? then (sent, None)
    else
      var tracked := Track(sent, Session(id), reply.value);
      (if close then Forget(tracked, id) else tracked, reply)
  }

  /** A late RESET of a client that does not own the input, or one that would cut a composition short. */
  predicate IgnoresReset(sh: Shared, client: nat) {
    sh.active != 0 && (sh.active != client || sh.sessionComposing)
  }

  /** An unscoped request that types: reset the engine first when another client typed last. */
  function TakeInput(w: World, sh: Shared, client: nat): (Shared, bool) {
    if sh.active == client then (sh, true)
    else
      var (sent, reply) := Send(w, sh, client, "RESET");
      if reply.None? then (sent, false) else (sent.(active := client), true)
  }

  function ServeUnscoped(w: World, sh: Shared, client: nat, line: string, r: Request): (Shared, Option<string>) {
    if r.Reset? && IgnoresReset(sh, client) then (sh, Some(IGNORED_RESET))
    else
      var (taken, ok) := if r.Input? || r.Convert? then TakeInput(w, sh, client)
                         else (if r.Reset? then sh.(active := client) else sh, true);
      if !ok then (taken, None)
      else
        var (child, reply) := if r.Convert? then ConvertKeys(w, taken.child, client, r.encoded)
                              else Dispatch(w, taken.child, client, line);
        var sent := taken.(child := child);
        if reply.None? then (sent, None) else (Track(sent, Legacy(client), reply.value), reply)
  }

  /** One request under the mutex, and its response; no response ends the connection. */
  function ServeLocked(w: World, sh: Shared, client: nat, line: string): (Shared, Option<string>) {
    match Classify(line)
    case Scoped(id, close) => ServeScoped(w, sh, client, line, id, close)
    case r => ServeUnscoped(w, sh, client, line, r)
  }

  /** The end of a worker: close and forget one of the sessions it used, if it still owns it. */
  function CloseOwned(w: World, sh: Shared, client: nat, id: string): Shared {
    if id !in sh.owners || sh.owners[id] != client then sh
    else Forget(Send(w, sh, client, "SESSION " + id + " CLOSE").0, id)
  }

  function CloseAll(w: World, sh: Shared, client: nat, order: seq<string>): Shared {
    if order == [] then sh else CloseOwned(w, CloseAll(w, sh, client, DropLast(order)), client, Last(order))
  }

  /** The unscoped part of a leaving worker. */
  function Depart(sh: Shared, client: nat): Shared {
    var composing := sh.composing - {KeyOf(Legacy(client))};
    sh.(active := if sh.active == client then 0 else sh.active,
        composing := composing, sessionComposing := composing != {}, modes := sh.modes - {Legacy(client)},
        touched := sh.touched + {client})
  }

  function CleanUp(w: World, sh: Shared, client: nat, order: seq<string>): Shared {
    CloseAll(w, Depart(sh, client), client, order)
  }

  function Collect(w: World, sh: Shared): Shared {
    Send(w, Send(w, sh, 0, "GC").0, 0, "COMPACT").0
  }

  // ---------------------------------------------------------------------------
  // The whole host.

  // Where a worker is between reading a request and serving it.
  datatype Stage =
    | Reading
    | Stamped(tick: nat)    // took the time, has not stored it
    | Stored                // stored the time
    | Flagged               // marked a collection as due
    | Ready                 // marked the engine as used; next it serves
    | Leaving               // out of its loop, not yet cleaned up

  datatype Worker = Worker(sessions: set<string>, stage: Stage, request: string)

  datatype Clock = Clock(now: nat, lastActivity: nat, gcPending: bool, engineActive: bool)

  // The collector thread: loads outside the mutex, then inside it the clock and the stamp, one after
  // the other, and two further checks.
  datatype Phase =
    | Asleep | SawUse | SawStamp(last: nat) | SawIdle | SawDue
    | AtMutex | Locked | HasClock(now: nat) | HasStamp(last: nat) | FoundIdle | FoundCalm

  const TICKS := 0x1_0000_0000_0000_0000

  /** Unsigned 64-bit subtraction of tick counts. */
  function Elapsed(now: nat, last: nat): nat {
    (now - last) % TICKS
  }

  // What the idle-collection theorems speak about, in order.
  datatype Mark =
    | StoredStamp(tick: nat)
    | NotedDue
    | BeganCheck                          // the first of the two reads of the check
    | CheckedIdle(now: nat, stamp: nat)   // the check passed on this clock and this stamp
    | Collected

  datatype State = State(
    shared: Shared, workers: map<nat, Worker>, next: nat, clock: Clock, collector: Phase, log: seq<Mark>)

  datatype Event =
    | Tick(elapsed: nat)
    | Connect
    | Read(client: nat, line: string)
    | Note(client: nat)
    | Serve(client: nat, delivered: bool)
    | Hangup(client: nat)
    | Cleanup(client: nat, order: seq<string>)
    | Collector

  predicate MutexFree(s: State) {
    s.collector != Locked && !s.collector.HasClock? && !s.collector.HasStamp?
    && s.collector != FoundIdle && s.collector != FoundCalm
  }

  function WithWorker(s: State, client: nat, worker: Worker): State {
    s.(workers := s.workers[client := worker])
  }

  /** One of the three stores of NoteActivity, after the clock was read. */
  function NoteStep(s: State, client: nat): State
    requires client in s.workers
  {
    var worker := s.workers[client];
    match worker.stage
    case Stamped(tick) =>
      WithWorker(s, client, worker.(stage := Stored)).(
        clock := s.clock.(lastActivity := tick), log := s.log + [StoredStamp(tick)])
    case Stored =>
      WithWorker(s, client, worker.(stage := Flagged)).(
        clock := s.clock.(gcPending := true), log := s.log + [NotedDue])
    case Flagged =>
      WithWorker(s, client, worker.(stage := Ready)).(clock := s.clock.(engineActive := true))
    case _ => s
  }

  function ServeStep(w: World, s: State, client: nat, delivered: bool): State
    requires client in s.workers
  {
    var worker := s.workers[client];
    var r := Classify(worker.request);
    if r.Shutdown? then WithWorker(s, client, worker.(stage := Leaving))
    else if r.Preview? then WithWorker(s, client, worker.(stage := if delivered then Reading else Leaving))
    else
      var (shared, reply) := ServeLocked(w, s.shared, client, worker.request);
      var sessions := if r.Scoped? then worker.sessions + {r.id} else worker.sessions;
      var stage := if reply.Some? && delivered then Reading else Leaving;
      WithWorker(s, client, Worker(sessions, stage, "")).(shared := shared)
  }

  function FinishCheck(w: World, s: State, now: nat, stamp: nat): State {
    if Elapsed(now, stamp) < w.idle then s.(collector := Asleep)
    else s.(collector := FoundIdle, log := s.log + [CheckedIdle(now, stamp)])
  }

  function CollectorStep(w: World, s: State): State {
    match s.collector
    case Asleep => if s.clock.engineActive then s.(collector := SawUse) else s
    case SawUse => s.(collector := SawStamp(s.clock.lastActivity))
    case SawStamp(last) => s.(collector := if Elapsed(s.clock.now, last) < w.idle then Asleep else SawIdle)
    case SawIdle => s.(collector := if s.clock.gcPending then SawDue else Asleep)
    case SawDue => s.(collector := if s.shared.sessionComposing then Asleep else AtMutex)
    case AtMutex => s.(collector := Locked)
    case Locked =>
      s.(collector := if w.clockFirst then HasClock(s.clock.now) else HasStamp(s.clock.lastActivity),
         log := s.log + [BeganCheck])
    case HasClock(now) => FinishCheck(w, s, now, s.clock.lastActivity)
    case HasStamp(last) => FinishCheck(w, s, s.clock.now, last)
    case FoundIdle => s.(collector := if s.shared.sessionComposing then Asleep else FoundCalm)
    case FoundCalm =>
      if !s.clock.gcPending then s.(collector := Asleep)
      else s.(collector := Asleep, clock := s.clock.(gcPending := false),
              shared := Collect(w, s.shared), log := s.log + [Collected])
  }

  /** `order` runs through exactly the sessions the worker used. */
  predicate Lists(order: seq<string>, sessions: set<string>) {
    (set id | id in order) == sessions
  }

  /** One step of one thread; an event that cannot happen changes nothing. */
  function Step(w: World, s: State, e: Event): State {
    match e
    case Tick(elapsed) =>
      if s.clock.now + elapsed < TICKS then s.(clock := s.clock.(now := s.clock.now + elapsed)) else s
    case Connect => WithWorker(s, s.next, Worker({}, Reading, "")).(next := s.next + 1)
    case Read(client, line) =>
      if client in s.workers && s.workers[client].stage == Reading then
        WithWorker(s, client, s.workers[client].(stage := Stamped(s.clock.now), request := line))
      else s
    case Note(client) => if client in s.workers then NoteStep(s, client) else s
    case Serve(client, delivered) =>
      if client in s.workers && s.workers[client].stage == Ready && MutexFree(s) then ServeStep(w, s, client, delivered)
      else s
    case Hangup(client) =>
      if client in s.workers && s.workers[client].stage == Reading then
        WithWorker(s, client, s.workers[client].(stage := Leaving))
      else s
    case Cleanup(client, order) =>
      if client in s.workers && s.workers[client].stage == Leaving && MutexFree(s)
         && Lists(order, s.workers[client].sessions) then
        s.(workers := s.workers - {client}, shared := CleanUp(w, s.shared, client, order))
      else s
    case Collector => CollectorStep(w, s)
  }

  function Run(w: World, s: State, events: seq<Event>): State {
    if events == [] then s else Step(w, Run(w, s, DropLast(events)), Last(events))
  }

  const START := State(
    Shared(map[], {}, false, 0, Child(0, 0, [], [], {}), [], map[], {}, {}),
    map[], 1, Clock(0, 0, false, false), Asleep, [])
}
