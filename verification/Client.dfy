/** The pipe client: one exchange at a time, and a RESET before anything else once a reply was lost. */
module Client {
  import opened Common

  // What becomes of one write-and-read: it cannot be started, its reply is lost, or it is answered.
  datatype Io = NotStarted | ReplyLost | Replied(line: string)

  datatype World = World(connects: nat -> bool, exchange: nat -> Io)

  // The client's traffic, in order.
  datatype Mark =
    | Sent(line: string)
    | Answered(line: string, reply: string)
    | LostReply

  datatype State = State(
    sessionId: string, pipe: bool, needsResync: bool, lastResponse: string,
    attempts: nat, exchanges: nat, log: seq<Mark>)

  predicate IsNewline(c: char) {
    c == '\n' || c == '\r'
  }

  /** Trailing newlines removed. */
  function Trimmed(line: string): string {
    if line != "" && IsNewline(Last(line)) then Trimmed(DropLast(line)) else line
  }

  function SessionRequest(sessionId: string, request: string): string {
    "SESSION " + sessionId + " " + Trimmed(request) + "\n"
  }

  function ResetRequest(sessionId: string): string {
    SessionRequest(sessionId, "RESET")
  }

  function Connect(w: World, s: State): (State, bool) {
    if s.pipe then (s, true)
    else (s.(pipe := w.connects(s.attempts), attempts := s.attempts + 1), w.connects(s.attempts))
  }

  function RawTransact(w: World, s: State, line: string): (State, Option<string>) {
    if !s.pipe then (s, None)
    else
      var t := s.(exchanges := s.exchanges + 1);
      match w.exchange(s.exchanges)
      case NotStarted => (t, None)
      case ReplyLost => (t.(pipe := false, needsResync := true, log := s.log + [Sent(line), LostReply]), None)
      case Replied(reply) => (t.(log := s.log + [Sent(line), Answered(line, reply)]), Some(reply))
  }

  /** The RESET a lost reply left owing, if one is. */
  function Resync(w: World, s: State): (State, bool) {
    if !s.needsResync then (s, true)
    else
      var (t, reply) := RawTransact(w, s, ResetRequest(s.sessionId));
      if reply.None? then (t, false) else (t.(needsResync := false), true)
  }

  function Transact(w: World, s: State, request: string): (State, Option<string>) {
    var (connected, ok) := Connect(w, s.(lastResponse := ""));
    if !ok then (connected, None)
    else
      var (synced, clean) := Resync(w, connected);
      if !clean then (synced, None)
      else
        var (t, reply) := RawTransact(w, synced, SessionRequest(s.sessionId, request));
        (if reply.Some? then t.(lastResponse := reply.value) else t, reply)
  }

  function Reset(w: World, s: State): (State, Option<string>) {
    var (t, reply) := Transact(w, s, "RESET\n");
    (if reply.None? then t.(needsResync := true) else t, reply)
  }

  /** A dictionary preview is not a session request and goes out as it is. */
  function Preview(w: World, s: State, line: string): (State, Option<string>) {
    var (t, ok) := Connect(w, s);
    if ok then RawTransact(w, t, line) else (t, None)
  }

  // ---------------------------------------------------------------------------
  // Runs.

  datatype Call =
    | DoTransact(request: string)
    | DoReset
    | DoPreview(word: string)
    | DoDisconnect
    | DoMarkNeedsResync

  function PreviewRequest(word: string): string {
    "PREVIEW " + word
  }

  function Apply(w: World, s: State, call: Call): State {
    match call
    case DoTransact(request) => Transact(w, s, request).0
    case DoReset => Reset(w, s).0
    case DoPreview(word) => Preview(w, s, PreviewRequest(word)).0
    case DoDisconnect => s.(pipe := false)
    case DoMarkNeedsResync => s.(needsResync := true)
  }

  function Run(w: World, s: State, calls: seq<Call>): State {
    if calls == [] then s else Apply(w, Run(w, s, DropLast(calls)), Last(calls))
  }

  function Start(sessionId: string): State {
    State(sessionId, false, false, "", 0, 0, [])
  }

  /** A reply was lost and no RESET has been answered since. */
  predicate Dirty(sessionId: string, log: seq<Mark>) {
    log != [] &&
    match Last(log)
    case LostReply => true
    case Answered(line, _) => line != ResetRequest(sessionId) && Dirty(sessionId, DropLast(log))
    case Sent(_) => Dirty(sessionId, DropLast(log))
  }

  predicate MaySend(sessionId: string, log: seq<Mark>, line: string) {
    Dirty(sessionId, log) ==> line == ResetRequest(sessionId) || "PREVIEW " <= line
  }

  /** While a reply is unaccounted for, only a RESET or a preview goes out. */
  predicate Disciplined(sessionId: string, log: seq<Mark>) {
    log == [] ||
    (Disciplined(sessionId, DropLast(log))
     && (Last(log).Sent? ==> MaySend(sessionId, DropLast(log), Last(log).line)))
  }

  predicate Clean(s: State) {
    Disciplined(s.sessionId, s.log) && (Dirty(s.sessionId, s.log) ==> s.needsResync)
  }

  lemma ExchangeLog(sessionId: string, log: seq<Mark>, line: string, end: Mark)
    requires Disciplined(sessionId, log) && MaySend(sessionId, log, line) && !end.Sent?
    ensures var after := log + [Sent(line), end];
      && Disciplined(sessionId, after)
      && (end.Answered? && end.line == ResetRequest(sessionId) ==> !Dirty(sessionId, after))
      && (end.Answered? ==> Dirty(sessionId, after) ==> Dirty(sessionId, log))
  {
    hide ResetRequest, MaySend;
    var sent := log + [Sent(line)];
    assert DropLast(sent) == log && Last(sent) == Sent(line);
    assert Dirty(sessionId, sent) == Dirty(sessionId, log);
    var after := log + [Sent(line), end];
    assert DropLast(after) == sent && Last(after) == end;
  }

  lemma RawTransactIsClean(w: World, s: State, line: string)
    requires Clean(s) && MaySend(s.sessionId, s.log, line)
    ensures var (t, reply) := RawTransact(w, s, line);
      && Clean(t) && t.sessionId == s.sessionId
      && (reply.Some? ==> t.needsResync == s.needsResync && t.pipe == s.pipe)
      && (reply.Some? && line == ResetRequest(s.sessionId) ==> !Dirty(t.sessionId, t.log))
  {
    hide ResetRequest, MaySend, Dirty, Disciplined;
    match w.exchange(s.exchanges)
    case NotStarted =>
    case ReplyLost => ExchangeLog(s.sessionId, s.log, line, LostReply);
    case Replied(reply) => ExchangeLog(s.sessionId, s.log, line, Answered(line, reply));
  }

  lemma ResyncIsClean(w: World, s: State)
    requires Clean(s)
    ensures var (t, clean) := Resync(w, s);
      Clean(t) && t.sessionId == s.sessionId && (clean ==> !Dirty(t.sessionId, t.log))
  {
    hide RawTransact;
    var line := ResetRequest(s.sessionId);
    RawTransactIsClean(w, s, line);
    var (t, reply) := RawTransact(w, s, line);
    assert reply.Some? ==> Clean(t.(needsResync := false));
  }

  lemma TransactIsClean(w: World, s: State, request: string)
    requires Clean(s)
    ensures Clean(Transact(w, s, request).0) && Transact(w, s, request).0.sessionId == s.sessionId
  {
    hide RawTransact, SessionRequest, ResetRequest, Dirty, Disciplined;
    var (connected, ok) := Connect(w, s.(lastResponse := ""));
    if ok {
      ResyncIsClean(w, connected);
      var (synced, clean) := Resync(w, connected);
      if clean { RawTransactIsClean(w, synced, SessionRequest(s.sessionId, request)); }
    }
  }

  lemma CallIsClean(w: World, s: State, call: Call)
    requires Clean(s)
    ensures Clean(Apply(w, s, call)) && Apply(w, s, call).sessionId == s.sessionId
  {
    hide RawTransact, Transact, Dirty, Disciplined, ResetRequest;
    match call
    case DoTransact(request) => TransactIsClean(w, s, request);
    case DoReset => TransactIsClean(w, s, "RESET\n");
    case DoPreview(word) => RawTransactIsClean(w, Connect(w, s).0, PreviewRequest(word));
    case DoDisconnect =>
    case DoMarkNeedsResync =>
  }

  lemma {:induction false} RunIsClean(w: World, sessionId: string, calls: seq<Call>)
    ensures Clean(Run(w, Start(sessionId), calls)) && Run(w, Start(sessionId), calls).sessionId == sessionId
  {
    hide Apply;
    if calls != [] {
      RunIsClean(w, sessionId, DropLast(calls));
      CallIsClean(w, Run(w, Start(sessionId), DropLast(calls)), Last(calls));
    }
  }

  lemma {:induction false} CleanedByReset(sessionId: string, log: seq<Mark>, i: nat)
    requires !Dirty(sessionId, log) && i < |log| && log[i] == LostReply
    ensures exists k :: i < k < |log| && log[k].Answered? && log[k].line == ResetRequest(sessionId)
    decreases |log|
  {
    hide ResetRequest;
    var n := |log| - 1;
    if !(log[n].Answered? && log[n].line == ResetRequest(sessionId)) {
      CleanedByReset(sessionId, DropLast(log), i);
      var k :| i < k < n && DropLast(log)[k].Answered? && DropLast(log)[k].line == ResetRequest(sessionId);
      assert log[k] == DropLast(log)[k];
    } else {
      assert i < n;
    }
  }

  lemma {:induction false} DisciplinedPrefix(sessionId: string, log: seq<Mark>, j: nat)
    requires Disciplined(sessionId, log) && j < |log| && log[j].Sent?
    ensures MaySend(sessionId, log[..j], log[j].line)
    decreases |log|
  {
    hide MaySend;
    if j == |log| - 1 {
      assert log[..j] == DropLast(log);
    } else {
      DisciplinedPrefix(sessionId, DropLast(log), j);
      assert DropLast(log)[..j] == log[..j];
    }
  }

  /**
    After a lost reply, on every run and whatever the calls in between, no session request other than
    RESET goes out until a RESET was answered. Previews are the one exception.
   */
  lemma ResetComesFirst(w: World, sessionId: string, calls: seq<Call>, i: nat, j: nat)
    requires var log := Run(w, Start(sessionId), calls).log;
      i < j < |log| && log[i] == LostReply && log[j].Sent?
    requires var line := Run(w, Start(sessionId), calls).log[j].line;
      line != ResetRequest(sessionId) && !("PREVIEW " <= line)
    ensures var log := Run(w, Start(sessionId), calls).log;
      exists k :: i < k < j && log[k].Answered? && log[k].line == ResetRequest(sessionId)
  {
    hide Apply, ResetRequest;
    RunIsClean(w, sessionId, calls);
    var log := Run(w, Start(sessionId), calls).log;
    DisciplinedPrefix(sessionId, log, j);
    CleanedByReset(sessionId, log[..j], i);
    var k :| i < k < j && log[..j][k].Answered? && log[..j][k].line == ResetRequest(sessionId);
    assert log[k] == log[..j][k];
  }

  /** A session request is never a preview in disguise, and a request for RESET is the RESET. */
  lemma SessionRequestsAreScoped(sessionId: string, request: string)
    ensures !("PREVIEW " <= SessionRequest(sessionId, request))
    ensures SessionRequest(sessionId, "RESET\n") == ResetRequest(sessionId)
  {
    assert SessionRequest(sessionId, request)[0] == 'S' && "PREVIEW "[0] == 'P';
    assert DropLast("RESET\n") == "RESET" && Last("RESET\n") == '\n' && Last("RESET") == 'T';
  }

  // ---------------------------------------------------------------------------
  // Everything a client sends, and what it gets back.

  /** What a request line carries of a request: all of it but the newlines at its end. */
  predicate IsBody(body: string, request: string) {
    && body <= request
    && (body != "" ==> !IsNewline(Last(body)))
    && (forall i :: |body| <= i < |request| ==> IsNewline(request[i]))
  }

  lemma {:induction false} TrimmedIsBody(request: string)
    ensures IsBody(Trimmed(request), request)
  {
    if request != "" && IsNewline(Last(request)) {
      TrimmedIsBody(DropLast(request));
      assert forall i :: 0 <= i < |request| - 1 ==> DropLast(request)[i] == request[i];
    }
  }

  /** The session's name, then the request without its trailing newlines, then one newline. */
  lemma RequestLineMeans(sessionId: string, request: string) returns (body: string)
    ensures IsBody(body, request)
    ensures SessionRequest(sessionId, request) == "SESSION " + sessionId + " " + body + "\n"
  {
    body := Trimmed(request);
    TrimmedIsBody(request);
  }

  predicate Connects(w: World, s: State) {
    s.pipe || w.connects(s.attempts)
  }

  /** The exchange a request's own line takes, unless there is no pipe or a RESET stays owed. */
  function Turn(w: World, s: State): Option<nat> {
    if !Connects(w, s) then None
    else if !s.needsResync then Some(s.exchanges)
    else if w.exchange(s.exchanges).Replied? then Some(s.exchanges + 1)
    else None
  }

  /** What one exchange leaves in the log. */
  function Traffic(io: Io, line: string): seq<Mark> {
    match io
    case NotStarted => []
    case ReplyLost => [Sent(line), LostReply]
    case Replied(reply) => [Sent(line), Answered(line, reply)]
  }

  function OwedTraffic(w: World, s: State): seq<Mark> {
    if Connects(w, s) && s.needsResync then Traffic(w.exchange(s.exchanges), ResetRequest(s.sessionId)) else []
  }

  function OwnTraffic(w: World, s: State, line: string): seq<Mark> {
    if Turn(w, s).Some? then Traffic(w.exchange(Turn(w, s).value), line) else []
  }

  /**
    A request sends an owed RESET, then its own line in its own exchange, and nothing else. It returns
    the answer to that line, and remembers it.
   */
  lemma RequestIsSent(w: World, s: State, request: string)
    ensures var (t, reply) := Transact(w, s, request); var line := SessionRequest(s.sessionId, request);
      && t.log == s.log + OwedTraffic(w, s) + OwnTraffic(w, s, line)
      && (reply.Some? <==> Turn(w, s).Some? && w.exchange(Turn(w, s).value).Replied?)
      && (reply.Some? ==>
            && w.exchange(Turn(w, s).value) == Replied(reply.value)
            && OwnTraffic(w, s, line) == [Sent(line), Answered(line, reply.value)])
      && t.lastResponse == (if reply.Some? then reply.value else "")
      && t.sessionId == s.sessionId
  {
    hide SessionRequest, ResetRequest;
    var connected := Connect(w, s.(lastResponse := "")).0;
    assert s.log + [] == s.log;
    assert Resync(w, connected).0.log == s.log + OwedTraffic(w, s) + [] || !Connects(w, s);
  }

  /** A preview sends its line as it is, without settling what is owed, and returns the answer to it. */
  lemma PreviewIsSent(w: World, s: State, line: string)
    ensures var (t, reply) := Preview(w, s, line); var io := w.exchange(s.exchanges);
      && t.log == s.log + (if Connects(w, s) then Traffic(io, line) else [])
      && reply == (if Connects(w, s) && io.Replied? then Some(io.line) else None)
      && (t.needsResync <==> s.needsResync || (Connects(w, s) && io.ReplyLost?))
  {
    assert s.log + [] == s.log;
  }

  // A line that went out: a RESET that was owed, a request of a caller, or a preview.
  datatype Outgoing = Owed(line: string) | Asked(line: string) | Previewed(line: string)

  function SentLines(log: seq<Mark>): seq<string> {
    if log == [] then []
    else SentLines(DropLast(log)) + if Last(log).Sent? then [Last(log).line] else []
  }

  function Lines(out: seq<Outgoing>): seq<string> {
    seq(|out|, i requires 0 <= i < |out| => out[i].line)
  }

  function AskedLines(out: seq<Outgoing>): seq<string> {
    if out == [] then []
    else AskedLines(DropLast(out)) + if Last(out).Asked? then [Last(out).line] else []
  }

  /** The request's own exchange gets started. */
  predicate Starts(w: World, s: State) {
    Turn(w, s).Some? && !w.exchange(Turn(w, s).value).NotStarted?
  }

  /** The requests of a run whose exchange was started, as lines, in the order of the calls. */
  function Requested(w: World, s: State, calls: seq<Call>): seq<string> {
    if calls == [] then []
    else
      var t := Run(w, s, DropLast(calls));
      Requested(w, s, DropLast(calls)) +
      match Last(calls)
      case DoTransact(request) => if Starts(w, t) then [SessionRequest(s.sessionId, request)] else []
      case DoReset => if Starts(w, t) then [ResetRequest(s.sessionId)] else []
      case _ => []
  }

  /** Owed lines are RESETs and previews are previews. */
  predicate Labelled(sessionId: string, out: seq<Outgoing>) {
    forall i :: 0 <= i < |out| ==>
      match out[i]
      case Owed(line) => line == ResetRequest(sessionId)
      case Previewed(line) => "PREVIEW " <= line
      case Asked(_) => true
  }

  lemma {:induction false} SentLinesAppend(log: seq<Mark>, more: seq<Mark>)
    ensures SentLines(log + more) == SentLines(log) + SentLines(more)
    decreases |more|
  {
    if more == [] {
      assert log + more == log;
    } else {
      SentLinesAppend(log, DropLast(more));
      assert DropLast(log + more) == log + DropLast(more) && Last(log + more) == Last(more);
      var last := if Last(more).Sent? then [Last(more).line] else [];
      assert SentLines(log + more) == SentLines(log + DropLast(more)) + last;
      assert SentLines(more) == SentLines(DropLast(more)) + last;
    }
  }

  lemma {:induction false} AskedLinesAppend(out: seq<Outgoing>, more: seq<Outgoing>)
    ensures AskedLines(out + more) == AskedLines(out) + AskedLines(more)
    decreases |more|
  {
    if more == [] {
      assert out + more == out;
    } else {
      AskedLinesAppend(out, DropLast(more));
      assert DropLast(out + more) == out + DropLast(more) && Last(out + more) == Last(more);
      var last := if Last(more).Asked? then [Last(more).line] else [];
      assert AskedLines(out + more) == AskedLines(out + DropLast(more)) + last;
      assert AskedLines(more) == AskedLines(DropLast(more)) + last;
    }
  }

  lemma TrafficSends(io: Io, line: string)
    ensures SentLines(Traffic(io, line)) == if io.NotStarted? then [] else [line]
  {
    match io
    case NotStarted =>
    case ReplyLost => OneLineSent(line, LostReply);
    case Replied(reply) => OneLineSent(line, Answered(line, reply));
  }

  lemma OneLineSent(line: string, end: Mark)
    requires !end.Sent?
    ensures SentLines([Sent(line), end]) == [line]
  {
    assert DropLast([Sent(line), end]) == [Sent(line)];
    assert DropLast([Sent(line)]) == [];
    assert SentLines([Sent(line)]) == [line];
  }

  /** What one call adds, labelled. */
  function Labels(w: World, s: State, call: Call): seq<Outgoing> {
    match call
    case DoTransact(request) => RequestLabels(w, s, SessionRequest(s.sessionId, request))
    case DoReset => RequestLabels(w, s, ResetRequest(s.sessionId))
    case DoPreview(word) =>
      if Connects(w, s) && !w.exchange(s.exchanges).NotStarted? then [Previewed(PreviewRequest(word))] else []
    case _ => []
  }

  function RequestLabels(w: World, s: State, line: string): seq<Outgoing> {
    (if Connects(w, s) && s.needsResync && !w.exchange(s.exchanges).NotStarted?
     then [Owed(ResetRequest(s.sessionId))] else [])
    + if Starts(w, s) then [Asked(line)] else []
  }

  lemma RequestIsLabelled(w: World, s: State, request: string)
    ensures SentLines(Transact(w, s, request).0.log) ==
            SentLines(s.log) + Lines(RequestLabels(w, s, SessionRequest(s.sessionId, request)))
  {
    hide Transact, Traffic, SentLines, ResetRequest, SessionRequest;
    RequestIsSent(w, s, request);
    var line := SessionRequest(s.sessionId, request);
    SentLinesAppend(s.log + OwedTraffic(w, s), OwnTraffic(w, s, line));
    SentLinesAppend(s.log, OwedTraffic(w, s));
    NothingSent();
    TrafficSends(w.exchange(s.exchanges), ResetRequest(s.sessionId));
    if Turn(w, s).Some? { TrafficSends(w.exchange(Turn(w, s).value), line); }
  }

  lemma NothingSent()
    ensures SentLines([]) == []
  {
  }

  lemma PreviewIsLabelled(w: World, s: State, word: string)
    ensures SentLines(Preview(w, s, PreviewRequest(word)).0.log) ==
            SentLines(s.log) + Lines(Labels(w, s, DoPreview(word)))
  {
    hide SentLines, PreviewRequest;
    var line, io := PreviewRequest(word), w.exchange(s.exchanges);
    SentLinesAppend(s.log, Traffic(io, line));
    TrafficSends(io, line);
    assert s.log + [] == s.log;
    assert SentLines(s.log) + [] == SentLines(s.log);
  }

  lemma CallIsLabelled(w: World, s: State, call: Call)
    ensures SentLines(Apply(w, s, call).log) == SentLines(s.log) + Lines(Labels(w, s, call))
    ensures Labelled(s.sessionId, Labels(w, s, call))
  {
    hide Transact, Preview, SentLines, ResetRequest, SessionRequest, Starts, Connects;
    match call
    case DoTransact(request) => RequestIsLabelled(w, s, request);
    case DoReset =>
      RequestIsLabelled(w, s, "RESET\n");
      SessionRequestsAreScoped(s.sessionId, "");
    case DoPreview(word) => PreviewIsLabelled(w, s, word);
    case _ =>
  }

  lemma AskedOfLabels(w: World, s: State, call: Call)
    ensures AskedLines(Labels(w, s, call)) ==
            match call
            case DoTransact(request) => if Starts(w, s) then [SessionRequest(s.sessionId, request)] else []
            case DoReset => if Starts(w, s) then [ResetRequest(s.sessionId)] else []
            case _ => []
  {
    hide SessionRequest, ResetRequest, Starts, Connects, PreviewRequest;
    match call
    case DoTransact(request) => AskedOfRequest(w, s, SessionRequest(s.sessionId, request));
    case DoReset => AskedOfRequest(w, s, ResetRequest(s.sessionId));
    case _ =>
  }

  lemma AskedOfRequest(w: World, s: State, line: string)
    ensures AskedLines(RequestLabels(w, s, line)) == if Starts(w, s) then [line] else []
  {
    hide ResetRequest, Starts, Connects;
    var owed := Owed(ResetRequest(s.sessionId));
    assert DropLast([owed, Asked(line)]) == [owed] && DropLast([owed]) == [] && DropLast([Asked(line)]) == [];
    assert AskedLines([owed]) == [] && AskedLines([Asked(line)]) == [line];
  }

  /**
    On every run, the lines sent that are neither owed RESETs nor previews are, in order, the request
    lines of exactly the calls whose exchange was started.
   */
  lemma {:induction false} RequestsAreSentInOrder(w: World, sessionId: string, calls: seq<Call>)
    returns (out: seq<Outgoing>)
    ensures Lines(out) == SentLines(Run(w, Start(sessionId), calls).log) && Labelled(sessionId, out)
    ensures AskedLines(out) == Requested(w, Start(sessionId), calls)
  {
    hide Apply, Labels, SentLines, ResetRequest, SessionRequest, Starts, AskedLines;
    var start := Start(sessionId);
    if calls == [] {
      out := [];
      NothingSent();
      NothingAsked();
    } else {
      var before := RequestsAreSentInOrder(w, sessionId, DropLast(calls));
      var t := Run(w, start, DropLast(calls));
      RunIsClean(w, sessionId, DropLast(calls));
      CallIsLabelled(w, t, Last(calls));
      AskedOfLabels(w, t, Last(calls));
      AskedLinesAppend(before, Labels(w, t, Last(calls)));
      out := before + Labels(w, t, Last(calls));
      assert Lines(out) == Lines(before) + Lines(Labels(w, t, Last(calls)));
    }
  }

  lemma NothingAsked()
    ensures AskedLines([]) == []
  {
  }

  // ---------------------------------------------------------------------------
  // The object.

  class EngineClient {
    const world: World
    const sessionId: string
    var pipe: bool
    var needsResync: bool
    var lastResponse: string
    var attempts: nat
    var exchanges: nat
    ghost var log: seq<Mark>

    ghost function View(): State
      reads this
    {
      State(sessionId, pipe, needsResync, lastResponse, attempts, exchanges, log)
    }

    constructor (world: World, sessionId: string)
      ensures this.world == world && View() == Start(sessionId)
    {
      this.world, this.sessionId := world, sessionId;
      pipe, needsResync, lastResponse, attempts, exchanges, log := false, false, "", 0, 0, [];
    }

    method ScopedLine(request: string) returns (line: string)
      ensures line == SessionRequest(sessionId, request)
    {
      line := request;
      while line != "" && IsNewline(line[|line| - 1])
        invariant Trimmed(line) == Trimmed(request)
        decreases |line|
      {
        line := line[..|line| - 1];
      }
      line := "SESSION " + sessionId + " " + line + "\n";
    }

    method ConnectPipe() returns (ok: bool)
      modifies this`pipe, this`attempts
      ensures (View(), ok) == Connect(world, old(View()))
    {
      if pipe { return true; }
      pipe := world.connects(attempts);
      attempts := attempts + 1;
      ok := pipe;
    }

    method Disconnect()
      modifies this`pipe
      ensures View() == old(View()).(pipe := false)
    {
      pipe := false;
    }

    method MarkNeedsResync()
      modifies this`needsResync
      ensures View() == old(View()).(needsResync := true)
    {
      needsResync := true;
    }

    method Exchange(line: string) returns (reply: Option<string>)
      modifies this`pipe, this`needsResync, this`exchanges, this`log
      ensures (View(), reply) == RawTransact(world, old(View()), line)
    {
      if !pipe { return None; }
      var io := world.exchange(exchanges);
      exchanges := exchanges + 1;
      match io
      case NotStarted =>
        reply := None;
      case ReplyLost =>
        Disconnect();
        needsResync := true;
        log := log + [Sent(line), LostReply];
        reply := None;
      case Replied(response) =>
        log := log + [Sent(line), Answered(line, response)];
        reply := Some(response);
    }

    method TransactRequest(request: string) returns (reply: Option<string>)
      modifies this
      ensures (View(), reply) == Transact(world, old(View()), request)
    {
      hide RawTransact, SessionRequest;
      lastResponse := "";
      var ok := ConnectPipe();
      if !ok { return None; }
      if needsResync {
        var line := ScopedLine("RESET");
        var reset := Exchange(line);
        if reset.None? { return None; }
        needsResync := false;
      }
      var line := ScopedLine(request);
      reply := Exchange(line);
      if reply.Some? { lastResponse := reply.value; }
    }

    method ResetSession() returns (reply: Option<string>)
      modifies this
      ensures (View(), reply) == Reset(world, old(View()))
    {
      hide Transact;
      reply := TransactRequest("RESET\n");
      if reply.None? { needsResync := true; }
    }

    method PreviewLine(line: string) returns (reply: Option<string>)
      modifies this
      ensures (View(), reply) == Preview(world, old(View()), line)
    {
      hide RawTransact;
      var ok := ConnectPipe();
      if !ok { return None; }
      reply := Exchange(line);
    }
  }
}
