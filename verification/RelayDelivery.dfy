/** The relay passes requests on: the engine gets the lines the clients sent, and its answers go back. */
module RelayDelivery {
  import opened Common
  import Decimal
  import KeyList
  import opened Relay
  import opened RelayTrace
  import RelayRuns

  // ---------------------------------------------------------------------------
  // Answers.

  predicate IsLookup(line: string) {
    "SERVER " <= line
  }

  /** What a lookup asks for. */
  function Word(line: string): string
    requires IsLookup(line)
  {
    line[7..]
  }

  /** Reading on from position `from`, the first line that asks for no lookup is `reply`, at `k`. */
  predicate AnswersAt(w: World, from: nat, k: nat, reply: string) {
    && from <= k && w.output(k) == Some(reply) && !IsLookup(reply)
    && forall j :: from <= j < k ==> w.output(j).Some? && IsLookup(w.output(j).value)
  }

  /** The last of the `taken` lines read so far was this answer. */
  ghost predicate Brought(w: World, taken: nat, reply: string) {
    exists from: nat, k: nat :: k + 1 == taken && AnswersAt(w, from, k, reply)
  }

  /** The line read at `k` is a lookup, and this its answer. */
  predicate IsAnswer(w: World, k: nat, answer: string) {
    var line := w.output(k);
    line.Some? && IsLookup(line.value) && answer == w.lookup(Word(line.value))
  }

  /** `answers` answer, one by one, the lookups read from position `from` on. */
  predicate Answers(w: World, from: nat, answers: seq<string>) {
    forall j :: 0 <= j < |answers| ==> IsAnswer(w, from + j, answers[j])
  }

  /** Every lookup on the way is answered in turn, and a response is the first line that is none. */
  lemma {:induction false} AwaitReadsTheAnswer(w: World, child: Child, exchanges: nat) returns (answers: seq<string>)
    requires exchanges <= MAX_LOOKUPS
    ensures var (next, reply) := Await(w, child, exchanges);
      && next.lookups == child.lookups + answers && Answers(w, child.taken, answers)
      && exchanges + |answers| <= MAX_LOOKUPS
      && (reply.Some? ==> next.taken == child.taken + |answers| + 1 && AnswersAt(w, child.taken, next.taken - 1, reply.value))
    decreases MAX_LOOKUPS - exchanges
  {
    hide Answers, AnswersAt, Word;
    answers := [];
    assert child.lookups + [] == child.lookups;
    NoLookups(w, child.taken);
    match w.output(child.taken)
    case None =>
    case Some(line) =>
      if !IsLookup(line) {
        FirstIsTheAnswer(w, child.taken, line);
      } else if exchanges + 1 <= MAX_LOOKUPS && w.accepts(child.written) {
        WordIsTheRest(line);
        var answer := w.lookup(Word(line));
        var wrote := Child(child.written + 1, child.taken + 1, child.sent, child.lookups + [answer], child.table);
        var rest := AwaitReadsTheAnswer(w, wrote, exchanges + 1);
        answers := [answer] + rest;
        assert child.lookups + answers == wrote.lookups + rest;
        LookupFirst(w, child.taken, line, rest);
        var (next, reply) := Await(w, wrote, exchanges + 1);
        if reply.Some? { AnswersLater(w, child.taken, next.taken - 1, reply.value); }
      }
  }

  lemma NoLookups(w: World, from: nat)
    ensures Answers(w, from, [])
  {
  }

  lemma WordIsTheRest(line: string)
    requires IsLookup(line)
    ensures Word(line) == line[7..]
  {
  }

  lemma FirstIsTheAnswer(w: World, from: nat, reply: string)
    requires w.output(from) == Some(reply) && !IsLookup(reply)
    ensures AnswersAt(w, from, from, reply)
  {
  }

  lemma AnswersLater(w: World, from: nat, k: nat, reply: string)
    requires w.output(from).Some? && IsLookup(w.output(from).value) && AnswersAt(w, from + 1, k, reply)
    ensures AnswersAt(w, from, k, reply)
  {
  }

  lemma LookupFirst(w: World, from: nat, line: string, rest: seq<string>)
    requires w.output(from) == Some(line) && IsLookup(line) && Answers(w, from + 1, rest)
    ensures Answers(w, from, [w.lookup(Word(line))] + rest)
  {
    hide IsLookup, Word;
    var answers := [w.lookup(Word(line))] + rest;
    assert IsAnswer(w, from, answers[0]);
    forall j | 0 <= j < |answers| ensures IsAnswer(w, from + j, answers[j]) {
      if j > 0 { assert answers[j] == rest[j - 1] && from + j == from + 1 + (j - 1); }
    }
  }

  /** A response within the limit is returned if the answers to the lookups before it can be written. */
  lemma {:induction false} AwaitFindsTheAnswer(w: World, child: Child, exchanges: nat, k: nat, reply: string)
    requires exchanges <= MAX_LOOKUPS && AnswersAt(w, child.taken, k, reply)
    requires exchanges + (k - child.taken) <= MAX_LOOKUPS
    requires forall n :: child.written <= n < child.written + (k - child.taken) ==> w.accepts(n)
    ensures Await(w, child, exchanges).1 == Some(reply)
    decreases MAX_LOOKUPS - exchanges
  {
    if child.taken < k {
      var line := w.output(child.taken).value;
      assert w.output(child.taken).Some? && IsLookup(line);
      AwaitFindsTheAnswer(
        w, Child(child.written + 1, child.taken + 1, child.sent, child.lookups + [w.lookup(line[7..])], child.table),
        exchanges + 1, k, reply);
    }
  }

  /** A dispatch that comes back brings the first answer to come after its line. */
  lemma DispatchIsAnswered(w: World, child: Child, client: nat, text: string)
    ensures var (next, reply) := Dispatch(w, child, client, text);
      && next.sent == child.sent + (if w.accepts(child.written) then [Line(client, text)] else [])
      && (reply.Some? ==>
            && w.accepts(child.written) && child.taken < next.taken <= child.taken + MAX_LOOKUPS + 1
            && AnswersAt(w, child.taken, next.taken - 1, reply.value) && Brought(w, next.taken, reply.value))
  {
    hide Await, TableAfter, AnswersAt;
    DispatchWritesOnce(w, child, client, text);
    var answers := AwaitReadsTheAnswer(w, Receive(child.(written := child.written + 1), client, text), 0);
    var (next, reply) := Dispatch(w, child, client, text);
    if reply.Some? { assert next.taken - 1 + 1 == next.taken; }
  }

  // ---------------------------------------------------------------------------
  // An atomic conversion.

  function KeyText(key: nat): string {
    "KEY " + Decimal.Digits(key)
  }

  /** A RESET, one line a key, and the conversion. */
  function ConversionTexts(keys: seq<nat>): seq<string> {
    ["RESET"] + seq(|keys|, i requires 0 <= i < |keys| => KeyText(keys[i])) + ["CONTROL CONVERT"]
  }

  function LinesBy(client: nat, texts: seq<string>): seq<Line> {
    seq(|texts|, i requires 0 <= i < |texts| => Line(client, texts[i]))
  }

  /** A conversion, or a registration, is already under way. */
  predicate HasConverted(response: string) {
    "STATE candidate " <= response || "STATE registration " <= response
  }

  lemma {:induction false} FeedingSendsInOrder(
    w: World, child: Child, client: nat, keys: seq<nat>, last: string) returns (n: nat)
    requires child.taken > 0 && Brought(w, child.taken, last)
    ensures n <= |keys|
    ensures var (next, reply) := FeedKeys(w, child, client, keys, last);
      && next.sent == child.sent + LinesBy(client, seq(n, i requires 0 <= i < n => KeyText(keys[i])))
      && (reply.Some? ==> n == |keys| && next.taken > 0 && Brought(w, next.taken, reply.value))
    decreases |keys|
  {
    hide Dispatch, AnswersAt, KeyText, Brought;
    if keys == [] {
      n := 0;
      assert child.sent + LinesBy(client, []) == child.sent;
    } else {
      DispatchIsAnswered(w, child, client, KeyText(keys[0]));
      OneKey(keys[0]);
      var (next, reply) := Dispatch(w, child, client, KeyText(keys[0]));
      if reply.Some? {
        n := FeedingSendsInOrder(w, next, client, keys[1..], reply.value);
        var rest := seq(n, i requires 0 <= i < n => KeyText(keys[1..][i]));
        n := n + 1;
        var texts := seq(n, i requires 0 <= i < n => KeyText(keys[i]));
        assert texts == [KeyText(keys[0])] + rest;
        assert LinesBy(client, texts) == [Line(client, KeyText(keys[0]))] + LinesBy(client, rest);
      } else if w.accepts(child.written) {
        n := 1;
        var texts := seq(1, i requires 0 <= i < 1 => KeyText(keys[i]));
        assert LinesBy(client, texts) == [Line(client, KeyText(keys[0]))];
      } else {
        n := 0;
        assert child.sent + LinesBy(client, []) == child.sent + [] == child.sent;
      }
    }
  }

  lemma OneKey(key: nat)
    ensures "KEY " + Decimal.Digits(key) == KeyText(key)
  {
  }

  /**
    An atomic conversion sends a RESET and then the decoded keys in order. It comes back only when all of
    them were decoded and answered; then it sent the conversion too, and returns the answer to that,
    unless the answer to the last key shows that a conversion is already under way, which it returns.
   */
  lemma ConversionSendsInOrder(w: World, child: Child, client: nat, encoded: string)
    returns (n: nat, last: string, k: nat)
    ensures var (next, reply) := ConvertKeys(w, child, client, encoded); var (keys, ok) := KeyList.HostKeys(encoded);
      && n <= |keys| + 2
      && next.sent == child.sent + LinesBy(client, ConversionTexts(keys)[..n])
      && (reply.Some? ==>
            && ok && n == |keys| + (if HasConverted(last) then 1 else 2)
            && Brought(w, k + 1, last)
            && (if HasConverted(last) then reply.value == last
                else next.taken > 0 && AnswersAt(w, k + 1, next.taken - 1, reply.value)))
  {
    hide Dispatch, FeedKeys, AnswersAt, KeyList.HostKeys, KeyText, Brought;
    var (keys, ok) := KeyList.HostKeys(encoded);
    var texts := ConversionTexts(keys);
    n, last, k := 0, "", 0;
    assert texts[..0] == [] && LinesBy(client, []) == [] && child.sent + [] == child.sent;
    if encoded != "" && |encoded| <= KeyList.MAX_BYTES {
      DispatchIsAnswered(w, child, client, "RESET");
      var (cleared, reset) := Dispatch(w, child, client, "RESET");
      assert texts[..1] == ["RESET"] && LinesBy(client, ["RESET"]) == [Line(client, "RESET")];
      if reset.Some? {
        var m := FeedingSendsInOrder(w, cleared, client, keys, reset.value);
        var (fed, answer) := FeedKeys(w, cleared, client, keys, reset.value);
        n := 1 + m;
        FedTexts(client, keys, m);
        assert fed.sent == child.sent + LinesBy(client, texts[..n]);
        if answer.Some? && ok {
          last, k := answer.value, fed.taken - 1;
          if !HasConverted(last) {
            DispatchIsAnswered(w, fed, client, "CONTROL CONVERT");
            if w.accepts(fed.written) {
              n := n + 1;
              ConversionComesLast(client, keys);
            }
          }
        }
      } else if w.accepts(child.written) {
        n := 1;
      }
    }
  }

  lemma FedTexts(client: nat, keys: seq<nat>, m: nat)
    requires m <= |keys|
    ensures LinesBy(client, ConversionTexts(keys)[..1 + m]) ==
            [Line(client, "RESET")] + LinesBy(client, seq(m, i requires 0 <= i < m => KeyText(keys[i])))
  {
    hide KeyText;
    var fed := seq(m, i requires 0 <= i < m => KeyText(keys[i]));
    assert ConversionTexts(keys)[..1 + m] == ["RESET"] + fed;
  }

  lemma ConversionComesLast(client: nat, keys: seq<nat>)
    ensures |ConversionTexts(keys)| == |keys| + 2
    ensures LinesBy(client, ConversionTexts(keys)[..|keys| + 2]) ==
            LinesBy(client, ConversionTexts(keys)[..|keys| + 1]) + [Line(client, "CONTROL CONVERT")]
  {
    hide KeyText;
    var texts := ConversionTexts(keys);
    assert texts[..|keys| + 2] == texts[..|keys| + 1] + ["CONTROL CONVERT"];
  }

  // ---------------------------------------------------------------------------
  // One request.

  /** Handled by the host without the engine. */
  predicate HostsOwn(line: string) {
    line == "SHUTDOWN" || "PREVIEW " <= line
  }

  predicate IsConversion(line: string) {
    SessionId(line) == "" && "CONTROL CONVERT-KEYS " <= line
  }

  /** An unscoped line that types. */
  predicate Types(line: string) {
    SessionId(line) == "" && ("KEY " <= line || "CONTROL " <= line)
  }

  /** A RESET that would disturb the client who has the input, or cut a composition short. */
  predicate Ignored(sh: Shared, client: nat, line: string) {
    line == "RESET" && sh.active != 0 && (sh.active != client || sh.sessionComposing)
  }

  /** The engine as a client's own line finds it: after the RESET of a takeover, which must be answered. */
  function Meets(w: World, sh: Shared, client: nat, line: string): Option<Child> {
    if HostsOwn(line) || IsConversion(line) || Ignored(sh, client, line) then None
    else if Types(line) && sh.active != client then
      var (child, reply) := Dispatch(w, sh.child, client, "RESET");
      if reply.Some? then Some(child) else None
    else Some(sh.child)
  }

  /** The client's own line is written to the engine. */
  predicate Passes(w: World, sh: Shared, client: nat, line: string) {
    Meets(w, sh, client, line).Some? && w.accepts(Meets(w, sh, client, line).value.written)
  }

  /** The RESET that separates one client's input from another's. */
  function Takeover(w: World, sh: Shared, client: nat, line: string): seq<Line> {
    if Types(line) && sh.active != client && w.accepts(sh.child.written) then [Line(client, "RESET")] else []
  }

  lemma HowItIsClassified(line: string)
    requires !HostsOwn(line)
    ensures Classify(line).Scoped? <==> SessionId(line) != ""
    ensures Classify(line).Scoped? ==> Classify(line).id == SessionId(line)
    ensures Classify(line).Reset? <==> line == "RESET"
    ensures Classify(line).Convert? <==> IsConversion(line)
    ensures Classify(line).Input? || Classify(line).Convert? <==> Types(line)
    ensures !Classify(line).Shutdown? && !Classify(line).Preview?
    ensures IsConversion(line) ==> Types(line)
  {
    if SessionId(line) != "" {
      hide SessionId;
      SessionIdStartsWithS(line);
      StartsWithS(line);
    } else {
      assert "RESET"[0] == 'R' && "CONTROL "[0] == 'C' && "KEY "[0] == 'K';
      assert "CONTROL CONVERT-KEYS "[..8] == "CONTROL ";
    }
  }

  lemma ForgettingSendsNothing(sh: Shared, o: Owner, response: string, id: string)
    ensures Track(sh, o, response).child == sh.child && Forget(sh, id).child == sh.child
    ensures Forget(sh, id).published == sh.published && Forget(sh, id).active == sh.active
    ensures Track(sh, o, response).active == sh.active
    ensures Track(sh, o, response).published == sh.published + (if "STATE " <= response then [response] else [])
  {
    hide ModeOf, IsComposingMode, KeyOf;
  }

  lemma TakingOverSends(w: World, sh: Shared, client: nat)
    ensures var (t, ok) := TakeInput(w, sh, client);
      && t.child.sent == sh.child.sent
           + (if sh.active != client && w.accepts(sh.child.written) then [Line(client, "RESET")] else [])
      && t.published == sh.published
      && (ok <==> sh.active == client || Dispatch(w, sh.child, client, "RESET").1.Some?)
      && (ok ==> t.child == if sh.active == client then sh.child else Dispatch(w, sh.child, client, "RESET").0)
      && t.active == if ok then client else sh.active
  {
    hide Dispatch, AnswersAt;
    DispatchIsAnswered(w, sh.child, client, "RESET");
    assert sh.child.sent + [] == sh.child.sent;
  }

  /** What one request adds to the engine's input, and what its client gets back. */
  predicate Delivers(w: World, sh: Shared, client: nat, line: string, t: Shared, reply: Option<string>) {
    && t.child.sent == sh.child.sent + Takeover(w, sh, client, line)
                       + (if Passes(w, sh, client, line) then [Line(client, line)] else [])
    && (reply.Some? && !Ignored(sh, client, line) ==>
          && Passes(w, sh, client, line) && t.child.taken > 0
          && AnswersAt(w, Meets(w, sh, client, line).value.taken, t.child.taken - 1, reply.value))
    && t.active == (if (Types(line) && Meets(w, sh, client, line).Some?) || (line == "RESET" && !Ignored(sh, client, line))
                    then client else sh.active)
    && (Ignored(sh, client, line) ==> t == sh && reply == Some("STATE hiragana 0 -1 - - -1 -"))
    && t.published == sh.published
         + (if reply.Some? && "STATE " <= reply.value && !Ignored(sh, client, line) then [reply.value] else [])
  }

  lemma ScopedDelivers(w: World, sh: Shared, client: nat, line: string, close: bool)
    requires SessionId(line) != "" && !HostsOwn(line)
    ensures var (t, reply) := ServeScoped(w, sh, client, line, SessionId(line), close);
      Delivers(w, sh, client, line, t, reply)
  {
    hide Dispatch, AnswersAt, Track, Forget, SessionId;
    SessionIdStartsWithS(line);
    StartsWithS(line);
    DispatchIsAnswered(w, sh.child, client, line);
    var id := SessionId(line);
    var (sent, reply) := Send(w, Claim(sh, client, id), client, line);
    assert sh.child.sent + [] == sh.child.sent;
    if reply.Some? {
      ForgettingSendsNothing(sent, Session(id), reply.value, id);
      ForgettingSendsNothing(Track(sent, Session(id), reply.value), Session(id), reply.value, id);
    } else {
      assert sh.published + [] == sh.published;
    }
  }

  lemma UnscopedDelivers(w: World, sh: Shared, client: nat, line: string, r: Request)
    requires SessionId(line) == "" && !HostsOwn(line) && !IsConversion(line) && r == Classify(line)
    ensures var (t, reply) := ServeUnscoped(w, sh, client, line, r); Delivers(w, sh, client, line, t, reply)
  {
    hide Dispatch, AnswersAt, Track, TakeInput, Classify, SessionId, HostsOwn, IsConversion, Types;
    HowItIsClassified(line);
    TakingOverSends(w, sh, client);
    assert sh.child.sent + [] == sh.child.sent && sh.published + [] == sh.published;
    if !Ignored(sh, client, line) {
      var (taken, ok) := if r.Input? then TakeInput(w, sh, client)
                         else (if r.Reset? then sh.(active := client) else sh, true);
      if ok {
        DispatchIsAnswered(w, taken.child, client, line);
        var (child, reply) := Dispatch(w, taken.child, client, line);
        if reply.Some? { ForgettingSendsNothing(taken.(child := child), Legacy(client), reply.value, ""); }
      }
    }
  }

  /**
    A request that is no conversion: after the RESET of a takeover the client's own line is written, as
    it is and once, and the client gets the first answer read after it. A RESET that is ignored writes
    nothing and gets a fixed state. Exactly the STATE lines handed back are published.
   */
  lemma RequestsAreDelivered(w: World, sh: Shared, client: nat, line: string)
    requires !HostsOwn(line) && !IsConversion(line)
    ensures var (t, reply) := ServeLocked(w, sh, client, line); Delivers(w, sh, client, line, t, reply)
  {
    hide Classify, ServeScoped, ServeUnscoped, Delivers, HostsOwn, IsConversion, SessionId;
    HowItIsClassified(line);
    match Classify(line)
    case Scoped(id, close) => ScopedDelivers(w, sh, client, line, close);
    case r => UnscopedDelivers(w, sh, client, line, r);
  }

  /** A conversion: the takeover's RESET, and then some of its steps, in order. */
  lemma ConversionsAreDelivered(w: World, sh: Shared, client: nat, line: string) returns (n: nat)
    requires !HostsOwn(line) && IsConversion(line)
    ensures var (t, reply) := ServeLocked(w, sh, client, line);
      var texts := ConversionTexts(KeyList.HostKeys(line[21..]).0);
      && n <= |texts|
      && t.child.sent == sh.child.sent + Takeover(w, sh, client, line) + LinesBy(client, texts[..n])
      && t.published == sh.published + (if reply.Some? && "STATE " <= reply.value then [reply.value] else [])
  {
    hide Dispatch, AnswersAt, Track, TakeInput, SessionId, HostsOwn, Types, ConvertKeys, KeyList.HostKeys, KeyText, ConversionTexts;
    HowItIsClassified(line);
    TakingOverSends(w, sh, client);
    var encoded := line[21..];
    assert |CONVERT| == 21 && Classify(line) == Convert(encoded);
    var texts := ConversionTexts(KeyList.HostKeys(encoded).0);
    ConversionLength(KeyList.HostKeys(encoded).0);
    n := 0;
    assert texts[..0] == [] && LinesBy(client, []) == [] && sh.published + [] == sh.published;
    var (taken, ok) := TakeInput(w, sh, client);
    if ok {
      var last, k;
      n, last, k := ConversionSendsInOrder(w, taken.child, client, encoded);
      var (child, reply) := ConvertKeys(w, taken.child, client, encoded);
      if reply.Some? { ForgettingSendsNothing(taken.(child := child), Legacy(client), reply.value, ""); }
    }
  }

  lemma ConversionLength(keys: seq<nat>)
    ensures |ConversionTexts(keys)| == |keys| + 2
  {
  }

  /** The answers to lookups up to position `k` can be written after this line. */
  predicate CanAnswer(w: World, child: Child, k: nat) {
    forall n :: child.written < n <= child.written + (k - child.taken) ==> w.accepts(n)
  }

  lemma DispatchFindsTheAnswer(w: World, child: Child, client: nat, text: string, k: nat, reply: string)
    requires w.accepts(child.written) && AnswersAt(w, child.taken, k, reply) && k - child.taken <= MAX_LOOKUPS
    requires CanAnswer(w, child, k)
    ensures Dispatch(w, child, client, text).1 == Some(reply)
  {
    hide Await, AnswersAt, TableAfter;
    AwaitFindsTheAnswer(w, Receive(child.(written := child.written + 1), client, text), 0, k, reply);
  }

  /** A request whose line is written gets the answer to it, if one comes within the limit. */
  lemma AnswersComeBack(w: World, sh: Shared, client: nat, line: string, k: nat, reply: string)
    requires Passes(w, sh, client, line)
    requires var child := Meets(w, sh, client, line).value;
      AnswersAt(w, child.taken, k, reply) && k - child.taken <= MAX_LOOKUPS && CanAnswer(w, child, k)
    ensures ServeLocked(w, sh, client, line).1 == Some(reply)
  {
    hide Dispatch, AnswersAt, Track, Forget, CanAnswer, SessionId, Classify, HostsOwn, IsConversion, Types, TakeInput;
    ConversionsPassNothing(w, sh, client, line);
    HowItIsClassified(line);
    TakingOverSends(w, sh, client);
    DispatchFindsTheAnswer(w, Meets(w, sh, client, line).value, client, line, k, reply);
  }

  /** Every write reaches the engine, and it answers each line at once. */
  ghost predicate Prompt(w: World) {
    && (forall n :: w.accepts(n))
    && (forall n :: w.output(n).Some? && !IsLookup(w.output(n).value))
  }

  lemma PromptAnswers(w: World, child: Child, client: nat, text: string)
    requires Prompt(w)
    ensures Dispatch(w, child, client, text).1 == w.output(child.taken)
  {
    DispatchFindsTheAnswer(w, child, client, text, child.taken, w.output(child.taken).value);
  }

  lemma {:induction false} FeedingComesBack(w: World, child: Child, client: nat, keys: seq<nat>, last: string)
    requires Prompt(w)
    ensures FeedKeys(w, child, client, keys, last).1.Some?
    decreases |keys|
  {
    hide Dispatch, Prompt, Decimal.Digits;
    if keys != [] {
      var text := "KEY " + Decimal.Digits(keys[0]);
      PromptAnswers(w, child, client, text);
      PromptIsSome(w, child.taken);
      var (next, reply) := Dispatch(w, child, client, text);
      FeedingComesBack(w, next, client, keys[1..], reply.value);
    }
  }

  lemma PromptIsSome(w: World, n: nat)
    requires Prompt(w)
    ensures w.output(n).Some?
  {
  }

  /** With a prompt engine a conversion comes back if and only if its list was decoded in full. */
  lemma ConversionsComeBack(w: World, child: Child, client: nat, encoded: string)
    requires Prompt(w)
    ensures ConvertKeys(w, child, client, encoded).1.Some? <==> KeyList.HostKeys(encoded).1
  {
    hide Dispatch, Prompt, FeedKeys, KeyList.Decode;
    PromptAnswers(w, child, client, "RESET");
    PromptIsSome(w, child.taken);
    if encoded != "" && |encoded| <= KeyList.MAX_BYTES {
      var (cleared, reset) := Dispatch(w, child, client, "RESET");
      var keys := KeyList.HostKeys(encoded).0;
      FeedingComesBack(w, cleared, client, keys, reset.value);
      var fed := FeedKeys(w, cleared, client, keys, reset.value).0;
      PromptAnswers(w, fed, client, "CONTROL CONVERT");
      PromptIsSome(w, fed.taken);
    }
  }

  // ---------------------------------------------------------------------------
  // What the host learns from an answer.

  /** Whose state the answer to a line describes. */
  function OwnerOf(client: nat, line: string): Owner {
    if SessionId(line) != "" then Session(SessionId(line)) else Legacy(client)
  }

  /** The host takes this owner to be composing, or not. */
  predicate TakenFor(sh: Shared, o: Owner, composing: bool) {
    && o in sh.modes && sh.modes[o] == composing
    && (KeyOf(o) in sh.composing <==> composing)
    && sh.sessionComposing == (sh.composing != {})
  }

  function StateLine(mode: string, rest: string): string {
    "STATE " + mode + " " + rest
  }

  lemma ModeIsTheSecondWord(mode: string, rest: string)
    requires ' ' !in mode
    ensures var response := StateLine(mode, rest); "STATE " <= response && ModeOf(response) == mode
  {
    var response := StateLine(mode, rest);
    assert response[6..] == mode + " " + rest;
    assert response[6..][..|mode|] == mode;
    IndexOfIs(response[6..], ' ', |mode|);
    assert response[6..6 + |mode|] == mode;
  }

  lemma TrackingTakes(sh: Shared, o: Owner, mode: string, rest: string)
    requires ' ' !in mode
    ensures var t := Track(sh, o, StateLine(mode, rest));
      && TakenFor(t, o, mode in {"preedit", "candidate", "registration"})
      && (forall p :: p != o ==> (p in t.modes <==> p in sh.modes) && (p in sh.modes ==> t.modes[p] == sh.modes[p]))
      && (forall name :: name != KeyOf(o) ==> (name in t.composing <==> name in sh.composing))
  {
    hide ModeOf, KeyOf, StateLine;
    ModeIsTheSecondWord(mode, rest);
  }

  /**
    After a STATE answer the host takes the session the line named, or else the client, to be composing
    exactly in the modes preedit, candidate and registration; after a CLOSE it takes it for nothing.
   */
  lemma AnswersAreTracked(w: World, sh: Shared, client: nat, line: string, mode: string, rest: string)
    requires !HostsOwn(line) && !Ignored(sh, client, line) && ' ' !in mode
    requires ServeLocked(w, sh, client, line).1 == Some(StateLine(mode, rest))
    ensures var t, o := ServeLocked(w, sh, client, line).0, OwnerOf(client, line);
      if SessionId(line) != "" && line == CloseLine(SessionId(line))
      then o !in t.modes && KeyOf(o) !in t.composing && o.id !in t.owners && t.sessionComposing == (t.composing != {})
      else TakenFor(t, o, mode in {"preedit", "candidate", "registration"}) && (o.Session? ==> o.id in t.owners && t.owners[o.id] == client)
  {
    hide Dispatch, ConvertKeys, Track, TakeInput, Classify, SessionId, HostsOwn, IsConversion, Types, StateLine, ModeOf, TakenFor;
    HowItIsClassified(line);
    var (t, reply) := ServeLocked(w, sh, client, line);
    if SessionId(line) != "" {
      ScopedAnswersAreTracked(w, sh, client, line, mode, rest);
    } else {
      UnscopedAnswersAreTracked(w, sh, client, line, Classify(line), mode, rest);
    }
  }

  lemma ScopedAnswersAreTracked(w: World, sh: Shared, client: nat, line: string, mode: string, rest: string)
    requires SessionId(line) != "" && !HostsOwn(line) && ' ' !in mode
    requires ServeLocked(w, sh, client, line).1 == Some(StateLine(mode, rest))
    ensures var t, o := ServeLocked(w, sh, client, line).0, Session(SessionId(line));
      if line == CloseLine(SessionId(line))
      then o !in t.modes && KeyOf(o) !in t.composing && o.id !in t.owners && t.sessionComposing == (t.composing != {})
      else TakenFor(t, o, mode in {"preedit", "candidate", "registration"}) && o.id in t.owners && t.owners[o.id] == client
  {
    hide Dispatch, Track, SessionId, HostsOwn, StateLine, ModeOf, TakenFor;
    var id := SessionId(line);
    assert Classify(line) == Scoped(id, line == CloseLine(id)) by { ScopedIsClassified(line); }
    var (sent, reply) := Send(w, Claim(sh, client, id), client, line);
    TrackingTakes(sent, Session(id), mode, rest);
    TrackingKeepsOwners(sent, Session(id), StateLine(mode, rest));
    if line == CloseLine(id) { Forgets(Track(sent, Session(id), StateLine(mode, rest)), id); }
  }

  lemma ScopedIsClassified(line: string)
    requires SessionId(line) != "" && !HostsOwn(line)
    ensures Classify(line) == Scoped(SessionId(line), line == CloseLine(SessionId(line)))
  {
    hide SessionId;
  }

  lemma TrackingKeepsOwners(sh: Shared, o: Owner, response: string)
    ensures Track(sh, o, response).owners == sh.owners
  {
    hide ModeOf, IsComposingMode, KeyOf;
  }

  lemma Forgets(sh: Shared, id: string)
    ensures var t := Forget(sh, id);
      Session(id) !in t.modes && id !in t.composing && id !in t.owners && t.sessionComposing == (t.composing != {})
  {
  }

  lemma UnscopedAnswersAreTracked(
    w: World, sh: Shared, client: nat, line: string, r: Request, mode: string, rest: string)
    requires (r.Reset? ==> line == "RESET" && !Ignored(sh, client, line)) && ' ' !in mode
    requires ServeUnscoped(w, sh, client, line, r).1 == Some(StateLine(mode, rest))
    ensures TakenFor(ServeUnscoped(w, sh, client, line, r).0, Legacy(client), mode in {"preedit", "candidate", "registration"})
  {
    hide Dispatch, ConvertKeys, Track, TakeInput, StateLine, ModeOf, TakenFor;
    var taken := if r.Input? || r.Convert? then TakeInput(w, sh, client).0
                 else (if r.Reset? then sh.(active := client) else sh);
    var child := if r.Convert? then ConvertKeys(w, taken.child, client, r.encoded).0
                 else Dispatch(w, taken.child, client, line).0;
    TrackingTakes(taken.(child := child), Legacy(client), mode, rest);
  }

  // ---------------------------------------------------------------------------
  // Whole runs: every line the engine gets is accounted for.

  // Why the host wrote a line.
  datatype Entry =
    | Relayed(client: nat, text: string)   // a client's own line
    | TakingOver(client: nat)
    | Converting(client: nat, text: string)
    | Closing(client: nat, id: string)     // a leaving worker's session
    | Collecting(text: string)

  function LineOf(e: Entry): Line {
    match e
    case Relayed(client, text) => Line(client, text)
    case TakingOver(client) => Line(client, "RESET")
    case Converting(client, text) => Line(client, text)
    case Closing(client, id) => Line(client, CloseLine(id))
    case Collecting(text) => Line(0, text)
  }

  function LinesOf(entries: seq<Entry>): seq<Line> {
    seq(|entries|, i requires 0 <= i < |entries| => LineOf(entries[i]))
  }

  /** Conversions consist of their steps, and the host itself asks for nothing but collections. */
  predicate Proper(e: Entry) {
    && (e.Converting? ==> e.text == "RESET" || "KEY " <= e.text || e.text == "CONTROL CONVERT")
    && (e.Collecting? ==> e.text == "GC" || e.text == "COMPACT")
  }

  predicate AllProper(entries: seq<Entry>) {
    forall i :: 0 <= i < |entries| ==> Proper(entries[i])
  }

  /** The relayed lines of one client, in order. */
  function RelayedFor(entries: seq<Entry>, client: nat): seq<string> {
    if entries == [] then []
    else
      RelayedFor(DropLast(entries), client)
      + if Last(entries).Relayed? && Last(entries).client == client then [Last(entries).text] else []
  }

  lemma {:induction false} RelayedForAppend(entries: seq<Entry>, more: seq<Entry>, client: nat)
    ensures RelayedFor(entries + more, client) == RelayedFor(entries, client) + RelayedFor(more, client)
    decreases |more|
  {
    if more == [] {
      assert entries + more == entries;
    } else {
      RelayedForAppend(entries, DropLast(more), client);
      assert DropLast(entries + more) == entries + DropLast(more);
    }
  }

  lemma {:induction false} NoneRelayed(entries: seq<Entry>, client: nat)
    requires forall i :: 0 <= i < |entries| ==> !entries[i].Relayed?
    ensures RelayedFor(entries, client) == []
  {
    if entries != [] { NoneRelayed(DropLast(entries), client); }
  }

  // A request served, and whether its own line was written to the engine.
  datatype Service = Service(request: string, passed: bool)

  predicate Serves(s: State, e: Event, client: nat) {
    e.Serve? && e.client == client && client in s.workers && s.workers[client].stage == Ready && MutexFree(s)
  }

  /** What one client was served on a run. */
  function Services(w: World, events: seq<Event>, client: nat): seq<Service> {
    if events == [] then []
    else
      var s := Run(w, START, DropLast(events));
      Services(w, DropLast(events), client)
      + if Serves(s, Last(events), client) then
          var request := s.workers[client].request;
          [Service(request, Passes(w, s.shared, client, request))]
        else []
  }

  function Requests(services: seq<Service>): seq<string> {
    seq(|services|, i requires 0 <= i < |services| => services[i].request)
  }

  function Passed(services: seq<Service>): seq<string> {
    if services == [] then []
    else Passed(DropLast(services)) + if Last(services).passed then [Last(services).request] else []
  }

  /** What one client's worker read on a run. */
  function ReadBy(w: World, events: seq<Event>, client: nat): seq<string> {
    if events == [] then []
    else
      var s := Run(w, START, DropLast(events));
      ReadBy(w, DropLast(events), client)
      + match Last(events)
        case Read(c, line) =>
          if c == client && c in s.workers && s.workers[c].stage == Reading then [line] else []
        case _ => []
  }

  /** The request read and not served yet. */
  function InHand(s: State, client: nat): seq<string> {
    if client in s.workers && s.workers[client].stage != Reading && s.workers[client].stage != Leaving
    then [s.workers[client].request] else []
  }

  // ---------------------------------------------------------------------------
  // Requests are served in the order they were read.

  lemma StepHands(w: World, s: State, e: Event, client: nat)
    requires forall c :: c in s.workers ==> c < s.next
    ensures var t := Step(w, s, e);
      && (Serves(s, e, client) ==> InHand(s, client) == [s.workers[client].request] && InHand(t, client) == [])
      && (e.Read? && e.client == client && client in s.workers && s.workers[client].stage == Reading ==>
            InHand(s, client) == [] && InHand(t, client) == [e.line])
      && (!Serves(s, e, client)
          && !(e.Read? && e.client == client && client in s.workers && s.workers[client].stage == Reading) ==>
            InHand(t, client) == InHand(s, client))
  {
    hide ServeLocked, CleanUp, Classify, Lists, FinishCheck, Collect, Elapsed;
    match e
    case Tick(elapsed) =>
    case Connect =>
    case Read(c, line) =>
    case Note(c) => if c in s.workers { NotingHands(s, c, client); }
    case Serve(c, delivered) => if c in s.workers { ServingHands(w, s, c, delivered, client); }
    case Hangup(c) =>
    case Cleanup(c, order) =>
    case Collector => CollectorHands(w, s);
  }

  lemma NotingHands(s: State, c: nat, client: nat)
    requires c in s.workers
    ensures InHand(NoteStep(s, c), client) == InHand(s, client)
  {
  }

  lemma ServingHands(w: World, s: State, c: nat, delivered: bool, client: nat)
    requires c in s.workers
    ensures InHand(ServeStep(w, s, c, delivered), client) == if c == client then [] else InHand(s, client)
  {
    hide ServeLocked, Classify;
  }

  lemma CollectorHands(w: World, s: State)
    ensures CollectorStep(w, s).workers == s.workers
  {
    hide Collect, Elapsed;
  }

  /** What a client's worker read is what it served, in order, and the request it has in hand. */
  lemma {:induction false} RequestsAreServedInOrder(w: World, events: seq<Event>, client: nat)
    ensures ReadBy(w, events, client) ==
            Requests(Services(w, events, client)) + InHand(Run(w, START, events), client)
  {
    hide Step, InHand, Passes;
    if events == [] {
      NothingInHand(client);
    } else {
      RequestsAreServedInOrder(w, DropLast(events), client);
      var s := Run(w, START, DropLast(events));
      RelayRuns.RunIsSound(w, DropLast(events));
      StepHands(w, s, Last(events), client);
      var before := Services(w, DropLast(events), client);
      if Serves(s, Last(events), client) {
        var request := s.workers[client].request;
        var service := Service(request, Passes(w, s.shared, client, request));
        assert Requests(before + [service]) == Requests(before) + [request];
      }
    }
  }

  lemma NothingInHand(client: nat)
    ensures InHand(START, client) == []
  {
  }

  // ---------------------------------------------------------------------------
  // What the engine gets is what was served.

  /** These entries account for what was added to the engine's input. */
  predicate Accounts(before: seq<Line>, after: seq<Line>, entries: seq<Entry>) {
    after == before + LinesOf(entries) && AllProper(entries)
  }

  /** The relayed lines among them are this client's alone, and these. */
  ghost predicate RelaysOnly(entries: seq<Entry>, client: nat, texts: seq<string>) {
    forall c :: RelayedFor(entries, c) == if c == client then texts else []
  }

  lemma LinesOfAppend(a: seq<Entry>, b: seq<Entry>)
    ensures LinesOf(a + b) == LinesOf(a) + LinesOf(b)
  {
  }

  lemma TakeoverEntries(w: World, sh: Shared, client: nat, line: string) returns (entries: seq<Entry>)
    ensures LinesOf(entries) == Takeover(w, sh, client, line) && AllProper(entries)
    ensures forall i :: 0 <= i < |entries| ==> !entries[i].Relayed?
  {
    hide Types;
    if Types(line) && sh.active != client && w.accepts(sh.child.written) {
      entries := [TakingOver(client)];
    } else {
      entries := [];
    }
  }

  lemma OwnEntry(client: nat, line: string)
    ensures LinesOf([Relayed(client, line)]) == [Line(client, line)] && AllProper([Relayed(client, line)])
    ensures RelaysOnly([Relayed(client, line)], client, [line])
  {
    assert DropLast([Relayed(client, line)]) == [];
  }

  lemma NoEntries(client: nat)
    ensures LinesOf([]) == [] && RelaysOnly([], client, [])
  {
  }

  lemma RelaysTogether(a: seq<Entry>, b: seq<Entry>, client: nat, texts: seq<string>)
    requires (forall i :: 0 <= i < |a| ==> !a[i].Relayed?) && RelaysOnly(b, client, texts)
    ensures RelaysOnly(a + b, client, texts)
  {
    forall c ensures RelayedFor(a + b, c) == if c == client then texts else [] {
      NoneRelayed(a, c);
      RelayedForAppend(a, b, c);
    }
  }

  lemma RequestIsAccountedFor(w: World, sh: Shared, client: nat, line: string) returns (entries: seq<Entry>)
    requires !HostsOwn(line) && !IsConversion(line)
    ensures Accounts(sh.child.sent, ServeLocked(w, sh, client, line).0.child.sent, entries)
    ensures RelaysOnly(entries, client, if Passes(w, sh, client, line) then [line] else [])
  {
    hide ServeLocked, AnswersAt, HostsOwn, IsConversion, Types, Takeover, Passes, Meets, Ignored;
    RequestsAreDelivered(w, sh, client, line);
    var first := TakeoverEntries(w, sh, client, line);
    var own := if Passes(w, sh, client, line) then [Relayed(client, line)] else [];
    OwnEntry(client, line);
    NoEntries(client);
    RelaysTogether(first, own, client, if Passes(w, sh, client, line) then [line] else []);
    LinesOfAppend(first, own);
    entries := first + own;
  }

  function Steps(client: nat, texts: seq<string>): seq<Entry> {
    seq(|texts|, i requires 0 <= i < |texts| => Converting(client, texts[i]))
  }

  lemma StepsAreProper(client: nat, keys: seq<nat>, n: nat)
    requires n <= |ConversionTexts(keys)|
    ensures var texts := ConversionTexts(keys)[..n];
      LinesOf(Steps(client, texts)) == LinesBy(client, texts) && AllProper(Steps(client, texts))
  {
    hide Decimal.Digits;
  }

  lemma ConversionIsAccountedFor(w: World, sh: Shared, client: nat, line: string) returns (entries: seq<Entry>)
    requires !HostsOwn(line) && IsConversion(line)
    ensures Accounts(sh.child.sent, ServeLocked(w, sh, client, line).0.child.sent, entries)
    ensures RelaysOnly(entries, client, [])
  {
    hide ServeLocked, HostsOwn, Types, Takeover, ConversionTexts, KeyList.HostKeys, LinesBy;
    var n := ConversionsAreDelivered(w, sh, client, line);
    var keys := KeyList.HostKeys(line[21..]).0;
    var first := TakeoverEntries(w, sh, client, line);
    var steps := Steps(client, ConversionTexts(keys)[..n]);
    StepsAreProper(client, keys, n);
    LinesOfAppend(first, steps);
    entries := first + steps;
    NoEntries(client);
    RelaysTogether(entries, [], client, []);
    assert entries + [] == entries;
  }

  lemma ConversionsPassNothing(w: World, sh: Shared, client: nat, line: string)
    ensures HostsOwn(line) || IsConversion(line) ==> !Passes(w, sh, client, line)
  {
  }

  lemma ClosingIsAccountedFor(w: World, sh: Shared, client: nat, order: seq<string>) returns (entries: seq<Entry>)
    ensures Accounts(sh.child.sent, CloseAll(w, sh, client, order).child.sent, entries)
    ensures forall i :: 0 <= i < |entries| ==> !entries[i].Relayed?
    decreases |order|
  {
    hide CloseOwned, CloseLine;
    if order == [] {
      entries := [];
      assert sh.child.sent + [] == sh.child.sent;
    } else {
      var before := CloseAll(w, sh, client, DropLast(order));
      entries := ClosingIsAccountedFor(w, sh, client, DropLast(order));
      RelayRuns.ClosingWritesOneLine(w, before, client, Last(order));
      if CloseOwned(w, before, client, Last(order)).child.sent != before.child.sent {
        var closing := [Closing(client, Last(order))];
        LinesOfAppend(entries, closing);
        assert LinesOf(closing) == [Line(client, CloseLine(Last(order)))];
        entries := entries + closing;
      }
    }
  }

  lemma CollectingIsAccountedFor(w: World, sh: Shared) returns (entries: seq<Entry>)
    ensures Accounts(sh.child.sent, Collect(w, sh).child.sent, entries)
    ensures forall i :: 0 <= i < |entries| ==> !entries[i].Relayed?
  {
    hide Dispatch, AnswersAt, Brought;
    DispatchIsAnswered(w, sh.child, 0, "GC");
    var child := Dispatch(w, sh.child, 0, "GC").0;
    DispatchIsAnswered(w, child, 0, "COMPACT");
    var gc := if w.accepts(sh.child.written) then [Collecting("GC")] else [];
    var compact := if w.accepts(child.written) then [Collecting("COMPACT")] else [];
    entries := gc + compact;
    LinesOfAppend(gc, compact);
    assert LinesOf(gc) == if w.accepts(sh.child.written) then [Line(0, "GC")] else [];
    assert LinesOf(compact) == if w.accepts(child.written) then [Line(0, "COMPACT")] else [];
  }

  /** A collection asks the engine for both of its parts. */
  lemma CollectionsAskForBoth(w: World, sh: Shared)
    ensures Collect(w, sh).child.sent == sh.child.sent
      + (if w.accepts(sh.child.written) then [Line(0, "GC")] else [])
      + (if w.accepts(Dispatch(w, sh.child, 0, "GC").0.written) then [Line(0, "COMPACT")] else [])
  {
    hide Dispatch, AnswersAt, Brought;
    DispatchIsAnswered(w, sh.child, 0, "GC");
    DispatchIsAnswered(w, Dispatch(w, sh.child, 0, "GC").0, 0, "COMPACT");
  }

  /** What a step relays, and for whom: the request served, if its line was written. */
  predicate RelaysNow(w: World, s: State, e: Event) {
    e.Serve? && Serves(s, e, e.client) && Passes(w, s.shared, e.client, s.workers[e.client].request)
  }

  lemma ServeStepIsAccountedFor(w: World, s: State, e: Event) returns (entries: seq<Entry>)
    requires e.Serve? && Serves(s, e, e.client)
    ensures Accounts(s.shared.child.sent, Step(w, s, e).shared.child.sent, entries)
    ensures RelaysOnly(entries, e.client, if RelaysNow(w, s, e) then [s.workers[e.client].request] else [])
  {
    hide ServeLocked, Classify, Passes, HostsOwn, IsConversion, SessionId;
    var client := e.client;
    var line := s.workers[client].request;
    ConversionsPassNothing(w, s.shared, client, line);
    if HostsOwn(line) {
      HostsOwnIsClassified(line);
      entries := [];
      NoEntries(client);
      assert s.shared.child.sent + [] == s.shared.child.sent;
    } else {
      HowItIsClassified(line);
      if IsConversion(line) {
        entries := ConversionIsAccountedFor(w, s.shared, client, line);
      } else {
        entries := RequestIsAccountedFor(w, s.shared, client, line);
      }
    }
  }

  lemma HostsOwnIsClassified(line: string)
    requires HostsOwn(line)
    ensures Classify(line).Shutdown? || Classify(line).Preview?
  {
    hide SessionId;
  }

  lemma StepIsAccountedFor(w: World, s: State, e: Event) returns (entries: seq<Entry>)
    ensures Accounts(s.shared.child.sent, Step(w, s, e).shared.child.sent, entries)
    ensures forall c :: RelayedFor(entries, c)
                        == if e.Serve? && e.client == c && RelaysNow(w, s, e) then [s.workers[c].request] else []
  {
    hide ServeStep, CleanUp, CollectorStep, NoteStep, RelaysNow, Lists, MutexFree, RelayedFor;
    var t := Step(w, s, e);
    assert s.shared.child.sent + [] == s.shared.child.sent;
    entries := [];
    NoEntries(0);
    if e.Serve? && Serves(s, e, e.client) {
      entries := ServeStepIsAccountedFor(w, s, e);
    } else {
      NotServing(w, s, e);
      if e.Cleanup? && t.shared != s.shared {
        entries := CleaningUpIsAccountedFor(w, s.shared, e.client, e.order);
      } else if e.Collector? && t.shared != s.shared {
        CollectingStep(w, s);
        entries := CollectingIsAccountedFor(w, s.shared);
      } else if e.Note? && e.client in s.workers {
        RelayRuns.NoteIsPrivate(s, e.client);
      }
      forall c ensures RelayedFor(entries, c) == [] { NoneRelayed(entries, c); }
    }
  }

  lemma NotServing(w: World, s: State, e: Event)
    ensures e.Serve? && !Serves(s, e, e.client) ==> Step(w, s, e) == s && !RelaysNow(w, s, e)
  {
    hide ServeStep, Passes, MutexFree;
  }

  lemma CleaningUpIsAccountedFor(w: World, sh: Shared, client: nat, order: seq<string>) returns (entries: seq<Entry>)
    ensures Accounts(sh.child.sent, CleanUp(w, sh, client, order).child.sent, entries)
    ensures forall i :: 0 <= i < |entries| ==> !entries[i].Relayed?
  {
    hide CloseAll, Depart;
    RelayRuns.DepartWritesNothing(sh, client);
    entries := ClosingIsAccountedFor(w, Depart(sh, client), client, order);
  }

  lemma CollectingStep(w: World, s: State)
    ensures CollectorStep(w, s).shared == s.shared || CollectorStep(w, s).shared == Collect(w, s.shared)
  {
    hide Collect, Elapsed;
  }

  lemma {:induction false} PassedAppend(services: seq<Service>, service: Service)
    ensures Passed(services + [service]) == Passed(services) + if service.passed then [service.request] else []
  {
    assert DropLast(services + [service]) == services;
  }

  /**
    On every run the lines the engine got are accounted for: RESETs of takeovers, steps of conversions,
    CLOSEs of leaving workers, collections, and for each client, in order and word for word, exactly the
    requests it was served whose write the engine accepted.
   */
  lemma {:induction false} EngineGetsTheRequests(w: World, events: seq<Event>) returns (entries: seq<Entry>)
    ensures Accounts([], Run(w, START, events).shared.child.sent, entries)
    ensures forall c :: RelayedFor(entries, c) == Passed(Services(w, events, c))
  {
    hide Step, Serves, Passes, RelaysNow;
    if events == [] {
      entries := [];
      assert [] + LinesOf([]) == [];
    } else {
      var before := EngineGetsTheRequests(w, DropLast(events));
      var s := Run(w, START, DropLast(events));
      var more := StepIsAccountedFor(w, s, Last(events));
      LinesOfAppend(before, more);
      entries := before + more;
      forall c ensures RelayedFor(entries, c) == Passed(Services(w, events, c)) {
        RelayedForAppend(before, more, c);
        OneMoreService(w, events, c);
      }
    }
  }

  lemma OneMoreService(w: World, events: seq<Event>, c: nat)
    requires events != []
    ensures var s := Run(w, START, DropLast(events)); var e := Last(events);
      Passed(Services(w, events, c)) == Passed(Services(w, DropLast(events), c))
        + if e.Serve? && e.client == c && RelaysNow(w, s, e) then [s.workers[c].request] else []
  {
    hide Run, Passes, Passed;
    var s := Run(w, START, DropLast(events));
    if Serves(s, Last(events), c) {
      var request := s.workers[c].request;
      PassedAppend(Services(w, DropLast(events), c), Service(request, Passes(w, s.shared, c, request)));
    } else {
      assert Services(w, DropLast(events), c) + [] == Services(w, DropLast(events), c);
    }
  }

  /** The input stays with its client until another client takes it or its worker is cleaned up. */
  lemma InputStaysWithItsClient(w: World, s: State, e: Event, client: nat)
    requires client != 0 && s.shared.active == client
    ensures var t := Step(w, s, e);
      t.shared.active == client || (e.Serve? && t.shared.active == e.client) || (e.Cleanup? && e.client == client)
  {
    hide ServeStep, CleanUp, CollectorStep, NoteStep, Lists, MutexFree;
    match e
    case Note(c) => if c in s.workers { RelayRuns.NoteIsPrivate(s, c); }
    case Serve(c, delivered) => if c in s.workers { ServingKeepsOrTakes(w, s, c, delivered); }
    case Cleanup(c, order) => if c in s.workers { CleaningUpKeepsTheInput(w, s.shared, c, order); }
    case Collector => CollectingKeepsTheInput(w, s);
    case _ =>
  }

  lemma ServingKeepsOrTakes(w: World, s: State, client: nat, delivered: bool)
    requires client in s.workers
    ensures var t := ServeStep(w, s, client, delivered);
      t.shared.active == s.shared.active || t.shared.active == client
  {
    hide Dispatch, ConvertKeys, Track, Forget, Classify;
    ActiveIsKept(w, s.shared, client, s.workers[client].request);
  }

  lemma ActiveIsKept(w: World, sh: Shared, client: nat, line: string)
    ensures var t := ServeLocked(w, sh, client, line).0; t.active == sh.active || t.active == client
  {
    hide Dispatch, ConvertKeys, Classify, ModeOf, IsComposingMode, KeyOf;
  }

  lemma {:induction false} CloseAllKeepsTheInput(w: World, sh: Shared, client: nat, order: seq<string>)
    ensures CloseAll(w, sh, client, order).active == sh.active
  {
    hide Dispatch;
    if order != [] { CloseAllKeepsTheInput(w, sh, client, DropLast(order)); }
  }

  lemma CleaningUpKeepsTheInput(w: World, sh: Shared, client: nat, order: seq<string>)
    ensures sh.active != client ==> CleanUp(w, sh, client, order).active == sh.active
  {
    hide CloseAll, KeyOf;
    CloseAllKeepsTheInput(w, Depart(sh, client), client, order);
  }

  lemma CollectingKeepsTheInput(w: World, s: State)
    ensures CollectorStep(w, s).shared.active == s.shared.active
  {
    hide Dispatch, Elapsed;
  }
}
