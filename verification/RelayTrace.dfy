/** What the relay writes to the engine: routing of lines, and unscoped clients kept apart. */
module RelayTrace {
  import opened Common
  import Decimal
  import KeyList
  import opened Relay

  // ---------------------------------------------------------------------------
  // Host and engine read the same session id off a line.

  predicate IsWord(id: string) {
    id != "" && ' ' !in id
  }

  lemma SessionIdIsWord(line: string)
    ensures SessionId(line) != "" ==> IsWord(SessionId(line))
  {
    if "SESSION " <= line {
      IndexOfFinds(line[8..], ' ');
      assert line[8..8 + IndexOf(line[8..], ' ')] == line[8..][..IndexOf(line[8..], ' ')];
    }
  }

  /** Where a line the host relays runs in the engine, if the engine takes it at all. */
  lemma HostAndEngineAgree(line: string)
    ensures SessionId(line) != "" ==> Route(line).None? || Route(line).value.0 == SessionId(line)
    ensures SessionId(line) == "" ==> Route(line).None? || Route(line).value.0 == "legacy"
    ensures SessionId(line) != "" ==>
            (Route(line).Some? <==> ValidId(SessionId(line)) && |line| > 8 + |SessionId(line)| + 1)
  {
    hide ValidId;
    NoEmptyId();
    if "SESSION " <= line {
      IndexOfFinds(line[8..], ' ');
    }
  }

  lemma NoEmptyId()
    ensures !ValidId("")
  {
  }

  function CloseLine(id: string): string {
    "SESSION " + id + " CLOSE"
  }

  lemma CloseLineIsScoped(id: string)
    requires IsWord(id)
    ensures SessionId(CloseLine(id)) == id
    ensures Route(CloseLine(id)) == if ValidId(id) then Some((id, "CLOSE")) else None
  {
    hide ValidId;
    var line := CloseLine(id);
    assert line == "SESSION " + (id + " CLOSE");
    var rest := line[8..];
    assert rest == id + " CLOSE";
    assert rest[..|id|] == id;
    IndexOfIs(rest, ' ', |id|);
    assert line[8..8 + |id|] == id;
    assert line[8 + |id| + 1..] == rest[|id| + 1..] == "CLOSE";
  }

  lemma StartsWithS(line: string)
    requires "SESSION " <= line
    ensures !IsInput(line) && line != "RESET" && line != "DIAG SESSION-COUNT" && !("KEY " <= line)
    ensures line != "SHUTDOWN" && !("PREVIEW " <= line)
  {
    assert line[0] == 'S' && line[1] == 'E';
    assert "KEY "[0] == 'K' && "CONTROL "[0] == 'C' && "RESET"[0] == 'R' && "DIAG SESSION-COUNT"[0] == 'D';
    assert "SHUTDOWN"[1] == 'H' && "PREVIEW "[0] == 'P';
  }

  lemma SessionIdStartsWithS(line: string)
    requires SessionId(line) != ""
    ensures "SESSION " <= line
  {
  }

  /** A scoped line can only bring in its own session; CLOSE takes it out. */
  lemma ScopedTable(table: set<string>, line: string)
    requires SessionId(line) != ""
    ensures TableAfter(table, line) <= table + {SessionId(line)}
    ensures line == CloseLine(SessionId(line)) ==>
            TableAfter(table, line) == if ValidId(SessionId(line)) then table - {SessionId(line)} else table
    ensures forall id :: id in TableAfter(table, line) ==> id in table || ValidId(id)
  {
    hide ValidId, Route, SessionId, IsInput;
    SessionIdStartsWithS(line);
    StartsWithS(line);
    HostAndEngineAgree(line);
    SessionIdIsWord(line);
    CloseLineIsScoped(SessionId(line));
  }

  lemma LegacyIsValid()
    ensures ValidId("legacy")
  {
  }

  /** An unscoped line can only bring in the session of unscoped lines. */
  lemma UnscopedTable(table: set<string>, line: string)
    requires SessionId(line) == ""
    ensures TableAfter(table, line) <= table + {"legacy"}
    ensures forall id :: id in TableAfter(table, line) ==> id in table || ValidId(id)
  {
    hide ValidId, Route, SessionId;
    HostAndEngineAgree(line);
    LegacyIsValid();
  }

  // ---------------------------------------------------------------------------
  // Who typed last since the last RESET.

  function LastTyped(sent: seq<Line>): Option<nat> {
    if sent == [] || Last(sent).text == "RESET" then None
    else if IsInput(Last(sent).text) then Some(Last(sent).client)
    else LastTyped(DropLast(sent))
  }

  /** Every line that types follows a RESET, or lines of the same client only. */
  predicate Unmixed(sent: seq<Line>) {
    sent == [] ||
    (Unmixed(DropLast(sent)) && (IsInput(Last(sent).text) ==> TypedBy(DropLast(sent), Last(sent).client)))
  }

  predicate TypedBy(sent: seq<Line>, client: nat) {
    LastTyped(sent) == None || LastTyped(sent) == Some(client)
  }

  lemma InputIsNoReset(text: string)
    requires IsInput(text)
    ensures text != "RESET"
  {
    assert text[0] == 'K' || text[0] == 'C';
    assert "RESET"[0] == 'R';
  }

  /** Meaning of the invariant: between two clients' input there is a RESET. */
  lemma {:induction false} TypedByNobodyElse(sent: seq<Line>, client: nat, i: nat)
    requires Unmixed(sent) && TypedBy(sent, client) && i < |sent|
    requires IsInput(sent[i].text) && sent[i].client != client
    ensures exists k :: i < k < |sent| && sent[k].text == "RESET"
    decreases |sent|
  {
    hide IsInput;
    InputIsNoReset(sent[i].text);
    var n := |sent| - 1;
    if sent[n].text != "RESET" {
      assert i < n;
      TypedByNobodyElse(DropLast(sent), client, i);
      var k :| i < k < n && DropLast(sent)[k].text == "RESET";
      assert sent[k].text == "RESET";
    } else {
      assert i < n;
    }
  }

  lemma {:induction false} UnmixedMeans(sent: seq<Line>, i: nat, j: nat)
    requires Unmixed(sent) && i < j < |sent|
    requires IsInput(sent[i].text) && IsInput(sent[j].text) && sent[i].client != sent[j].client
    ensures exists k :: i < k < j && sent[k].text == "RESET"
    decreases |sent|
  {
    hide IsInput, LastTyped;
    if j == |sent| - 1 {
      TypedByNobodyElse(DropLast(sent), sent[j].client, i);
      var k :| i < k < j && DropLast(sent)[k].text == "RESET";
      assert sent[k].text == "RESET";
    } else {
      UnmixedMeans(DropLast(sent), i, j);
      var k :| i < k < j && DropLast(sent)[k].text == "RESET";
      assert sent[k].text == "RESET";
    }
  }

  /** Answering lookups writes no request. */
  lemma {:induction false} AwaitingSendsNothing(w: World, child: Child, exchanges: nat)
    requires exchanges <= MAX_LOOKUPS
    ensures var next := Await(w, child, exchanges).0; next.sent == child.sent && next.table == child.table
    decreases MAX_LOOKUPS - exchanges
  {
    var read := child.(taken := child.taken + 1);
    match w.output(child.taken)
    case None =>
    case Some(line) =>
      if "SERVER " <= line && exchanges + 1 <= MAX_LOOKUPS && w.accepts(read.written) {
        var wrote := read.(written := read.written + 1);
        AwaitingSendsNothing(w, wrote.(lookups := read.lookups + [w.lookup(line[7..])]), exchanges + 1);
      }
  }

  /** A dispatch is written whole or not at all, and only a written one is answered. */
  lemma DispatchWritesOnce(w: World, child: Child, client: nat, text: string)
    ensures var (next, reply) := Dispatch(w, child, client, text);
      if w.accepts(child.written) then
        next.sent == child.sent + [Line(client, text)] && next.table == TableAfter(child.table, text)
      else reply.None? && next.sent == child.sent && next.table == child.table
  {
    hide Await, TableAfter;
    AwaitingSendsNothing(w, Receive(child.(written := child.written + 1), client, text), 0);
  }

  /** What one dispatch can do to the record of who typed. */
  lemma DispatchTypes(w: World, child: Child, client: nat, text: string)
    requires Unmixed(child.sent) && (IsInput(text) ==> TypedBy(child.sent, client))
    ensures var (next, reply) := Dispatch(w, child, client, text);
      && Unmixed(next.sent)
      && (!IsInput(text) ==> LastTyped(next.sent) == LastTyped(child.sent) || LastTyped(next.sent) == None)
      && (text == "RESET" && reply.Some? ==> LastTyped(next.sent) == None)
      && (IsInput(text) ==> TypedBy(next.sent, client))
  {
    hide IsInput, TableAfter, Dispatch;
    DispatchWritesOnce(w, child, client, text);
    var sent := child.sent + [Line(client, text)];
    assert DropLast(sent) == child.sent && Last(sent) == Line(client, text);
    if IsInput(text) { InputIsNoReset(text); }
  }

  lemma KeyIsInput(n: nat)
    ensures IsInput("KEY " + Decimal.Digits(n)) && IsInput("CONTROL CONVERT") && !IsInput("RESET")
    ensures !IsInput("GC") && !IsInput("COMPACT")
  {
    hide Decimal.Digits;
    assert "KEY " <= "KEY " + Decimal.Digits(n);
    assert "CONTROL " <= "CONTROL CONVERT";
    assert "RESET"[0] == 'R' && "GC"[0] == 'G' && "COMPACT"[2] == 'M';
  }

  lemma {:induction false} FeedKeysTypes(w: World, child: Child, client: nat, keys: seq<nat>, last: string)
    requires Unmixed(child.sent) && TypedBy(child.sent, client)
    ensures var next := FeedKeys(w, child, client, keys, last).0;
      Unmixed(next.sent) && TypedBy(next.sent, client)
    decreases |keys|
  {
    hide IsInput, Unmixed, TypedBy, Dispatch;
    if keys != [] {
      KeyIsInput(keys[0]);
      var text := "KEY " + Decimal.Digits(keys[0]);
      DispatchTypes(w, child, client, text);
      var (next, reply) := Dispatch(w, child, client, text);
      if reply.Some? { FeedKeysTypes(w, next, client, keys[1..], reply.value); }
    }
  }

  lemma ResetTypes(w: World, child: Child, client: nat)
    requires Unmixed(child.sent)
    ensures var (next, reply) := Dispatch(w, child, client, "RESET");
      && Unmixed(next.sent)
      && (LastTyped(next.sent) == LastTyped(child.sent) || LastTyped(next.sent) == None)
      && (reply.Some? ==> LastTyped(next.sent) == None)
  {
    KeyIsInput(0);
    DispatchTypes(w, child, client, "RESET");
  }

  lemma ConvertKeysTypes(w: World, child: Child, client: nat, encoded: string)
    requires Unmixed(child.sent) && TypedBy(child.sent, client)
    ensures var next := ConvertKeys(w, child, client, encoded).0;
      Unmixed(next.sent) && TypedBy(next.sent, client)
  {
    hide Unmixed, LastTyped, IsInput, Dispatch, FeedKeys, KeyList.HostKeys;
    if encoded != "" && |encoded| <= KeyList.MAX_BYTES {
      ResetTypes(w, child, client);
      var (cleared, reset) := Dispatch(w, child, client, "RESET");
      if reset.Some? {
        var keys := KeyList.HostKeys(encoded).0;
        FeedKeysTypes(w, cleared, client, keys, reset.value);
        KeyIsInput(0);
        DispatchTypes(w, FeedKeys(w, cleared, client, keys, reset.value).0, client, "CONTROL CONVERT");
      }
    }
  }
}
