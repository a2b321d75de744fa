/** The relay's globals, updated in place by the critical sections. */
module RelayHostObject {
  import opened Common
  import Decimal
  import opened KeyList
  import R = Relay
  import opened Relay

  /** One turn of waiting: a read, and for a lookup within the limit a written answer and the next turn. */
  lemma AwaitUnfolds(w: World, child: Child, n: nat)
    requires n <= MAX_LOOKUPS
    ensures var read := child.(taken := child.taken + 1); var line := w.output(child.taken);
      && (line.None? ==> Await(w, child, n) == (read, None))
      && (line.Some? && !("SERVER " <= line.value) ==> Await(w, child, n) == (read, line))
      && (line.Some? && "SERVER " <= line.value ==>
            if n == MAX_LOOKUPS then Await(w, child, n) == (read, None)
            else
              var wrote := read.(written := read.written + 1);
              Await(w, child, n) == if !w.accepts(read.written) then (wrote, None)
                                    else Await(w, wrote.(lookups := read.lookups + [w.lookup(line.value[7..])]), n + 1))
  {
  }

  class RelayHost {
    const world: World
    var sessionOwners: map<string, nat>
    var composingSessions: set<string>
    var sessionComposing: bool
    var activeInputClient: nat
    var child: Child
    var published: seq<string>
    var lastActivityTick: nat
    var gcPending: bool
    var engineActive: bool
    ghost var modes: map<Owner, bool>
    ghost var named: set<string>
    ghost var touched: set<nat>

    /** What the mutex guards, as a value. */
    ghost function View(): Shared
      reads this
    {
      Shared(sessionOwners, composingSessions, sessionComposing, activeInputClient, child, published, modes, named, touched)
    }

    constructor (world: World)
      ensures this.world == world && View() == START.shared
      ensures !gcPending && !engineActive && lastActivityTick == 0
    {
      this.world := world;
      sessionOwners, composingSessions, sessionComposing, activeInputClient := map[], {}, false, 0;
      child, published := Child(0, 0, [], [], {}), [];
      lastActivityTick, gcPending, engineActive := 0, false, false;
      modes, named, touched := map[], {}, {};
    }

    method NoteActivity(now: nat)
      modifies this`lastActivityTick, this`gcPending, this`engineActive
      ensures lastActivityTick == now && gcPending && engineActive
    {
      lastActivityTick := now;
      gcPending := true;
      engineActive := true;
    }

    method WriteAll() returns (ok: bool)
      modifies this`child
      ensures ok == world.accepts(old(child).written) && child == old(child).(written := old(child).written + 1)
    {
      ok := world.accepts(child.written);
      child := child.(written := child.written + 1);
    }

    method ReadLine() returns (line: Option<string>)
      modifies this`child
      ensures line == world.output(old(child).taken) && child == old(child).(taken := old(child).taken + 1)
    {
      line := world.output(child.taken);
      child := child.(taken := child.taken + 1);
    }

    /** Reads the response to a line just written, answering at most 64 lookups on the way. */
    method AwaitResponse() returns (reply: Option<string>)
      modifies this`child
      ensures (child, reply) == Await(world, old(child), 0)
    {
      hide Await;
      var exchanges := 0;
      while true
        invariant exchanges <= MAX_LOOKUPS && Await(world, old(child), 0) == Await(world, child, exchanges)
        decreases MAX_LOOKUPS - exchanges
      {
        AwaitUnfolds(world, child, exchanges);
        var line := ReadLine();
        if line.None? { return None; }
        if !("SERVER " <= line.value) { return line; }
        exchanges := exchanges + 1;
        if exchanges > MAX_LOOKUPS { return None; }
        var ok := WriteAll();
        if !ok { return None; }
        child := child.(lookups := child.lookups + [world.lookup(line.value[7..])]);
      }
    }

    method DispatchLine(client: nat, text: string) returns (reply: Option<string>)
      modifies this`child
      ensures View() == Send(world, old(View()), client, text).0 && reply == Send(world, old(View()), client, text).1
    {
      hide Await, TableAfter;
      var ok := WriteAll();
      if !ok { return None; }
      child := Receive(child, client, text);
      reply := AwaitResponse();
    }

    /** Replays a key list as it is decoded, so a bad list stops half way. */
    method DispatchConvertKeys(client: nat, encoded: string) returns (reply: Option<string>)
      modifies this`child
      ensures (child, reply) == ConvertKeys(world, old(child), client, encoded)
    {
      hide Decode, Progress, KeyList.Scalar, R.Dispatch, FeedKeys;
      if encoded == "" || |encoded| > MAX_BYTES { return None; }
      var last := DispatchLine(client, "RESET");
      if last.None? { return None; }
      ghost var all := HostKeys(encoded).0;
      ghost var cleared, reset := child, last.value;
      var start, keys, done := 0, [], false;
      NothingTaken(encoded);
      while start < |encoded|
        invariant Progress(encoded, start, keys) && |keys| <= MAX_KEYS && keys <= all && last.Some?
        invariant FeedKeys(world, cleared, client, all, reset)
               == FeedKeys(world, child, client, all[|keys|..], last.value)
      {
        var end := CommaFrom(encoded, start);
        if end == start {
          EmptyPieceIsBad(encoded, start);
          BadPiece(encoded, start, keys);
          FeedingEnds(world, child, client, all[|keys|..], last.value);
          return None;
        }
        if |keys| + 1 > MAX_KEYS {
          StopsAtTheLimit(encoded, start, keys);
          FeedingEnds(world, child, client, all[|keys|..], last.value);
          return None;
        }
        var scalar := HostScalar(encoded, start, end);
        if scalar.None? {
          BadPiece(encoded, start, keys);
          FeedingEnds(world, child, client, all[|keys|..], last.value);
          return None;
        }
        GoodPiece(encoded, start, keys, scalar.value);
        AcceptsThePiece(encoded, end + 1, keys, scalar.value);
        ghost var before, lastBefore := child, last.value;
        FeedingContinues(world, before, client, all[|keys|..], lastBefore);
        last := DispatchLine(client, "KEY " + Decimal.Digits(scalar.value));
        if last.None? { return None; }
        assert all[|keys|..][1..] == all[|keys| + 1..];
        keys := keys + [scalar.value];
        start := end + 1;
      }
      AllTaken(encoded, start, keys);
      FeedingEnds(world, child, client, all[|keys|..], last.value);
      if "STATE candidate " <= last.value || "STATE registration " <= last.value { return last; }
      reply := DispatchLine(client, "CONTROL CONVERT");
    }

    // -------------------------------------------------------------------------
    // One request.

    method ClaimSession(client: nat, id: string)
      modifies this`sessionOwners, this`named
      ensures View() == Claim(old(View()), client, id)
    {
      sessionOwners := sessionOwners[id := client];
      named := named + {id};
    }

    /** Composition state and mirror follow every published STATE line. */
    method TrackReply(ghost o: Owner, stateOwner: string, response: string)
      requires stateOwner == KeyOf(o)
      modifies this`composingSessions, this`sessionComposing, this`published, this`modes, this`touched
      ensures View() == Track(old(View()), o, response)
    {
      hide ModeOf, IsComposingMode, KeyOf;
      if "STATE " <= response {
        var composing := IsComposingMode(ModeOf(response));
        composingSessions := if composing then composingSessions + {stateOwner} else composingSessions - {stateOwner};
        sessionComposing := composingSessions != {};
        published := published + [response];
        modes := modes[o := composing];
        if o.Legacy? { touched := touched + {o.client}; }
      }
    }

    method ForgetSession(id: string)
      modifies this`sessionOwners, this`composingSessions, this`sessionComposing, this`modes
      ensures View() == Forget(old(View()), id)
    {
      sessionOwners := sessionOwners - {id};
      composingSessions := composingSessions - {id};
      sessionComposing := composingSessions != {};
      modes := modes - {Session(id)};
    }

    method TakeOverInput(client: nat) returns (ok: bool)
      modifies this`child, this`activeInputClient
      ensures (View(), ok) == TakeInput(world, old(View()), client)
    {
      hide R.Dispatch;
      if activeInputClient == client { return true; }
      var ignored := DispatchLine(client, "RESET");
      if ignored.None? { return false; }
      activeInputClient := client;
      ok := true;
    }

    method ServeScopedRequest(client: nat, line: string, id: string) returns (reply: Option<string>)
      modifies this
      ensures (View(), reply)
           == ServeScoped(world, old(View()), client, line, id, line == "SESSION " + id + " CLOSE")
    {
      hide R.Dispatch, Track, Forget, Claim;
      ClaimSession(client, id);
      reply := DispatchLine(client, line);
      if reply.None? { return; }
      TrackReply(Session(id), id, reply.value);
      if line == "SESSION " + id + " CLOSE" { ForgetSession(id); }
    }

    method ServeUnscopedRequest(client: nat, line: string, r: Request) returns (reply: Option<string>)
      modifies this
      ensures (View(), reply) == ServeUnscoped(world, old(View()), client, line, r)
    {
      hide R.Dispatch, Track, TakeInput, ConvertKeys;
      if r.Reset? && activeInputClient != 0 && (activeInputClient != client || sessionComposing) {
        return Some(IGNORED_RESET);
      }
      if r.Input? || r.Convert? {
        var ok := TakeOverInput(client);
        if !ok { return None; }
      } else if r.Reset? {
        activeInputClient := client;
      }
      if r.Convert? {
        reply := DispatchConvertKeys(client, r.encoded);
      } else {
        reply := DispatchLine(client, line);
      }
      if reply.Some? { TrackReply(Legacy(client), LEGACY + Decimal.Digits(client), reply.value); }
    }

    /** A request that needs the engine; `sessions` are the sessions this connection has used. */
    method ServeRequest(client: nat, line: string, sessions: set<string>)
      returns (reply: Option<string>, used: set<string>)
      modifies this
      ensures (View(), reply) == ServeLocked(world, old(View()), client, line)
      ensures used == if Classify(line).Scoped? then sessions + {Classify(line).id} else sessions
    {
      hide ServeScoped, ServeUnscoped, SessionId;
      used := sessions;
      var r := Classify(line);
      if r.Scoped? {
        used := used + {r.id};
        reply := ServeScopedRequest(client, line, r.id);
      } else {
        reply := ServeUnscopedRequest(client, line, r);
      }
    }

    // -------------------------------------------------------------------------
    // The end of a connection, and the idle collector.

    method DepartClient(client: nat)
      modifies this`activeInputClient, this`composingSessions, this`sessionComposing, this`modes, this`touched
      ensures View() == Depart(old(View()), client)
    {
      if activeInputClient == client { activeInputClient := 0; }
      composingSessions := composingSessions - {LEGACY + Decimal.Digits(client)};
      sessionComposing := composingSessions != {};
      modes := modes - {Legacy(client)};
      touched := touched + {client};
    }

    method CloseIfOwned(client: nat, id: string)
      modifies this
      ensures View() == CloseOwned(world, old(View()), client, id)
    {
      hide R.Dispatch, Forget;
      if id !in sessionOwners || sessionOwners[id] != client { return; }
      var ignored := DispatchLine(client, "SESSION " + id + " CLOSE");
      ForgetSession(id);
    }

    /** Runs through the sessions in an order the container chooses. */
    method CleanUpClient(client: nat, sessions: set<string>) returns (ghost order: seq<string>)
      modifies this
      ensures Lists(order, sessions) && View() == CleanUp(world, old(View()), client, order)
    {
      hide CloseOwned, Depart;
      ghost var start := View();
      DepartClient(client);
      order := [];
      var rest := sessions;
      while rest != {}
        invariant rest <= sessions && (set id | id in order) == sessions - rest
        invariant View() == CloseAll(world, Depart(start, client), client, order)
        decreases rest
      {
        var id :| id in rest;
        rest := rest - {id};
        CloseIfOwned(client, id);
        Appended(order, id);
        order := order + [id];
      }
    }

    /** The collector's critical section; `now` and `stamp` are what the two reads of its check brought. */
    method CollectIfIdle(now: nat, stamp: nat) returns (collected: bool)
      modifies this
      ensures collected <==> Elapsed(now, stamp) >= world.idle && !old(sessionComposing) && old(gcPending)
      ensures View() == if collected then Collect(world, old(View())) else old(View())
      ensures lastActivityTick == old(lastActivityTick) && engineActive == old(engineActive)
      ensures gcPending == (old(gcPending) && !collected)
    {
      hide R.Dispatch;
      if Elapsed(now, stamp) < world.idle || sessionComposing || !gcPending { return false; }
      gcPending := false;
      var ignored := DispatchLine(0, "GC");
      ignored := DispatchLine(0, "COMPACT");
      collected := true;
    }
  }

  lemma Appended(order: seq<string>, id: string)
    ensures (set x | x in order + [id]) == (set x | x in order) + {id}
    ensures DropLast(order + [id]) == order && Last(order + [id]) == id
  {
  }

  lemma FeedingEnds(w: World, child: Child, client: nat, keys: seq<nat>, last: string)
    ensures keys == [] ==> FeedKeys(w, child, client, keys, last) == (child, Some(last))
  {
  }

  lemma FeedingContinues(w: World, child: Child, client: nat, keys: seq<nat>, last: string)
    requires keys != []
    ensures var (next, reply) := Dispatch(w, child, client, "KEY " + Decimal.Digits(keys[0]));
      FeedKeys(w, child, client, keys, last)
        == if reply.None? then (next, None) else FeedKeys(w, next, client, keys[1..], reply.value)
  {
  }

  /** A key decoded within the limits is one of the keys the host accepts. */
  lemma AcceptsThePiece(encoded: string, start: nat, keys: seq<nat>, key: nat)
    requires encoded != "" && |encoded| <= MAX_BYTES && |keys| < MAX_KEYS
    requires Progress(encoded, start, keys + [key])
    ensures keys + [key] <= HostKeys(encoded).0
  {
    hide Decode;
  }
}
