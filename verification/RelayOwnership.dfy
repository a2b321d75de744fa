/** What every critical section of the relay keeps: ownership, the composing set, the engine's table. */
module RelayOwnership {
  import opened Common
  import Decimal
  import opened Relay
  import opened RelayTrace

  /** The entry is one that an unscoped client wrote. */
  predicate IsTouched(id: string, touched: set<nat>) {
    exists c :: c in touched && id == KeyOf(Legacy(c))
  }

  /** No session and no unscoped client share this owner's entry in the composing set. */
  predicate Unshared(o: Owner, sh: Shared) {
    match o
    case Session(id) => !IsTouched(id, sh.touched)
    case Legacy(client) => KeyOf(o) !in sh.named
  }

  predicate FlagIsSet(sh: Shared) {
    sh.sessionComposing == (sh.composing != {})
  }

  /** Every composing scoped session has an owner, and every owned session was named by a request. */
  predicate ComposersAreOwned(sh: Shared) {
    && (forall id :: id in sh.composing ==> id in sh.owners || IsTouched(id, sh.touched))
    && (forall id :: id in sh.owners ==> id in sh.named && IsWord(id))
  }

  /** Whoever was last shown mid-composition is in the composing set. */
  predicate ModesAreTracked(sh: Shared) {
    forall o :: o in sh.modes && sh.modes[o] && Unshared(o, sh) ==> KeyOf(o) in sh.composing
  }

  /** Whoever has a published mode is a session some request named or a client whose entry was written. */
  predicate OwnersAreKnown(sh: Shared) {
    forall o :: o in sh.modes ==> match o case Session(id) => id in sh.named case Legacy(client) => client in sh.touched
  }

  predicate Consistent(sh: Shared) {
    FlagIsSet(sh) && ComposersAreOwned(sh) && ModesAreTracked(sh) && OwnersAreKnown(sh)
  }

  /** Every scoped session the engine holds has an owner. */
  predicate Held(sh: Shared) {
    forall id :: id in sh.child.table ==> ValidId(id) && (id == "legacy" || id in sh.owners)
  }

  /** Every write reaches the engine, though replies may be lost. */
  ghost predicate Reaches(w: World) {
    forall n: nat :: w.accepts(n)
  }

  // ---------------------------------------------------------------------------
  // Names in the composing set.

  lemma LegacyKeysAreInjective(c: nat, d: nat)
    requires KeyOf(Legacy(c)) == KeyOf(Legacy(d))
    ensures c == d
  {
    hide Decimal.Digits;
    var a, b := Decimal.Digits(c), Decimal.Digits(d);
    assert KeyOf(Legacy(c))[|LEGACY|..] == a && KeyOf(Legacy(d))[|LEGACY|..] == b;
    Decimal.DigitsAreInjective(c, d);
  }

  /** Writing one owner's entry is not writing that of another, where entries are not shared. */
  lemma KeysDiffer(o: Owner, p: Owner, sh: Shared)
    requires o != p && Unshared(p, sh)
    requires if o.Session? then o.id in sh.named else o.client in sh.touched
    ensures KeyOf(o) != KeyOf(p)
  {
    if o.Legacy? && p.Legacy? && KeyOf(o) == KeyOf(p) { LegacyKeysAreInjective(o.client, p.client); }
  }

  // ---------------------------------------------------------------------------
  // The steps a critical section is made of.

  lemma SendingKeeps(w: World, sh: Shared, client: nat, text: string)
    requires Consistent(sh)
    ensures Consistent(Send(w, sh, client, text).0)
  {
  }

  lemma StillTouched(id: string, before: set<nat>, after: set<nat>)
    requires IsTouched(id, before) && before <= after
    ensures IsTouched(id, after)
  {
    hide KeyOf;
  }

  /** Histories only grow, so what is unshared now was unshared before. */
  lemma StillUnshared(p: Owner, before: Shared, after: Shared)
    requires Unshared(p, after) && before.named <= after.named && before.touched <= after.touched
    ensures Unshared(p, before)
  {
    hide KeyOf;
    if p.Session? && IsTouched(p.id, before.touched) { StillTouched(p.id, before.touched, after.touched); }
  }

  lemma ClaimKeeps(sh: Shared, client: nat, id: string)
    requires Consistent(sh) && IsWord(id)
    ensures Consistent(Claim(sh, client, id))
  {
    hide KeyOf;
    var t := Claim(sh, client, id);
    forall p | p in t.modes && t.modes[p] && Unshared(p, t) ensures KeyOf(p) in t.composing {
      StillUnshared(p, sh, t);
    }
    assert ModesAreTracked(t);
  }

  lemma TrackKeeps(sh: Shared, o: Owner, response: string)
    requires Consistent(sh) && (o.Session? ==> o.id in sh.owners)
    ensures Consistent(Track(sh, o, response))
  {
    hide IsComposingMode, ModeOf;
    var t := Track(sh, o, response);
    forall p | p in t.modes && t.modes[p] && Unshared(p, t) ensures KeyOf(p) in t.composing {
      StillUnshared(p, sh, t);
      if p != o && "STATE " <= response { KeysDiffer(o, p, t); }
    }
    assert ModesAreTracked(t);
    forall id | id in t.composing ensures id in t.owners || IsTouched(id, t.touched) {
      if id in sh.composing && IsTouched(id, sh.touched) { StillTouched(id, sh.touched, t.touched); }
    }
  }

  lemma ForgetKeeps(sh: Shared, id: string)
    requires Consistent(sh) && id in sh.named
    ensures Consistent(Forget(sh, id))
  {
    var t := Forget(sh, id);
    forall p | p in t.modes && t.modes[p] && Unshared(p, t) ensures KeyOf(p) in t.composing {
      StillUnshared(p, sh, t);
      KeysDiffer(Session(id), p, sh);
    }
    assert ModesAreTracked(t);
  }

  lemma DepartKeeps(sh: Shared, client: nat)
    requires Consistent(sh)
    ensures Consistent(Depart(sh, client))
  {
    var t := Depart(sh, client);
    forall p | p in t.modes && t.modes[p] && Unshared(p, t) ensures KeyOf(p) in t.composing {
      StillUnshared(p, sh, t);
      KeysDiffer(Legacy(client), p, t);
    }
    assert ModesAreTracked(t);
    forall id | id in t.composing ensures id in t.owners || IsTouched(id, t.touched) {
      if IsTouched(id, sh.touched) { StillTouched(id, sh.touched, t.touched); }
    }
  }

  // ---------------------------------------------------------------------------
  // A request.

  lemma ScopedKeeps(w: World, sh: Shared, client: nat, line: string, id: string, close: bool)
    requires Consistent(sh) && IsWord(id)
    ensures Consistent(ServeScoped(w, sh, client, line, id, close).0)
  {
    hide Consistent, Track, Forget, Dispatch;
    var claimed := Claim(sh, client, id);
    ClaimKeeps(sh, client, id);
    SendingKeeps(w, claimed, client, line);
    var (sent, reply) := Send(w, claimed, client, line);
    if reply.Some? {
      TrackKeeps(sent, Session(id), reply.value);
      var tracked := Track(sent, Session(id), reply.value);
      TrackKeepsNames(sent, Session(id), reply.value);
      ForgetKeeps(tracked, id);
    }
  }

  lemma TrackKeepsNames(sh: Shared, o: Owner, response: string)
    ensures var t := Track(sh, o, response);
      t.named == sh.named && t.owners == sh.owners && t.child == sh.child && t.active == sh.active
  {
  }

  lemma TakeInputKeeps(w: World, sh: Shared, client: nat)
    requires Consistent(sh)
    ensures Consistent(TakeInput(w, sh, client).0)
    ensures TakeInput(w, sh, client).0.owners == sh.owners
  {
    hide Dispatch;
    SendingKeeps(w, sh, client, "RESET");
  }

  lemma ChildKeeps(sh: Shared, child: Child, active: nat)
    requires Consistent(sh)
    ensures Consistent(sh.(child := child)) && Consistent(sh.(active := active))
  {
  }

  lemma UnscopedKeeps(w: World, sh: Shared, client: nat, line: string, r: Request)
    requires Consistent(sh)
    ensures Consistent(ServeUnscoped(w, sh, client, line, r).0)
    ensures ServeUnscoped(w, sh, client, line, r).0.owners == sh.owners
  {
    hide Consistent, Track, Dispatch, TakeInput, ConvertKeys, IgnoresReset;
    TakeInputKeeps(w, sh, client);
    ChildKeeps(sh, sh.child, client);
    var taken := if r.Input? || r.Convert? then TakeInput(w, sh, client).0
                 else if r.Reset? then sh.(active := client) else sh;
    var (child, reply) := if r.Convert? then ConvertKeys(w, taken.child, client, r.encoded)
                          else Dispatch(w, taken.child, client, line);
    ChildKeeps(taken, child, taken.active);
    if reply.Some? {
      TrackKeeps(taken.(child := child), Legacy(client), reply.value);
      TrackKeepsNames(taken.(child := child), Legacy(client), reply.value);
    }
  }

  lemma ServeKeeps(w: World, sh: Shared, client: nat, line: string)
    requires Consistent(sh)
    ensures Consistent(ServeLocked(w, sh, client, line).0)
  {
    hide Consistent, ServeScoped, ServeUnscoped, SessionId, IsWord;
    SessionIdIsWord(line);
    match Classify(line)
    case Scoped(id, close) => ScopedKeeps(w, sh, client, line, id, close);
    case r => UnscopedKeeps(w, sh, client, line, r);
  }

  // ---------------------------------------------------------------------------
  // The end of a worker.

  lemma CloseOwnedKeeps(w: World, sh: Shared, client: nat, id: string)
    requires Consistent(sh)
    ensures Consistent(CloseOwned(w, sh, client, id))
  {
    hide Dispatch, Forget;
    SendingKeeps(w, sh, client, CloseLine(id));
    if id in sh.owners { ForgetKeeps(Send(w, sh, client, CloseLine(id)).0, id); }
  }

  /** After the loop no listed session has this owner, and no other owner changed. */
  lemma {:induction false} CloseAllKeeps(w: World, sh: Shared, client: nat, order: seq<string>)
    requires Consistent(sh)
    ensures var t := CloseAll(w, sh, client, order);
      && Consistent(t) && t.active == sh.active
      && (forall id :: id in t.owners <==> id in sh.owners && !(sh.owners[id] == client && id in order))
      && (forall id :: id in t.owners ==> t.owners[id] == sh.owners[id])
  {
    hide Consistent, Dispatch;
    if order != [] {
      CloseAllKeeps(w, sh, client, DropLast(order));
      CloseOwnedKeeps(w, CloseAll(w, sh, client, DropLast(order)), client, Last(order));
      assert order == DropLast(order) + [Last(order)];
    }
  }

  lemma CleanUpKeeps(w: World, sh: Shared, client: nat, order: seq<string>)
    requires Consistent(sh)
    ensures var t := CleanUp(w, sh, client, order);
      && Consistent(t) && t.active == (if sh.active == client then 0 else sh.active)
      && (forall id :: id in t.owners <==> id in sh.owners && !(sh.owners[id] == client && id in order))
      && (forall id :: id in t.owners ==> t.owners[id] == sh.owners[id])
  {
    hide Consistent, CloseAll;
    DepartKeeps(sh, client);
    CloseAllKeeps(w, Depart(sh, client), client, order);
  }

  // ---------------------------------------------------------------------------
  // The engine's table.

  lemma SendingHolds(w: World, sh: Shared, client: nat, line: string)
    requires Held(sh) && (SessionId(line) == "" || SessionId(line) in sh.owners)
    ensures Held(Send(w, sh, client, line).0)
  {
    hide ValidId, TableAfter, SessionId, Dispatch;
    DispatchWritesOnce(w, sh.child, client, line);
    if SessionId(line) == "" { UnscopedTable(sh.child.table, line); } else { ScopedTable(sh.child.table, line); }
  }

  lemma SendingCloseDrops(w: World, sh: Shared, client: nat, id: string)
    requires Held(sh) && IsWord(id) && w.accepts(sh.child.written)
    ensures id !in Send(w, sh, client, CloseLine(id)).0.child.table
  {
    hide ValidId, TableAfter, SessionId, Dispatch;
    DispatchWritesOnce(w, sh.child, client, CloseLine(id));
    CloseLineIsScoped(id);
    ScopedTable(sh.child.table, CloseLine(id));
  }

  lemma ForgettingHolds(sh: Shared, id: string)
    requires Held(sh) && id !in sh.child.table
    ensures Held(Forget(sh, id))
  {
  }

  lemma RepliedIsNotLost(w: World, child: Child, client: nat, text: string)
    ensures Dispatch(w, child, client, text).1.Some? ==> w.accepts(child.written)
  {
  }

  lemma ScopedHolds(w: World, sh: Shared, client: nat, line: string, close: bool)
    requires Held(sh) && SessionId(line) != "" && close == (line == CloseLine(SessionId(line)))
    ensures Held(ServeScoped(w, sh, client, line, SessionId(line), close).0)
  {
    hide Dispatch, Track, SessionId, ValidId, IsWord;
    var id := SessionId(line);
    var claimed := Claim(sh, client, id);
    SendingHolds(w, claimed, client, line);
    var (sent, reply) := Send(w, claimed, client, line);
    if reply.Some? {
      RepliedIsNotLost(w, claimed.child, client, line);
      TrackKeepsNames(sent, Session(id), reply.value);
      if close {
        SessionIdIsWord(line);
        SendingCloseDrops(w, claimed, client, id);
        ForgettingHolds(Track(sent, Session(id), reply.value), id);
      }
    }
  }

  lemma {:induction false} FeedingHolds(w: World, sh: Shared, client: nat, keys: seq<nat>, last: string)
    requires Held(sh)
    ensures Held(sh.(child := FeedKeys(w, sh.child, client, keys, last).0))
    decreases |keys|
  {
    hide Dispatch, Held;
    if keys != [] {
      var text := "KEY " + Decimal.Digits(keys[0]);
      KeyLineIsUnscoped(keys[0]);
      SendingHolds(w, sh, client, text);
      var (next, reply) := Dispatch(w, sh.child, client, text);
      if reply.Some? { FeedingHolds(w, sh.(child := next), client, keys[1..], reply.value); }
    }
  }

  lemma KeyLineIsUnscoped(n: nat)
    ensures SessionId("KEY " + Decimal.Digits(n)) == ""
    ensures SessionId("RESET") == "" && SessionId("CONTROL CONVERT") == "" && SessionId("GC") == "" && SessionId("COMPACT") == ""
  {
    hide Decimal.Digits;
    assert ("KEY " + Decimal.Digits(n))[0] == 'K';
    assert "SESSION "[0] == 'S' && "RESET"[0] == 'R' && "CONTROL CONVERT"[0] == 'C' && "GC"[0] == 'G' && "COMPACT"[0] == 'C';
  }

  lemma ConvertingHolds(w: World, sh: Shared, client: nat, encoded: string)
    requires Held(sh)
    ensures Held(sh.(child := ConvertKeys(w, sh.child, client, encoded).0))
  {
    hide Dispatch, Held, FeedKeys, KeyList.HostKeys;
    if encoded != "" && |encoded| <= KeyList.MAX_BYTES {
      KeyLineIsUnscoped(0);
      SendingHolds(w, sh, client, "RESET");
      var (cleared, reset) := Dispatch(w, sh.child, client, "RESET");
      if reset.Some? {
        var keys := KeyList.HostKeys(encoded).0;
        FeedingHolds(w, sh.(child := cleared), client, keys, reset.value);
        var fed := FeedKeys(w, cleared, client, keys, reset.value).0;
        SendingHolds(w, sh.(child := fed), client, "CONTROL CONVERT");
      }
    }
  }

  lemma HeldElsewhere(sh: Shared, t: Shared)
    requires Held(sh) && t.child == sh.child && t.owners == sh.owners
    ensures Held(t)
  {
  }

  lemma UnscopedHolds(w: World, sh: Shared, client: nat, line: string, r: Request)
    requires Held(sh) && SessionId(line) == ""
    ensures Held(ServeUnscoped(w, sh, client, line, r).0)
  {
    hide Held, Track, Dispatch, ConvertKeys, IgnoresReset, SessionId;
    KeyLineIsUnscoped(0);
    SendingHolds(w, sh, client, "RESET");
    var asked := Send(w, sh, client, "RESET").0;
    HeldElsewhere(asked, asked.(active := client));
    HeldElsewhere(sh, sh.(active := client));
    var taken := if r.Input? || r.Convert? then TakeInput(w, sh, client).0
                 else if r.Reset? then sh.(active := client) else sh;
    if r.Convert? { ConvertingHolds(w, taken, client, r.encoded); }
    SendingHolds(w, taken, client, line);
    var (child, reply) := if r.Convert? then ConvertKeys(w, taken.child, client, r.encoded)
                          else Dispatch(w, taken.child, client, line);
    if reply.Some? {
      TrackKeepsNames(taken.(child := child), Legacy(client), reply.value);
      HeldElsewhere(taken.(child := child), Track(taken.(child := child), Legacy(client), reply.value));
    }
  }

  lemma ServeHolds(w: World, sh: Shared, client: nat, line: string)
    requires Held(sh)
    ensures Held(ServeLocked(w, sh, client, line).0)
  {
    hide Held, ServeScoped, ServeUnscoped, SessionId;
    var r := Classify(line);
    if r.Scoped? {
      ScopedHolds(w, sh, client, line, r.close);
    } else if SessionId(line) == "" {
      UnscopedHolds(w, sh, client, line, r);
    } else {
      SessionIdStartsWithS(line);
      StartsWithS(line);
    }
  }

  lemma {:induction false} CloseAllHolds(w: World, sh: Shared, client: nat, order: seq<string>)
    requires Reaches(w) && Held(sh) && Consistent(sh)
    ensures Held(CloseAll(w, sh, client, order))
  {
    hide Held, Dispatch, Consistent, IsWord;
    if order != [] {
      CloseAllKeeps(w, sh, client, DropLast(order));
      CloseAllHolds(w, sh, client, DropLast(order));
      var t := CloseAll(w, sh, client, DropLast(order));
      var id := Last(order);
      if id in t.owners && t.owners[id] == client {
        OwnedIsWord(t, id);
        CloseLineIsScoped(id);
        SendingHolds(w, t, client, CloseLine(id));
        SendingCloseDrops(w, t, client, id);
        ForgettingHolds(Send(w, t, client, CloseLine(id)).0, id);
      }
    }
  }

  lemma OwnedIsWord(sh: Shared, id: string)
    requires Consistent(sh) && id in sh.owners
    ensures IsWord(id)
  {
  }

  lemma CleanUpHolds(w: World, sh: Shared, client: nat, order: seq<string>)
    requires Reaches(w) && Held(sh) && Consistent(sh)
    ensures Held(CleanUp(w, sh, client, order))
  {
    hide Held, CloseAll, Consistent, Reaches;
    DepartKeeps(sh, client);
    HeldElsewhere(sh, Depart(sh, client));
    CloseAllHolds(w, Depart(sh, client), client, order);
  }

  lemma CollectKeeps(w: World, sh: Shared)
    requires Consistent(sh)
    ensures Consistent(Collect(w, sh)) && Collect(w, sh).owners == sh.owners && Collect(w, sh).active == sh.active
    ensures Held(sh) ==> Held(Collect(w, sh))
  {
    hide Consistent, Held, Dispatch;
    KeyLineIsUnscoped(0);
    SendingKeeps(w, sh, 0, "GC");
    SendingKeeps(w, Send(w, sh, 0, "GC").0, 0, "COMPACT");
    if Held(sh) {
      SendingHolds(w, sh, 0, "GC");
      SendingHolds(w, Send(w, sh, 0, "GC").0, 0, "COMPACT");
    }
  }
}
