/** Safety of the relay over all runs: every interleaving of workers, clients and the collector. */
module RelayRuns {
  import opened Common
  import opened Relay
  import opened RelayTrace
  import opened RelayOwnership

  // ---------------------------------------------------------------------------
  // The invariant.

  /** Every owner is a worker that has not finished its cleanup and knows it used the session. */
  predicate OwnersWork(s: State) {
    forall id :: id in s.shared.owners ==>
      s.shared.owners[id] in s.workers && id in s.workers[s.shared.owners[id]].sessions
  }

  predicate Numbered(s: State) {
    && s.next >= 1
    && (forall c :: c in s.workers ==> 1 <= c < s.next)
    && (s.shared.active == 0 || s.shared.active in s.workers)
    && (forall c :: c in s.shared.touched ==> 1 <= c < s.next)
  }

  /** Whoever typed last since the last RESET owns the input, unless the owner is gone or going. */
  predicate Arbitrated(s: State) {
    && Unmixed(s.shared.child.sent)
    && (s.shared.active == 0 || TypedBy(s.shared.child.sent, s.shared.active)
        || (s.shared.active in s.workers && s.workers[s.shared.active].stage == Leaving))
  }

  /** While the collector holds the mutex after its second check, nothing is composing. */
  predicate CalmWhenFound(s: State) {
    s.collector == FoundCalm ==> !s.shared.sessionComposing
  }

  predicate Sound(s: State) {
    Consistent(s.shared) && OwnersWork(s) && Numbered(s) && Arbitrated(s) && CalmWhenFound(s)
  }

  // ---------------------------------------------------------------------------
  // Serving keeps it.

  lemma ServeOwners(w: World, sh: Shared, client: nat, line: string)
    requires Consistent(sh)
    ensures var t := ServeLocked(w, sh, client, line).0;
      forall id :: id in t.owners ==>
        (id in sh.owners && t.owners[id] == sh.owners[id])
        || (Classify(line).Scoped? && id == Classify(line).id && t.owners[id] == client)
  {
    hide Consistent, Classify, ServeUnscoped, Track, Dispatch;
    match Classify(line)
    case Scoped(id, close) =>
      var (sent, reply) := Send(w, Claim(sh, client, id), client, line);
      if reply.Some? { TrackKeepsNames(sent, Session(id), reply.value); }
    case r => UnscopedKeeps(w, sh, client, line, r);
  }

  /** What a scoped request leaves alone. */
  lemma ScopedTypes(w: World, sh: Shared, client: nat, line: string, id: string, close: bool)
    requires Unmixed(sh.child.sent) && !IsInput(line)
    ensures var t := ServeScoped(w, sh, client, line, id, close).0;
      && t.active == sh.active && Unmixed(t.child.sent)
      && (LastTyped(t.child.sent) == LastTyped(sh.child.sent) || LastTyped(t.child.sent) == None)
  {
    hide Dispatch, Track, IsInput, LastTyped, Unmixed;
    DispatchTypes(w, sh.child, client, line);
    var (sent, reply) := Send(w, Claim(sh, client, id), client, line);
    if reply.Some? { TrackKeepsNames(sent, Session(id), reply.value); }
  }

  lemma TakeInputTypes(w: World, sh: Shared, client: nat)
    requires Unmixed(sh.child.sent) && (sh.active == client ==> TypedBy(sh.child.sent, client))
    ensures var (t, ok) := TakeInput(w, sh, client);
      && Unmixed(t.child.sent)
      && (ok ==> t.active == client && TypedBy(t.child.sent, client))
      && (!ok ==> t.active == sh.active)
      && (LastTyped(t.child.sent) == LastTyped(sh.child.sent) || LastTyped(t.child.sent) == None)
  {
    hide Dispatch, LastTyped, Unmixed;
    ResetTypes(w, sh.child, client);
  }

  /** What a request of a client that may type keeps of the engine's input, and what it leaves of it. */
  ghost predicate TypesOn(sh: Shared, client: nat, t: Shared, reply: Option<string>) {
    && Unmixed(t.child.sent)
    && (t.active == sh.active || t.active == client)
    && (t.active == client ==> TypedBy(t.child.sent, client) || reply.None?)
    && (t.active != client ==>
        LastTyped(t.child.sent) == LastTyped(sh.child.sent) || LastTyped(t.child.sent) == None)
  }

  lemma TypingTypes(w: World, sh: Shared, client: nat, line: string, r: Request)
    requires Unmixed(sh.child.sent) && (sh.active == client ==> TypedBy(sh.child.sent, client))
    requires r.Input? || r.Convert?
    ensures var (t, reply) := ServeUnscoped(w, sh, client, line, r); TypesOn(sh, client, t, reply)
  {
    hide Dispatch, LastTyped, Unmixed, ConvertKeys, IsInput, Track, TakeInput, IgnoresReset;
    TakeInputTypes(w, sh, client);
    var (taken, ok) := TakeInput(w, sh, client);
    if ok {
      if r.Convert? { ConvertKeysTypes(w, taken.child, client, r.encoded); }
      DispatchTypes(w, taken.child, client, line);
      var (child, reply) := if r.Convert? then ConvertKeys(w, taken.child, client, r.encoded)
                            else Dispatch(w, taken.child, client, line);
      if reply.Some? { TrackKeepsNames(taken.(child := child), Legacy(client), reply.value); }
    }
  }

  lemma UnscopedTypes(w: World, sh: Shared, client: nat, line: string, r: Request)
    requires Unmixed(sh.child.sent) && (sh.active == client ==> TypedBy(sh.child.sent, client))
    requires r.Reset? ==> line == "RESET"
    requires !r.Input? && !r.Convert? ==> !IsInput(line)
    ensures var (t, reply) := ServeUnscoped(w, sh, client, line, r); TypesOn(sh, client, t, reply)
  {
    hide Dispatch, LastTyped, Unmixed, ConvertKeys, IsInput, Track, TakeInput, IgnoresReset;
    if r.Input? || r.Convert? {
      TypingTypes(w, sh, client, line, r);
    } else {
      var taken := if r.Reset? then sh.(active := client) else sh;
      if r.Reset? { ResetTypes(w, sh.child, client); } else { DispatchTypes(w, sh.child, client, line); }
      var (child, reply) := Dispatch(w, taken.child, client, line);
      if reply.Some? { TrackKeepsNames(taken.(child := child), Legacy(client), reply.value); }
    }
  }

  lemma ClassifiedInput(line: string)
    ensures Classify(line).Reset? ==> line == "RESET"
    ensures !Classify(line).Input? && !Classify(line).Convert? && !Classify(line).Shutdown? && !Classify(line).Preview?
            ==> !IsInput(line)
  {
    hide SessionId;
    if SessionId(line) != "" {
      SessionIdStartsWithS(line);
      StartsWithS(line);
    } else if line == "RESET" {
      KeyIsInput(0);
    } else if IsInput(line) {
    }
  }

  lemma ServeTypes(w: World, sh: Shared, client: nat, line: string)
    requires Unmixed(sh.child.sent) && (sh.active == client ==> TypedBy(sh.child.sent, client))
    requires !Classify(line).Shutdown? && !Classify(line).Preview?
    ensures var (t, reply) := ServeLocked(w, sh, client, line);
      && Unmixed(t.child.sent)
      && (t.active == sh.active || t.active == client)
      && (t.active == client ==> TypedBy(t.child.sent, client) || reply.None?)
      && (t.active != client ==>
          LastTyped(t.child.sent) == LastTyped(sh.child.sent) || LastTyped(t.child.sent) == None)
  {
    hide Classify, ServeScoped, ServeUnscoped, LastTyped, Unmixed, IsInput;
    ClassifiedInput(line);
    match Classify(line)
    case Scoped(id, close) => ScopedTypes(w, sh, client, line, id, close);
    case r => UnscopedTypes(w, sh, client, line, r);
  }

  lemma ServeTouches(w: World, sh: Shared, client: nat, line: string)
    ensures ServeLocked(w, sh, client, line).0.touched <= sh.touched + {client}
  {
    hide Classify, Dispatch, ConvertKeys, IgnoresReset, ModeOf, IsComposingMode, KeyOf;
  }

  lemma {:induction false} CloseAllTouchesNothing(w: World, sh: Shared, client: nat, order: seq<string>)
    ensures CloseAll(w, sh, client, order).touched == sh.touched
  {
    hide Dispatch;
    if order != [] { CloseAllTouchesNothing(w, sh, client, DropLast(order)); }
  }

  lemma ServeStepIsSound(w: World, s: State, client: nat, delivered: bool)
    requires Sound(s) && client in s.workers && s.workers[client].stage == Ready && MutexFree(s)
    ensures Sound(ServeStep(w, s, client, delivered))
  {
    hide Consistent, ServeLocked, Classify, Unmixed, LastTyped;
    var worker := s.workers[client];
    var line := worker.request;
    if !Classify(line).Shutdown? && !Classify(line).Preview? {
      ServeKeeps(w, s.shared, client, line);
      ServeOwners(w, s.shared, client, line);
      ServeTypes(w, s.shared, client, line);
      ServeTouches(w, s.shared, client, line);
    }
  }

  // ---------------------------------------------------------------------------
  // Cleaning up keeps it.

  lemma CloseLineIsNoInput(id: string)
    ensures !IsInput(CloseLine(id)) && CloseLine(id) != "RESET"
  {
    hide IsInput;
    assert "SESSION " <= CloseLine(id);
    StartsWithS(CloseLine(id));
  }

  lemma {:induction false} CloseAllTypes(w: World, sh: Shared, client: nat, order: seq<string>)
    requires Unmixed(sh.child.sent)
    ensures var t := CloseAll(w, sh, client, order);
      && Unmixed(t.child.sent)
      && (LastTyped(t.child.sent) == LastTyped(sh.child.sent) || LastTyped(t.child.sent) == None)
  {
    hide Dispatch, LastTyped, Unmixed, IsInput;
    if order != [] {
      CloseAllTypes(w, sh, client, DropLast(order));
      CloseLineIsNoInput(Last(order));
      DispatchTypes(w, CloseAll(w, sh, client, DropLast(order)).child, client, CloseLine(Last(order)));
    }
  }

  lemma CleanupIsSound(w: World, s: State, client: nat, order: seq<string>)
    requires Sound(s) && client in s.workers && s.workers[client].stage == Leaving && MutexFree(s)
    requires Lists(order, s.workers[client].sessions)
    ensures Sound(Step(w, s, Cleanup(client, order)))
  {
    hide Consistent, CloseAll, Unmixed, LastTyped;
    CleanUpKeeps(w, s.shared, client, order);
    CloseAllTypes(w, Depart(s.shared, client), client, order);
    CloseAllTouchesNothing(w, Depart(s.shared, client), client, order);
    var t := CleanUp(w, s.shared, client, order);
    forall id | id in t.owners
      ensures t.owners[id] in s.workers - {client} && id in (s.workers - {client})[t.owners[id]].sessions
    {
      assert s.shared.owners[id] == client ==> id in (set x | x in order);
      assert s.shared.owners[id] != client;
    }
  }

  // ---------------------------------------------------------------------------
  // Every step keeps it.

  lemma CollectTypes(w: World, sh: Shared)
    requires Unmixed(sh.child.sent)
    ensures var t := Collect(w, sh);
      && Unmixed(t.child.sent)
      && (LastTyped(t.child.sent) == LastTyped(sh.child.sent) || LastTyped(t.child.sent) == None)
      && t.touched == sh.touched
  {
    hide Dispatch, LastTyped, Unmixed, IsInput;
    KeyIsInput(0);
    DispatchTypes(w, sh.child, 0, "GC");
    DispatchTypes(w, Send(w, sh, 0, "GC").0.child, 0, "COMPACT");
  }

  lemma CollectIsSound(w: World, s: State, t: State)
    requires Sound(s) && t == s.(collector := Asleep, clock := t.clock, log := t.log, shared := Collect(w, s.shared))
    ensures Sound(t)
  {
    hide Consistent, Collect, Unmixed, LastTyped;
    CollectKeeps(w, s.shared);
    CollectTypes(w, s.shared);
  }

  lemma SoundElsewhere(s: State, t: State)
    requires Sound(s) && t.shared == s.shared && t.workers == s.workers && t.next == s.next
    requires t.collector == FoundCalm ==> s.collector == FoundCalm || !s.shared.sessionComposing
    ensures Sound(t)
  {
    hide Consistent, Unmixed, LastTyped;
  }

  lemma CollectorIsSound(w: World, s: State)
    requires Sound(s)
    ensures Sound(CollectorStep(w, s))
  {
    hide Sound, Collect, Elapsed;
    var t := CollectorStep(w, s);
    if s.collector == FoundCalm && s.clock.gcPending { CollectIsSound(w, s, t); } else { SoundElsewhere(s, t); }
  }

  /** A worker moves on without the mutex. */
  lemma WorkerMoves(s: State, client: nat, worker: Worker)
    requires Sound(s) && client in s.workers
    requires worker.sessions == s.workers[client].sessions
    requires s.workers[client].stage == Leaving ==> worker.stage == Leaving
    ensures Sound(WithWorker(s, client, worker))
  {
    hide Consistent, Unmixed, LastTyped;
  }

  lemma NoteIsSound(s: State, client: nat)
    requires Sound(s) && client in s.workers
    ensures Sound(NoteStep(s, client))
  {
    hide Sound;
    var worker := s.workers[client];
    match worker.stage
    case Stamped(tick) =>
      WorkerMoves(s, client, worker.(stage := Stored));
      SoundElsewhere(WithWorker(s, client, worker.(stage := Stored)), NoteStep(s, client));
    case Stored =>
      WorkerMoves(s, client, worker.(stage := Flagged));
      SoundElsewhere(WithWorker(s, client, worker.(stage := Flagged)), NoteStep(s, client));
    case Flagged =>
      WorkerMoves(s, client, worker.(stage := Ready));
      SoundElsewhere(WithWorker(s, client, worker.(stage := Ready)), NoteStep(s, client));
    case _ =>
  }

  lemma ConnectIsSound(w: World, s: State)
    requires Sound(s)
    ensures Sound(Step(w, s, Connect))
  {
    hide Consistent, Unmixed, LastTyped;
  }

  lemma StepIsSound(w: World, s: State, e: Event)
    requires Sound(s)
    ensures Sound(Step(w, s, e))
  {
    hide Sound, ServeStep, NoteStep, CollectorStep, CleanUp, WithWorker, Lists, MutexFree;
    match e
    case Tick(elapsed) => SoundElsewhere(s, Step(w, s, e));
    case Connect => ConnectIsSound(w, s);
    case Read(client, line) =>
      if client in s.workers && s.workers[client].stage == Reading {
        WorkerMoves(s, client, s.workers[client].(stage := Stamped(s.clock.now), request := line));
      }
    case Note(client) => if client in s.workers { NoteIsSound(s, client); }
    case Serve(client, delivered) =>
      if client in s.workers && s.workers[client].stage == Ready && MutexFree(s) {
        ServeStepIsSound(w, s, client, delivered);
      }
    case Hangup(client) =>
      if client in s.workers && s.workers[client].stage == Reading {
        WorkerMoves(s, client, s.workers[client].(stage := Leaving));
      }
    case Cleanup(client, order) =>
      if client in s.workers && s.workers[client].stage == Leaving && MutexFree(s)
         && Lists(order, s.workers[client].sessions) {
        CleanupIsSound(w, s, client, order);
      }
    case Collector => CollectorIsSound(w, s);
  }

  lemma {:induction false} RunIsSound(w: World, events: seq<Event>)
    ensures Sound(Run(w, START, events))
  {
    hide Step;
    if events == [] {
      assert LastTyped([]) == None;
    } else {
      RunIsSound(w, DropLast(events));
      StepIsSound(w, Run(w, START, DropLast(events)), Last(events));
    }
  }

  // ---------------------------------------------------------------------------
  // Session ownership.

  /**
    Whenever the mutex is free, on every run: the composing flag says whether the composing set is
    empty, every entry of it that is not the name of an unscoped client has an owner, and every owner
    is a worker that has not finished its cleanup.
   */
  lemma SessionOwnership(w: World, events: seq<Event>)
    ensures var s := Run(w, START, events);
      && s.shared.sessionComposing == (s.shared.composing != {})
      && (forall id :: id in s.shared.composing ==>
            id in s.shared.owners || exists c :: 1 <= c < s.next && id == KeyOf(Legacy(c)))
      && (forall id :: id in s.shared.owners ==> s.shared.owners[id] in s.workers)
  {
    hide KeyOf;
    RunIsSound(w, events);
  }

  /** Closing one session writes its CLOSE, or nothing when it is owned by somebody else or by nobody. */
  lemma ClosingWritesOneLine(w: World, sh: Shared, client: nat, id: string)
    ensures var sent := CloseOwned(w, sh, client, id).child.sent;
      sent == sh.child.sent
      || (id in sh.owners && sh.owners[id] == client && sent == sh.child.sent + [Line(client, CloseLine(id))])
  {
    hide Dispatch, TableAfter;
    DispatchWritesOnce(w, sh.child, client, CloseLine(id));
  }

  /** Cleanup writes nothing but CLOSE, and only for sessions the leaving worker still owns. */
  lemma {:induction false} CleanupClosesOnlyItsOwn(w: World, sh: Shared, client: nat, order: seq<string>, k: nat)
    requires Consistent(sh)
    requires |sh.child.sent| <= k < |CleanUp(w, sh, client, order).child.sent|
    ensures exists id :: id in sh.owners && sh.owners[id] == client
                         && CleanUp(w, sh, client, order).child.sent[k] == Line(client, CloseLine(id))
  {
    hide Consistent, CloseOwned, Depart, CloseLine;
    DepartKeeps(sh, client);
    DepartWritesNothing(sh, client);
    if order != [] {
      var front, id := DropLast(order), Last(order);
      var before := CloseAll(w, Depart(sh, client), client, front);
      CloseAllKeeps(w, Depart(sh, client), client, front);
      ClosingWritesOneLine(w, before, client, id);
      if k < |before.child.sent| {
        CleanupClosesOnlyItsOwn(w, sh, client, front, k);
      } else {
        assert id in sh.owners && sh.owners[id] == client;
      }
    }
  }

  lemma DepartWritesNothing(sh: Shared, client: nat)
    ensures Depart(sh, client).child == sh.child && Depart(sh, client).owners == sh.owners
  {
  }

  /** A session resumed on another connection survives the cleanup of the old one. */
  lemma TransferredSessionSurvives(w: World, sh: Shared, client: nat, order: seq<string>, id: string)
    requires Consistent(sh) && id in sh.owners && sh.owners[id] != client && id != KeyOf(Legacy(client))
    ensures var t := CleanUp(w, sh, client, order);
      id in t.owners && t.owners[id] == sh.owners[id] && (id in t.composing <==> id in sh.composing)
  {
    hide Consistent, CloseAll;
    CleanUpKeeps(w, sh, client, order);
    DepartKeeps(sh, client);
    OthersStayComposing(w, Depart(sh, client), client, order, id);
  }

  lemma {:induction false} OthersStayComposing(w: World, sh: Shared, client: nat, order: seq<string>, id: string)
    requires Consistent(sh) && id in sh.owners && sh.owners[id] != client
    ensures id in CloseAll(w, sh, client, order).composing <==> id in sh.composing
  {
    hide Consistent, Dispatch;
    if order != [] {
      CloseAllKeeps(w, sh, client, DropLast(order));
      OthersStayComposing(w, sh, client, DropLast(order), id);
    }
  }

  // ---------------------------------------------------------------------------
  // No leaked checkpoints.

  lemma ServeStepHolds(w: World, s: State, client: nat, delivered: bool)
    requires Held(s.shared) && client in s.workers
    ensures Held(ServeStep(w, s, client, delivered).shared)
  {
    hide Held, ServeLocked, Classify;
    ServeHolds(w, s.shared, client, s.workers[client].request);
  }

  lemma CollectorHolds(w: World, s: State)
    requires Held(s.shared) && Consistent(s.shared)
    ensures Held(CollectorStep(w, s).shared)
  {
    hide Held, Consistent, Collect;
    CollectKeeps(w, s.shared);
  }

  lemma StepHolds(w: World, s: State, e: Event)
    requires Reaches(w) && Sound(s) && Held(s.shared)
    ensures Held(Step(w, s, e).shared)
  {
    hide Held, ServeStep, NoteStep, CollectorStep, CleanUp, Consistent, OwnersWork, Numbered, Arbitrated, Reaches;
    match e
    case Tick(elapsed) =>
    case Connect =>
    case Read(client, line) =>
    case Note(client) => if client in s.workers { NoteIsPrivate(s, client); }
    case Serve(client, delivered) => if client in s.workers { ServeStepHolds(w, s, client, delivered); }
    case Hangup(client) =>
    case Cleanup(client, order) => CleanUpHolds(w, s.shared, client, order);
    case Collector => CollectorHolds(w, s);
  }

  lemma NoteIsPrivate(s: State, client: nat)
    requires client in s.workers
    ensures NoteStep(s, client).shared == s.shared
  {
  }

  lemma {:induction false} RunHolds(w: World, events: seq<Event>)
    requires Reaches(w)
    ensures Held(Run(w, START, events).shared)
  {
    hide Step, Sound, Reaches;
    if events != [] {
      RunHolds(w, DropLast(events));
      RunIsSound(w, DropLast(events));
      StepHolds(w, Run(w, START, DropLast(events)), Last(events));
    }
  }

  /**
    As long as dispatches reach the engine, every scoped session it holds has an owner in the host;
    so once every worker has finished, the engine holds no scoped session.
   */
  lemma NoLeakedCheckpoints(w: World, events: seq<Event>)
    requires Reaches(w)
    ensures var s := Run(w, START, events);
      && (forall id :: id in s.shared.child.table && id != "legacy" ==> id in s.shared.owners)
      && (s.workers == map[] ==> s.shared.owners == map[] && s.shared.child.table <= {"legacy"})
  {
    hide Reaches, ValidId, Consistent, Arbitrated;
    RunHolds(w, events);
    RunIsSound(w, events);
    var s := Run(w, START, events);
    if s.workers == map[] { NobodyOwns(s); }
  }

  lemma NobodyOwns(s: State)
    requires OwnersWork(s) && s.workers == map[]
    ensures s.shared.owners == map[]
  {
    assert forall id :: id !in s.shared.owners;
  }

  // ---------------------------------------------------------------------------
  // Legacy clients never mix.

  /**
    In everything the engine ever receives, a RESET lies between any two unscoped KEY or CONTROL
    lines of different pipe clients.
   */
  lemma LegacyClientsNeverMix(w: World, events: seq<Event>, i: nat, j: nat)
    requires var sent := Run(w, START, events).shared.child.sent;
      i < j < |sent| && IsInput(sent[i].text) && IsInput(sent[j].text) && sent[i].client != sent[j].client
    ensures var sent := Run(w, START, events).shared.child.sent;
      exists k :: i < k < j && sent[k].text == "RESET"
  {
    hide Consistent, OwnersWork, Numbered;
    RunIsSound(w, events);
    UnmixedMeans(Run(w, START, events).shared.child.sent, i, j);
  }
}
