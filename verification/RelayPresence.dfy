/** A composition never outlives the connection it came from, so it cannot hold up collections for good. */
module RelayPresence {
  import opened Common
  import Decimal
  import opened Relay
  import opened RelayTrace
  import opened RelayOwnership
  import opened RelayRuns

  /** Everything in the composing set belongs to an owned session or to one of these clients. */
  ghost predicate Present(sh: Shared, clients: set<nat>) {
    forall name :: name in sh.composing ==> name in sh.owners || exists c :: c in clients && name == KeyOf(Legacy(c))
  }

  lemma ElsewhereIsPresent(sh: Shared, t: Shared, clients: set<nat>)
    requires Present(sh, clients) && t.composing <= sh.composing && sh.owners.Keys <= t.owners.Keys
    ensures Present(t, clients)
  {
    hide KeyOf;
  }

  lemma TrackingIsPresent(sh: Shared, o: Owner, response: string, clients: set<nat>)
    requires Present(sh, clients)
    requires match o case Session(id) => id in sh.owners case Legacy(client) => client in clients
    ensures Present(Track(sh, o, response), clients)
  {
    hide ModeOf, IsComposingMode, Decimal.Digits;
  }

  lemma ForgettingIsPresent(sh: Shared, id: string, clients: set<nat>)
    requires Present(sh, clients)
    ensures Present(Forget(sh, id), clients)
  {
    hide KeyOf;
  }

  lemma ScopedIsPresent(w: World, sh: Shared, client: nat, line: string, id: string, close: bool, clients: set<nat>)
    requires Present(sh, clients)
    ensures Present(ServeScoped(w, sh, client, line, id, close).0, clients)
  {
    hide Dispatch, Track, Forget, Present;
    var (sent, reply) := Send(w, Claim(sh, client, id), client, line);
    ElsewhereIsPresent(sh, sent, clients);
    if reply.Some? {
      TrackingIsPresent(sent, Session(id), reply.value, clients);
      ForgettingIsPresent(Track(sent, Session(id), reply.value), id, clients);
    }
  }

  lemma UnscopedIsPresent(w: World, sh: Shared, client: nat, line: string, r: Request, clients: set<nat>)
    requires Present(sh, clients) && client in clients
    ensures Present(ServeUnscoped(w, sh, client, line, r).0, clients)
  {
    hide Dispatch, ConvertKeys, Track, Present;
    var (taken, ok) := if r.Input? || r.Convert? then TakeInput(w, sh, client)
                       else (if r.Reset? then sh.(active := client) else sh, true);
    ElsewhereIsPresent(sh, taken, clients);
    var (child, reply) := if r.Convert? then ConvertKeys(w, taken.child, client, r.encoded)
                          else Dispatch(w, taken.child, client, line);
    ElsewhereIsPresent(sh, taken.(child := child), clients);
    if reply.Some? { TrackingIsPresent(taken.(child := child), Legacy(client), reply.value, clients); }
  }

  lemma ServingIsPresent(w: World, sh: Shared, client: nat, line: string, clients: set<nat>)
    requires Present(sh, clients) && client in clients
    ensures Present(ServeLocked(w, sh, client, line).0, clients)
  {
    hide Classify, ServeScoped, ServeUnscoped, Present;
    match Classify(line)
    case Scoped(id, close) => ScopedIsPresent(w, sh, client, line, id, close, clients);
    case r => UnscopedIsPresent(w, sh, client, line, r, clients);
  }

  /** A leaving client takes its own entry along. */
  lemma DepartingIsPresent(sh: Shared, client: nat, clients: set<nat>)
    requires Present(sh, clients)
    ensures Present(Depart(sh, client), clients - {client})
  {
    hide Decimal.Digits;
    var t := Depart(sh, client);
    forall name | name in t.composing && name !in t.owners
      ensures exists c :: c in clients - {client} && name == KeyOf(Legacy(c))
    {
      var c :| c in clients && name == KeyOf(Legacy(c));
      assert c in clients - {client};
    }
  }

  lemma {:induction false} ClosingIsPresent(w: World, sh: Shared, client: nat, order: seq<string>, clients: set<nat>)
    requires Present(sh, clients)
    ensures Present(CloseAll(w, sh, client, order), clients)
  {
    hide Dispatch, Forget, Present;
    if order != [] {
      var before := CloseAll(w, sh, client, DropLast(order));
      ClosingIsPresent(w, sh, client, DropLast(order), clients);
      var sent := Send(w, before, client, CloseLine(Last(order))).0;
      ElsewhereIsPresent(before, sent, clients);
      ForgettingIsPresent(sent, Last(order), clients);
    }
  }

  lemma CollectingIsPresent(w: World, s: State, clients: set<nat>)
    requires Present(s.shared, clients)
    ensures Present(CollectorStep(w, s).shared, clients)
  {
    hide Dispatch, Elapsed, Present;
    ElsewhereIsPresent(s.shared, CollectorStep(w, s).shared, clients);
  }

  lemma ServeStepIsPresent(w: World, s: State, client: nat, delivered: bool)
    requires Present(s.shared, s.workers.Keys) && client in s.workers
    ensures var t := ServeStep(w, s, client, delivered); Present(t.shared, t.workers.Keys)
  {
    hide Classify, ServeLocked, Present;
    ServingIsPresent(w, s.shared, client, s.workers[client].request, s.workers.Keys);
    assert ServeStep(w, s, client, delivered).workers.Keys == s.workers.Keys;
  }

  lemma MoreClientsArePresent(sh: Shared, clients: set<nat>, more: set<nat>)
    requires Present(sh, clients) && clients <= more
    ensures Present(sh, more)
  {
    hide KeyOf;
    forall name | name in sh.composing && name !in sh.owners ensures exists c :: c in more && name == KeyOf(Legacy(c)) {
      var c :| c in clients && name == KeyOf(Legacy(c));
      assert c in more;
    }
  }

  lemma StepIsPresent(w: World, s: State, e: Event)
    requires Present(s.shared, s.workers.Keys)
    ensures var t := Step(w, s, e); Present(t.shared, t.workers.Keys)
  {
    hide ServeStep, CleanUp, CollectorStep, NoteStep, Lists, MutexFree, Present;
    var t := Step(w, s, e);
    match e
    case Tick(elapsed) =>
    case Connect => MoreClientsArePresent(s.shared, s.workers.Keys, t.workers.Keys);
    case Read(client, line) => assert t.workers.Keys == s.workers.Keys;
    case Note(client) => if client in s.workers { NotingKeepsWorkers(s, client); }
    case Serve(client, delivered) => if client in s.workers { ServeStepIsPresent(w, s, client, delivered); }
    case Hangup(client) => assert t.workers.Keys == s.workers.Keys;
    case Cleanup(client, order) =>
      if t != s {
        DepartingIsPresent(s.shared, client, s.workers.Keys);
        ClosingIsPresent(w, Depart(s.shared, client), client, order, s.workers.Keys - {client});
        assert t.workers.Keys == s.workers.Keys - {client};
        CleaningIsBoth(w, s.shared, client, order);
      }
    case Collector =>
      CollectingIsPresent(w, s, s.workers.Keys);
      CollectorKeepsWorkers(w, s);
  }

  lemma CleaningIsBoth(w: World, sh: Shared, client: nat, order: seq<string>)
    ensures CleanUp(w, sh, client, order) == CloseAll(w, Depart(sh, client), client, order)
  {
    hide CloseAll, Depart;
  }

  lemma NotingKeepsWorkers(s: State, client: nat)
    requires client in s.workers
    ensures NoteStep(s, client).workers.Keys == s.workers.Keys && NoteStep(s, client).shared == s.shared
  {
  }

  lemma CollectorKeepsWorkers(w: World, s: State)
    ensures CollectorStep(w, s).workers == s.workers
  {
    hide Collect, Elapsed;
  }

  lemma {:induction false} RunIsPresent(w: World, events: seq<Event>)
    ensures var s := Run(w, START, events); Present(s.shared, s.workers.Keys)
  {
    hide Step;
    if events != [] {
      RunIsPresent(w, DropLast(events));
      StepIsPresent(w, Run(w, START, DropLast(events)), Last(events));
    }
  }

  /**
    On every run, whatever composes belongs to a worker that has not finished its cleanup: to a session
    it owns, or to the client itself. With all workers ended nothing composes, and collections go on.
   */
  lemma ComposersHaveWorkers(w: World, events: seq<Event>)
    ensures var s := Run(w, START, events);
      && (forall name :: name in s.shared.composing ==>
            (name in s.shared.owners && s.shared.owners[name] in s.workers)
            || exists c :: c in s.workers.Keys && name == KeyOf(Legacy(c)))
      && (s.workers == map[] ==> s.shared.composing == {} && !s.shared.sessionComposing)
  {
    hide KeyOf, Run, Consistent, Arbitrated;
    RunIsPresent(w, events);
    RunIsSound(w, events);
    ConsistentFlag(Run(w, START, events).shared);
  }

  lemma ConsistentFlag(sh: Shared)
    requires Consistent(sh)
    ensures sh.sessionComposing == (sh.composing != {})
  {
  }
}
