/** Runs of the provider protocol: no key is lost or reordered, and late replies are inert. */
module ProviderRuns {
  import opened Common
  import opened Provider
  import F = Frontend
  import FrontendRuns

  datatype Event =
    | KeyArrives(a: Arrival)
    | Reply(sequence: nat, state: Option<EngineState>)
    | CompositionEnds      // the application terminates the composition
    | ContextChanges       // a composition is left behind in another context
    | KeyboardChanges(open: bool, composing: bool, reset: Option<EngineState>)

  function Apply(w: World, s: State, e: Event): State {
    match e
    case KeyArrives(a) => KeyDown(w, s, a)
    case Reply(sequence, state) => ApplyResult(w, s, sequence, state)
    case CompositionEnds => Terminate(s)
    case ContextChanges => GiveUp(s)
    case KeyboardChanges(open, composing, reset) => ChangeKeyboard(w, s, open, composing, reset)
  }

  function Run(w: World, s: State, events: seq<Event>): State {
    if events == [] then s else Apply(w, Run(w, s, DropLast(events)), Last(events))
  }

  // ---------------------------------------------------------------------------
  // Conservation.

  function Keys(resolved: seq<Resolution>): seq<Key> {
    seq(|resolved|, i requires 0 <= i < |resolved| => resolved[i].key)
  }

  /** The keys resolved followed by the keys queued are the keys that arrived, in order. */
  predicate Conserved(s: State) {
    s.arrived == Keys(s.resolved) + s.queue
  }

  lemma NothingResolved()
    ensures Keys([]) == []
  {
  }

  lemma ResolvingTheFront(s: State, key: Key, action: Action)
    requires Conserved(s) && s.queue != [] && s.queue[0] == key
    ensures Conserved(Resolve(Pop(s), key, action))
  {
    assert Keys(s.resolved + [Resolution(key, action)]) == Keys(s.resolved) + [key];
    assert s.queue == [key] + s.queue[1..];
  }

  lemma ResolvingAnArrival(s: State, key: Key, action: Action)
    requires Conserved(s) && s.queue == []
    ensures Conserved(Resolve(Arrive(s, key), key, action))
  {
    assert Keys(s.resolved + [Resolution(key, action)]) == Keys(s.resolved) + [key];
  }

  lemma {:induction false} ResolvingMany(s: State, keys: seq<Key>, action: Action)
    ensures var t := ResolveAll(s, keys, action);
      t == s.(waiting := s.waiting.(resolved := t.resolved)) && Keys(t.resolved) == Keys(s.resolved) + keys
  {
    if keys != [] {
      ResolvingMany(s, DropLast(keys), action);
      var t := ResolveAll(s, DropLast(keys), action);
      assert Keys(t.resolved + [Resolution(Last(keys), action)]) == Keys(t.resolved) + [Last(keys)];
      assert Keys(s.resolved) + DropLast(keys) + [Last(keys)] == Keys(s.resolved) + keys;
    } else {
      assert Keys(s.resolved) + [] == Keys(s.resolved);
    }
  }

  lemma {:induction false} ReplayConserves(w: World, s: State)
    requires Conserved(s)
    ensures Conserved(Replay(w, s))
    decreases |s.queue|
  {
    if s.queue != [] && s.context && !s.pending {
      var key := s.queue[0];
      if Converts(s.front, key) {
        var (t, started) := BeginConversion(w, Pop(s));
        ResolvingTheFront(s, key, Converted);
        ResolvingTheFront(s, key, Dropped);
        if !started { ReplayConserves(w, Resolve(t, key, Dropped)); }
      } else if WaitsForConversion(s.front, key) {
        var (t, started) := BeginConversion(w, s);
        ResolvingTheFront(t, key, Dropped);
        if !started { ReplayConserves(w, Resolve(Pop(t), key, Dropped)); }
      } else {
        var (front, shown) := Native(s.front, key);
        var t := Pop(s).(front := front);
        if shown.None? {
          ResolvingTheFront(s, key, Ignored);
          ReplayConserves(w, Resolve(t, key, Ignored));
        } else {
          var surface := OfSurface(shown.value);
          ResolvingTheFront(s, key, Shown(surface));
          if w.grants(s.edits) { ReplayConserves(w, ShowState(w, Resolve(t, key, Shown(surface)), surface)); }
        }
      }
    }
  }

  /** Taking any number of keys off the front and resolving them all. */
  lemma ResolvingAPrefix(s: State, t: State, n: nat, action: Action)
    requires Conserved(s) && n <= |s.queue|
    requires t.arrived == s.arrived && t.resolved == s.resolved && t.queue == s.queue[n..]
    ensures Conserved(ResolveAll(t, s.queue[..n], action))
  {
    ResolvingMany(t, s.queue[..n], action);
    assert s.queue == s.queue[..n] + s.queue[n..];
    assert Keys(s.resolved) + s.queue[..n] + s.queue[n..] == Keys(s.resolved) + s.queue;
  }

  lemma RegistrationConserves(w: World, s: State)
    requires Conserved(s)
    ensures Conserved(FeedRegistration(w, s))
  {
    hide Conserved, ResolveAll, PrintablePrefix;
    if s.queue != [] {
      var key := s.queue[0];
      if key.codepoint.Some? {
        var n := PrintablePrefix(s.queue);
        var t := Begin(w, s.WithQueue(s.queue[n..]), Typing(Written(s.queue[..n]))).0;
        ResolvingAPrefix(s, t, n, Batched);
        RegistrationControlConserves(w, s, t, n, key);
      } else {
        RegistrationControlConserves(w, s, s.WithQueue(s.queue[1..]), 1, key);
      }
    }
  }

  /** The batch as one control, if it is one, or dropped. */
  lemma RegistrationControlConserves(w: World, s: State, t: State, n: nat, key: Key)
    requires Conserved(s) && n <= |s.queue|
    requires t.arrived == s.arrived && t.resolved == s.resolved && t.queue == s.queue[n..]
    ensures Conserved(ResolveAll(t, s.queue[..n], Dropped))
    ensures Conserved(ResolveAll(Begin(w, t, Command(EditorControl(key))).0, s.queue[..n], Dropped))
    ensures Conserved(ResolveAll(Begin(w, t, Command(EditorControl(key))).0, s.queue[..n], Sent(EditorControl(key))))
  {
    hide Conserved, ResolveAll;
    ResolvingAPrefix(s, t, n, Dropped);
    ResolvingAPrefix(s, Begin(w, t, Command(EditorControl(key))).0, n, Dropped);
    ResolvingAPrefix(s, Begin(w, t, Command(EditorControl(key))).0, n, Sent(EditorControl(key)));
  }

  lemma AdoptConserves(w: World, s: State, state: EngineState)
    requires Conserved(s)
    ensures Conserved(Adopt(w, s, state))
  {
    hide Replay, FeedRegistration;
    var t := AdoptFlags(s, state);
    if t.flags.registration {
      RegistrationConserves(w, t.ShowingNothing());
    } else if t.context && w.grants(t.edits) {
      ReplayConserves(w, Display(w, t, state));
    }
  }

  lemma DispatchConserves(w: World, s: State, state: EngineState)
    requires Conserved(s) && s.queue != []
    ensures Conserved(DispatchToCandidate(w, s, state))
  {
    hide Adopt, CandidateControl;
    var key := s.queue[0];
    var control := CandidateControl(s.engineId, key);
    if control.Some? {
      var u := Begin(w, Pop(s), Asking(control)).0;
      ResolvingTheFront(s, key, Sent(control.value));
      ResolvingTheFront(s, key, Dropped);
      AdoptConserves(w, Resolve(u, key, Dropped), state);
    } else {
      AdoptConserves(w, Begin(w, s, Asking(control)).0, state);
    }
  }

  lemma ReplyConserves(w: World, s: State, sequence: nat, reply: Option<EngineState>)
    requires Conserved(s)
    ensures Conserved(ApplyResult(w, s, sequence, reply))
  {
    hide Adopt, DispatchToCandidate;
    if sequence == s.sequence && reply.Some? {
      var t := s.Answered();
      AdoptConserves(w, t, reply.value);
      if t.queue != [] { DispatchConserves(w, t, reply.value); }
    }
  }

  lemma HandlingDirectlyConserves(w: World, s: State, a: Arrival)
    requires Conserved(s) && s.queue == []
    ensures Conserved(HandleDirectly(w, s, a))
  {
    hide Keys;
    ResolvingAnArrival(s, Typed(a), Direct);
    NothingResolved();
    match a.outcome
    case PassedThrough =>
    case Swallowed =>
    case Failed =>
    case Forced =>
    case Showed(state) =>
  }

  lemma HandleNativeConserves(w: World, s: State, a: Arrival)
    requires Conserved(s) && s.queue == []
    ensures Conserved(HandleNative(w, s, a))
  {
    hide HandleDirectly;
    HandlingDirectlyConserves(w, s, a);
    ResolvingAnArrival(s, Typed(a), Converted);
    var t := BeginConversion(w, s).0;
    HandlingDirectlyConserves(w, t, a);
    var key := Key(a.virtualKey, None, a.shift, false);
    assert Conserved(Enqueue(s, key));
    var u := BeginConversion(w, Enqueue(s, key)).0;
    HandlingDirectlyConserves(w, u.(waiting := s.waiting), a.(front := s.front, outcome := Failed));
  }

  /** Starting a request moves no key. */
  lemma BeginConserves(w: World, s: State)
    requires Conserved(s)
    ensures forall ask :: var t := Begin(w, s, ask).0; Conserved(t) && t.queue == s.queue && t.arrived == s.arrived
  {
  }

  lemma HandleRegistrationConserves(w: World, s: State, a: Arrival)
    requires Conserved(s) && s.queue == []
    ensures Conserved(HandleRegistration(w, s, a))
  {
    hide HandleDirectly, Conserved, Typed, RegistrationControl, Resolve, Arrive, Begin;
    ResolvingAnArrival(s, Typed(a), Ignored);
    BeginConserves(w, s);
    HandlingDirectlyConserves(w, Begin(w, s, Command(DoQuit)).0, a);
    var control := RegistrationControl(a);
    var t := if control.Some? then Begin(w, s, Asking(control)).0 else s;
    if control.Some? { ResolvingAnArrival(t, Typed(a), Sent(control.value)); }
    HandlingDirectlyConserves(w, t, a);
    BeginConserves(w, t);
    ResolvingAnArrival(Begin(w, t, Typing(Character(a.translated))).0, Typed(a), Batched);
    HandlingDirectlyConserves(w, Begin(w, t, Typing(Character(a.translated))).0, a);
  }

  lemma HandleConserves(w: World, s: State, a: Arrival)
    requires Conserved(s) && s.queue == []
    ensures Conserved(Handle(w, s, a))
  {
    hide Conserved, HandleNative, HandleRegistration;
    HandleNativeConserves(w, s, a);
    HandleRegistrationConserves(w, s, a);
  }

  lemma EnqueueConserves(s: State, key: Key)
    requires Conserved(s)
    ensures Conserved(Enqueue(s, key))
  {
    assert s.arrived + [key] == Keys(s.resolved) + (s.queue + [key]);
  }

  lemma UnqueueConserves(w: World, s: State, key: Key)
    requires Conserved(s)
    ensures forall ask :: Conserved(Begin(w, Enqueue(s, key), ask).0.(waiting := s.waiting))
  {
  }

  lemma HandlingOnCandidateConserves(w: World, s: State, a: Arrival)
    requires Conserved(s) && s.queue == []
    ensures Conserved(HandleOnCandidate(w, s, a))
  {
    hide Handle, Conserved, Typed, CandidateControl, Resolve, Arrive, Enqueue, Begin;
    var control := CandidateControl(s.engineId, Typed(a));
    BeginConserves(w, s);
    var t := if control.Some? then Begin(w, s, Asking(control)).0 else s;
    if control.Some? { ResolvingAnArrival(t, Typed(a), Sent(control.value)); }
    HandleConserves(w, t, a);
    EnqueueConserves(t, Typed(a));
    BeginConserves(w, Enqueue(t, Typed(a)));
    UnqueueConserves(w, t, Typed(a));
    HandleConserves(w, Begin(w, Enqueue(t, Typed(a)), Command(DoCommit)).0.(waiting := t.waiting), a);
  }

  lemma KeyDownConserves(w: World, s: State, a: Arrival)
    requires Conserved(s) && (!s.pending ==> s.queue == [])
    ensures Conserved(KeyDown(w, s, a))
  {
    hide Handle, HandleOnCandidate, Enqueue;
    if s.pending && !a.ctrlG && a.virtualKey != VK_ESCAPE {
      EnqueueConserves(s, Queued(a));
    } else {
      NothingResolved();
      var t := if s.pending then CancelPending(s) else s;
      HandleConserves(w, t, a);
      HandlingOnCandidateConserves(w, t, a);
    }
  }

  // ---------------------------------------------------------------------------
  // Settling: once no request is pending, no key is left waiting.

  predicate Settled(s: State) {
    s.pending || s.queue == []
  }

  /** Every request gets its thread and every edit session is granted. */
  ghost predicate Kind(w: World) {
    forall n: nat :: w.starts(n) && w.grants(n)
  }

  /** A preedit always has its keys in the log, so a conversion never lacks input. */
  predicate Logged(front: F.State) {
    front.preedit ==> front.Kana() && front.rawKeys != []
  }

  predicate Serving(s: State) {
    s.host.window && s.context && !s.flags.registration && Logged(s.front)
  }

  predicate KindEvent(e: Event) {
    match e
    case KeyArrives(a) => Logged(a.front) && (a.outcome.Showed? ==> a.outcome.state.mode != F.RegistrationMode)
    case Reply(_, state) => state.Some? ==> state.value.mode != F.RegistrationMode
    case _ => true
  }

  predicate NoneDropped(resolved: seq<Resolution>) {
    forall i :: 0 <= i < |resolved| ==> resolved[i].action != Dropped && resolved[i].action != Batched
  }

  predicate NothingDropped(s: State) {
    NoneDropped(s.waiting.resolved)
  }

  /** What a kind run keeps besides the order of keys. */
  predicate Healthy(s: State) {
    Settled(s) && Serving(s) && NothingDropped(s)
  }

  lemma NativeStaysLogged(front: F.State, key: Key)
    requires Logged(front)
    ensures Logged(Native(front, key).0)
  {
    hide F.FeedAscii, F.Rebuild;
    if key.virtualKey == VK_BACK {
      FrontendRuns.BackspaceStaysLogged(front);
    } else if key.codepoint.Some? && ' ' <= key.codepoint.value <= '~' {
      FrontendRuns.FeedStaysLogged(front, key.codepoint.value, true);
    }
  }

  lemma {:induction false} ReplaySettles(w: World, s: State)
    requires Kind(w) && Serving(s) && NothingDropped(s)
    ensures Healthy(Replay(w, s))
    decreases |s.queue|
  {
    hide Native;
    if s.queue != [] && !s.pending {
      var key := s.queue[0];
      if !Converts(s.front, key) && !WaitsForConversion(s.front, key) {
        NativeStaysLogged(s.front, key);
        var (front, shown) := Native(s.front, key);
        var t := Pop(s).(front := front);
        if shown.None? {
          ReplaySettles(w, Resolve(t, key, Ignored));
        } else {
          var surface := OfSurface(shown.value);
          ReplaySettles(w, ShowState(w, Resolve(t, key, Shown(surface)), surface));
        }
      }
    }
  }

  lemma ReplyIsHealthy(w: World, s: State, sequence: nat, state: EngineState)
    requires Kind(w) && Healthy(s) && state.mode != F.RegistrationMode
    ensures Healthy(ApplyResult(w, s, sequence, Some(state)))
  {
    hide Replay;
    if sequence == s.sequence {
      var t := AdoptFlags(s.Answered(), state);
      ReplaySettles(w, Display(w, t, state));
    }
  }

  lemma HandlingDirectlyIsHealthy(w: World, s: State, a: Arrival)
    requires Kind(w) && Healthy(s) && KindEvent(KeyArrives(a))
    ensures Healthy(HandleDirectly(w, s, a))
  {
    match a.outcome
    case PassedThrough =>
    case Swallowed =>
    case Failed =>
    case Forced =>
    case Showed(state) =>
  }

  lemma HandlingIsHealthy(w: World, s: State, a: Arrival)
    requires Kind(w) && Healthy(s) && KindEvent(KeyArrives(a))
    ensures Healthy(Handle(w, s, a))
  {
    hide HandleDirectly;
    HandlingDirectlyIsHealthy(w, s, a);
  }

  lemma KeyDownIsHealthy(w: World, s: State, a: Arrival)
    requires Kind(w) && Healthy(s) && KindEvent(KeyArrives(a))
    ensures Healthy(KeyDown(w, s, a))
  {
    hide Handle;
    var t := if s.pending then CancelPending(s) else s;
    HandlingIsHealthy(w, t, a);
  }

  /** An empty reply to the current request comes back to a queue with keys in it. */
  predicate Strands(s: State, e: Event) {
    e.Reply? && e.sequence == s.sequence && e.state.None? && s.queue != []
  }

  /** The keyboard closes on a composition while keys wait. */
  predicate Loses(s: State, e: Event) {
    e.KeyboardChanges? && !e.open && s.host.open && Composing(s, e.composing) && s.queue != []
  }

  lemma ClosingIsHealthy(w: World, s: State, open: bool, composing: bool, reset: Option<EngineState>)
    requires Healthy(s)
    ensures Healthy(ChangeKeyboard(w, s, open, composing, reset))
  {
  }

  lemma ClosingConserves(w: World, s: State, e: Event)
    requires e.KeyboardChanges? && Conserved(s)
    ensures Conserved(Apply(w, s, e)) <==> !Loses(s, e)
  {
    var t := Apply(w, s, e);
    assert t.arrived == s.arrived && t.resolved == s.resolved;
    if Loses(s, e) { assert |t.queue| < |s.queue|; }
  }

  /** A step keeps the protocol healthy exactly unless it strands keys. */
  lemma HealthyStep(w: World, s: State, e: Event)
    requires Kind(w) && KindEvent(e) && Healthy(s)
    ensures Healthy(Apply(w, s, e)) <==> !Strands(s, e)
    ensures Settled(Apply(w, s, e)) <==> !Strands(s, e)
  {
    hide KeyDown, ChangeKeyboard, Logged, NothingDropped;
    match e
    case KeyArrives(a) => KeyDownIsHealthy(w, s, a);
    case Reply(sequence, state) =>
      if state.Some? { ReplyIsHealthy(w, s, sequence, state.value); } else { EmptyReplyStrands(w, s, sequence); }
    case CompositionEnds => AbandoningIsHealthy(s);
    case ContextChanges => AbandoningIsHealthy(s);
    case KeyboardChanges(open, composing, reset) => ClosingIsHealthy(w, s, open, composing, reset);
  }

  lemma AbandoningIsHealthy(s: State)
    requires Healthy(s)
    ensures Healthy(Abandon(s)) && Healthy(GiveUp(s))
  {
  }

  lemma EmptyReplyStrands(w: World, s: State, sequence: nat)
    requires Healthy(s)
    ensures Healthy(ApplyResult(w, s, sequence, None)) <==> !Strands(s, Reply(sequence, None))
    ensures Settled(ApplyResult(w, s, sequence, None)) <==> !Strands(s, Reply(sequence, None))
  {
  }

  /** A step from a settled state keeps the order of keys exactly unless it loses some. */
  lemma ConservedStep(w: World, s: State, e: Event)
    requires Conserved(s) && Healthy(s)
    ensures Conserved(Apply(w, s, e)) <==> !Loses(s, e)
  {
    hide KeyDown, ApplyResult, ChangeKeyboard, Loses, Logged, NothingDropped;
    match e
    case KeyArrives(a) =>
      KeyDownConserves(w, s, a);
      LosingIsClosing(s, e);
    case Reply(sequence, state) =>
      ReplyConserves(w, s, sequence, state);
      LosingIsClosing(s, e);
    case CompositionEnds =>
      NothingResolved();
      LosingIsClosing(s, e);
    case ContextChanges =>
      NothingResolved();
      LosingIsClosing(s, e);
    case KeyboardChanges(open, composing, reset) => ClosingConserves(w, s, e);
  }

  lemma LosingIsClosing(s: State, e: Event)
    ensures Loses(s, e) ==> e.KeyboardChanges?
  {
  }

  predicate NeverStrands(w: World, s: State, events: seq<Event>) {
    forall k :: 0 <= k < |events| ==> !Strands(Run(w, s, events[..k]), events[k])
  }

  predicate NeverLoses(w: World, s: State, events: seq<Event>) {
    forall k :: 0 <= k < |events| ==> !Loses(Run(w, s, events[..k]), events[k])
  }

  ghost predicate AllKind(events: seq<Event>) {
    forall i :: 0 <= i < |events| ==> KindEvent(events[i])
  }

  lemma OneMoreStep(w: World, s: State, events: seq<Event>, k: nat)
    requires k < |events|
    ensures Run(w, s, events[..k + 1]) == Apply(w, Run(w, s, events[..k]), events[k])
  {
    hide Apply;
    assert DropLast(events[..k + 1]) == events[..k];
  }

  lemma {:induction false} HealthyThroughout(w: World, s: State, events: seq<Event>, k: nat)
    requires Kind(w) && AllKind(events) && Healthy(s) && NeverStrands(w, s, events) && k <= |events|
    ensures Healthy(Run(w, s, events[..k]))
  {
    hide Kind, KindEvent, Apply, Strands, Healthy;
    if k > 0 {
      HealthyThroughout(w, s, events, k - 1);
      HealthyStep(w, Run(w, s, events[..k - 1]), events[k - 1]);
      OneMoreStep(w, s, events, k - 1);
    }
  }

  lemma {:induction false} ConservedThroughout(w: World, s: State, events: seq<Event>, k: nat)
    requires Kind(w) && AllKind(events) && Healthy(s) && NeverStrands(w, s, events) && k <= |events|
    requires Conserved(s) && NeverLoses(w, s, events)
    ensures Conserved(Run(w, s, events[..k]))
  {
    hide Kind, KindEvent, Apply, Strands, Loses, Healthy, Conserved;
    if k > 0 {
      HealthyThroughout(w, s, events, k - 1);
      ConservedThroughout(w, s, events, k - 1);
      ConservedStep(w, Run(w, s, events[..k - 1]), events[k - 1]);
      OneMoreStep(w, s, events, k - 1);
    }
  }

  /**
    A run leaves a key waiting without a pending request if and only if an empty reply to the current
    request finds keys in the queue.
   */
  lemma {:induction false} RunsStrandExactly(w: World, s: State, events: seq<Event>)
    requires Kind(w) && AllKind(events) && Healthy(s)
    ensures (forall k :: 0 <= k <= |events| ==> Settled(Run(w, s, events[..k]))) <==> NeverStrands(w, s, events)
  {
    hide Kind, KindEvent, Apply, Strands, Healthy, Run;
    if NeverStrands(w, s, events) {
      forall k | 0 <= k <= |events| ensures Settled(Run(w, s, events[..k])) {
        HealthyThroughout(w, s, events, k);
        HealthyIsSettled(Run(w, s, events[..k]));
      }
    } else {
      var k := FirstStranding(w, s, events);
      var before := events[..k];
      assert forall j :: 0 <= j < k ==> before[..j] == events[..j];
      assert events[..k][..k] == events[..k];
      HealthyThroughout(w, s, before, k);
      HealthyStep(w, Run(w, s, events[..k]), events[k]);
      OneMoreStep(w, s, events, k);
    }
  }

  lemma HealthyIsSettled(s: State)
    requires Healthy(s)
    ensures Settled(s)
  {
  }

  lemma {:induction false} FirstStranding(w: World, s: State, events: seq<Event>) returns (k: nat)
    requires !NeverStrands(w, s, events)
    ensures k < |events| && Strands(Run(w, s, events[..k]), events[k])
    ensures forall j :: 0 <= j < k ==> !Strands(Run(w, s, events[..j]), events[j])
  {
    hide Strands, Run;
    k := 0;
    while k < |events| && !Strands(Run(w, s, events[..k]), events[k])
      invariant k <= |events|
      invariant forall j :: 0 <= j < k ==> !Strands(Run(w, s, events[..j]), events[j])
    {
      k := k + 1;
    }
  }

  /**
    Where none is stranded, the keys resolved followed by the keys queued are at every moment exactly
    the keys that arrived since the last cancellation, in order, if and only if the keyboard never
    closes on a composition while keys wait.
   */
  lemma ConservationExactly(w: World, s: State, events: seq<Event>)
    requires Kind(w) && AllKind(events) && Healthy(s) && Conserved(s) && NeverStrands(w, s, events)
    ensures (forall k :: 0 <= k <= |events| ==> Conserved(Run(w, s, events[..k]))) <==> NeverLoses(w, s, events)
  {
    hide Kind, KindEvent, Apply, Strands, Loses, Healthy, Run, Conserved;
    if NeverLoses(w, s, events) {
      forall k | 0 <= k <= |events| ensures Conserved(Run(w, s, events[..k])) {
        ConservedThroughout(w, s, events, k);
      }
    } else {
      var k :| 0 <= k < |events| && Loses(Run(w, s, events[..k]), events[k]);
      HealthyThroughout(w, s, events, k);
      OneMoreStep(w, s, events, k);
      if Conserved(Run(w, s, events[..k])) { ConservedStep(w, Run(w, s, events[..k]), events[k]); }
      assert !Conserved(Run(w, s, events[..k])) || !Conserved(Run(w, s, events[..k + 1]));
    }
  }

  /**
    On every run in which requests start, replies carry a non-registration state, edits are granted
    and the keyboard does not close on waiting keys: no key waits once no request is pending, and the
    keys resolved followed by the keys queued are exactly the keys that arrived since the last
    cancellation, in order.
   */
  lemma DeferredKeysAreFifo(w: World, s: State, events: seq<Event>)
    requires Kind(w) && AllKind(events) && Conserved(s) && Healthy(s)
    requires NeverStrands(w, s, events) && NeverLoses(w, s, events)
    ensures var t := Run(w, s, events);
      && (!t.pending ==> t.queue == [])
      && t.arrived == Keys(t.resolved) + t.queue
  {
    hide Kind, KindEvent, Apply, Strands, Loses, Run, Keys;
    HealthyThroughout(w, s, events, |events|);
    ConservedThroughout(w, s, events, |events|);
    assert events[..|events|] == events;
  }

  /** The next key is then handled ahead of the stranded ones. */
  lemma StrandedKeysAreOvertaken(w: World, s: State, a: Arrival)
    requires Conserved(s) && !Settled(s) && s.host.open && !s.flags.providerActive && !s.front.preedit
    requires a.outcome == Swallowed && s.queue[0] != Typed(a)
    ensures !Conserved(KeyDown(w, s, a))
  {
    var t := KeyDown(w, s, a);
    var n := |s.resolved|;
    assert t.arrived[n] == s.arrived[n] == s.queue[0];
    assert (Keys(t.resolved) + t.queue)[n] == Typed(a);
  }

  // ---------------------------------------------------------------------------
  // Sequence numbers, and replies that come too late.

  /** Number n was spent on the n-th request or cancellation; a pending request is the last one. */
  predicate Numbered(s: State) {
    && s.sequence == |s.uses|
    && (s.pending ==> s.uses != [] && Last(s.uses).Requested?)
  }

  /** `t` spent some more numbers, and none twice. */
  predicate SpendsMore(s: State, t: State) {
    Numbered(t) && s.uses <= t.uses
  }

  lemma SpendsMoreIsNumbered(s: State, t: State)
    requires SpendsMore(s, t)
    ensures Numbered(t)
  {
  }

  lemma SpendingComposes(s: State, t: State, u: State, v: State)
    requires SpendsMore(s, t) && SpendsMore(u, v)
    requires t.uses == u.uses
    ensures SpendsMore(s, v)
  {
  }

  /** Numbering depends on the counter, the pending flag and the record of uses only. */
  lemma NumberedElsewhere(s: State, t: State)
    requires Numbered(s) && t.sequence == s.sequence && t.pending == s.pending && t.uses == s.uses
    ensures SpendsMore(s, t)
  {
  }

  lemma BeginSpends(w: World, s: State)
    requires Numbered(s)
    ensures forall ask :: SpendsMore(s, Begin(w, s, ask).0)
  {
  }

  lemma BeginConversionSpends(w: World, s: State)
    requires Numbered(s)
    ensures SpendsMore(s, BeginConversion(w, s).0)
  {
    BeginSpends(w, s);
  }

  lemma {:induction false} ReplaySpends(w: World, s: State)
    requires Numbered(s)
    ensures SpendsMore(s, Replay(w, s))
    decreases |s.queue|
  {
    hide Native, BeginConversion;
    if s.queue != [] && s.context && !s.pending {
      var key := s.queue[0];
      if Converts(s.front, key) {
        BeginConversionSpends(w, Pop(s));
        var (t, started) := BeginConversion(w, Pop(s));
        BeginConversionKeepsQueue(w, Pop(s));
        if !started { ReplaySpends(w, Resolve(t, key, Dropped)); }
      } else if WaitsForConversion(s.front, key) {
        BeginConversionSpends(w, s);
        var (t, started) := BeginConversion(w, s);
        BeginConversionKeepsQueue(w, s);
        if !started { ReplaySpends(w, Resolve(Pop(t), key, Dropped)); }
      } else {
        var (front, shown) := Native(s.front, key);
        var t := Pop(s).(front := front);
        if shown.None? {
          ReplaySpends(w, Resolve(t, key, Ignored));
        } else if w.grants(s.edits) {
          var surface := OfSurface(shown.value);
          ReplaySpends(w, ShowState(w, Resolve(t, key, Shown(surface)), surface));
        }
      }
    }
  }

  lemma BeginConversionKeepsQueue(w: World, s: State)
    ensures BeginConversion(w, s).0.queue == s.queue
  {
  }

  lemma {:induction false} ResolvingSpendsNothing(s: State, keys: seq<Key>, action: Action)
    requires Numbered(s)
    ensures SpendsMore(s, ResolveAll(s, keys, action))
  {
    ResolvingMany(s, keys, action);
  }

  lemma RegistrationSpends(w: World, s: State)
    requires Numbered(s)
    ensures SpendsMore(s, FeedRegistration(w, s))
  {
    hide Begin, ResolveAll, PrintablePrefix, SpendsMore;
    NumberedElsewhere(s, s);
    if s.queue != [] {
      var key := s.queue[0];
      if key.codepoint.Some? {
        var n := PrintablePrefix(s.queue);
        var rest := s.WithQueue(s.queue[n..]);
        BeginSpends(w, rest);
        var t := Begin(w, rest, Typing(Written(s.queue[..n]))).0;
        NumberedElsewhere(s, rest);
        SpendingComposes(s, rest, rest, t);
        BatchSpends(w, s, t, s.queue[..n], key);
      } else {
        NumberedElsewhere(s, s.WithQueue(s.queue[1..]));
        BatchSpends(w, s, s.WithQueue(s.queue[1..]), s.queue[..1], key);
      }
    }
  }

  lemma BatchSpends(w: World, s: State, t: State, keys: seq<Key>, key: Key)
    requires SpendsMore(s, t)
    ensures SpendsMore(s, ResolveAll(t, keys, Batched)) && SpendsMore(s, ResolveAll(t, keys, Dropped))
    ensures SpendsMore(s, ResolveAll(Begin(w, t, Command(EditorControl(key))).0, keys, Dropped))
    ensures SpendsMore(s, ResolveAll(Begin(w, t, Command(EditorControl(key))).0, keys, Sent(EditorControl(key))))
  {
    hide Begin, ResolveAll;
    BeginSpends(w, t);
    ResolvingSpendsNothing(t, keys, Batched);
    ResolvingSpendsNothing(t, keys, Dropped);
    ResolvingSpendsNothing(Begin(w, t, Command(EditorControl(key))).0, keys, Dropped);
    ResolvingSpendsNothing(Begin(w, t, Command(EditorControl(key))).0, keys, Sent(EditorControl(key)));
  }

  lemma AdoptSpends(w: World, s: State, state: EngineState)
    requires Numbered(s)
    ensures SpendsMore(s, Adopt(w, s, state))
  {
    hide Replay, FeedRegistration;
    var t := AdoptFlags(s, state);
    if t.flags.registration {
      RegistrationSpends(w, t.ShowingNothing());
    } else {
      ReplaySpends(w, Display(w, t, state));
    }
  }

  lemma DispatchSpends(w: World, s: State, state: EngineState)
    requires Numbered(s) && s.queue != []
    ensures SpendsMore(s, DispatchToCandidate(w, s, state))
  {
    hide Adopt, Begin;
    var key := s.queue[0];
    var control := CandidateControl(s.engineId, key);
    var popped := if control.Some? then Pop(s) else s;
    BeginSpends(w, popped);
    var t := Begin(w, popped, Asking(control)).0;
    AdoptSpends(w, if control.Some? then Resolve(t, key, Dropped) else t, state);
  }

  lemma ReplySpends(w: World, s: State, sequence: nat, reply: Option<EngineState>)
    requires Numbered(s)
    ensures SpendsMore(s, ApplyResult(w, s, sequence, reply))
  {
    hide Adopt, DispatchToCandidate;
    if sequence == s.sequence && reply.Some? {
      var t := s.Answered();
      AdoptSpends(w, t, reply.value);
      if t.queue != [] { DispatchSpends(w, t, reply.value); }
    }
  }

  lemma HandlingDirectlySpends(w: World, s: State, a: Arrival)
    requires Numbered(s)
    ensures SpendsMore(s, HandleDirectly(w, s, a))
  {
    hide Numbered, SpendsMore, GiveUp, ShowDirect, Typed;
    var t := Resolve(Arrive(s, Typed(a)), Typed(a), Direct).(front := a.front);
    NumberedElsewhere(s, t);
    SpendsMoreIsNumbered(s, t);
    match a.outcome
    case PassedThrough =>
    case Swallowed =>
      NumberedElsewhere(s, t.ShowingNothing());
    case Failed =>
      NumberedElsewhere(s, t.Failing().ShowingNothing());
    case Forced =>
      AbandonSpends(t);
      SpendingComposes(s, t, t, GiveUp(t));
    case Showed(state) =>
      ShowingKeepsNumbers(w, t, state);
      NumberedElsewhere(s, HandleDirectly(w, s, a));
  }

  lemma AbandonSpends(s: State)
    requires Numbered(s)
    ensures SpendsMore(s, Abandon(s)) && SpendsMore(s, GiveUp(s)) && SpendsMore(s, Terminate(s))
  {
  }

  lemma ShowingKeepsNumbers(w: World, s: State, state: EngineState)
    ensures ShowDirect(w, s, state).ticket == s.ticket
  {
  }

  lemma SpaceSpends(w: World, s: State, a: Arrival)
    requires Numbered(s)
    ensures var (t, started) := BeginConversion(w, s);
      && SpendsMore(s, Resolve(Arrive(t, Typed(a)), Typed(a), Converted).ShowingBusy())
      && SpendsMore(s, HandleDirectly(w, t, a))
  {
    hide HandleDirectly, BeginConversion, SpendsMore, Typed;
    BeginConversionSpends(w, s);
    var t := BeginConversion(w, s).0;
    assert Numbered(t) by { SpendsMoreIsNumbered(s, t); }
    NumberedElsewhere(t, Resolve(Arrive(t, Typed(a)), Typed(a), Converted).ShowingBusy());
    SpendingComposes(s, t, t, Resolve(Arrive(t, Typed(a)), Typed(a), Converted).ShowingBusy());
    HandlingDirectlySpends(w, t, a);
    SpendingComposes(s, t, t, HandleDirectly(w, t, a));
  }

  lemma FunctionKeySpends(w: World, s: State, a: Arrival, key: Key)
    requires Numbered(s)
    ensures var t := BeginConversion(w, Enqueue(s, key)).0;
      && SpendsMore(s, t.ShowingBusy())
      && SpendsMore(s, HandleDirectly(w, t.(waiting := s.waiting), a))
  {
    hide HandleDirectly, BeginConversion, SpendsMore, Numbered;
    var queued := Enqueue(s, key);
    NumberedElsewhere(s, queued);
    SpendsMoreIsNumbered(s, queued);
    BeginConversionSpends(w, queued);
    var t := BeginConversion(w, queued).0;
    SpendsMoreIsNumbered(queued, t);
    NumberedElsewhere(t, t.ShowingBusy());
    SpendingComposes(queued, t, t, t.ShowingBusy());
    SpendingComposes(s, queued, queued, t.ShowingBusy());
    var back := t.(waiting := s.waiting);
    NumberedElsewhere(t, back);
    SpendsMoreIsNumbered(t, back);
    HandlingDirectlySpends(w, back, a);
    SpendingComposes(queued, t, back, HandleDirectly(w, back, a));
    SpendingComposes(s, queued, queued, HandleDirectly(w, back, a));
  }

  lemma HandlingNativeSpends(w: World, s: State, a: Arrival)
    requires Numbered(s)
    ensures SpendsMore(s, HandleNative(w, s, a))
  {
    hide HandleDirectly, BeginConversion, SpendsMore, NativePreedit, Numbered, Enqueue, Arrive, Resolve;
    SpaceSpends(w, s, a);
    FunctionKeySpends(w, s, a.(front := s.front, outcome := Failed), Key(a.virtualKey, None, a.shift, false));
    HandlingDirectlySpends(w, s, a);
  }

  lemma ConsumingSpendsNothing(s: State, a: Arrival, action: Action)
    requires Numbered(s)
    ensures SpendsMore(s, Consume(s, a, action))
  {
  }

  lemma HandlingRegistrationSpends(w: World, s: State, a: Arrival)
    requires Numbered(s)
    ensures SpendsMore(s, HandleRegistration(w, s, a))
  {
    hide HandleDirectly, Begin, Consume, SpendsMore, RegistrationControl;
    ConsumingSpendsNothing(s, a, Ignored);
    BeginSpends(w, s);
    var quit := Begin(w, s, Command(DoQuit)).0;
    SpendsMoreIsNumbered(s, quit);
    HandlingDirectlySpends(w, quit, a);
    SpendingComposes(s, quit, quit, HandleDirectly(w, quit, a));
    var control := RegistrationControl(a);
    NumberedElsewhere(s, s);
    var t := if control.Some? then Begin(w, s, Asking(control)).0 else s;
    SpendsMoreIsNumbered(s, t);
    if control.Some? {
      ConsumingSpendsNothing(t, a, Sent(control.value));
      SpendingComposes(s, t, t, Consume(t, a, Sent(control.value)));
    }
    HandlingDirectlySpends(w, t, a);
    BeginSpends(w, t);
    var u := Begin(w, t, Typing(Character(a.translated))).0;
    SpendingComposes(s, t, t, u);
    SpendsMoreIsNumbered(t, u);
    ConsumingSpendsNothing(u, a, Batched);
    HandlingDirectlySpends(w, u, a);
    SpendingComposes(s, t, t, HandleDirectly(w, t, a));
    SpendingComposes(s, u, u, HandleDirectly(w, u, a));
    SpendingComposes(s, u, u, Consume(u, a, Batched));
  }

  lemma HandlingSpends(w: World, s: State, a: Arrival)
    requires Numbered(s)
    ensures SpendsMore(s, Handle(w, s, a))
  {
    hide HandleNative, HandleRegistration, SpendsMore, Numbered;
    HandlingNativeSpends(w, s, a);
    HandlingRegistrationSpends(w, s, a);
  }

  lemma HandlingOnCandidateSpends(w: World, s: State, a: Arrival)
    requires Numbered(s)
    ensures SpendsMore(s, HandleOnCandidate(w, s, a))
  {
    hide Handle, Begin;
    var control := CandidateControl(s.engineId, Typed(a));
    BeginSpends(w, s);
    var t := if control.Some? then Begin(w, s, Asking(control)).0 else s;
    HandlingSpends(w, t, a);
    BeginSpends(w, Enqueue(t, Typed(a)));
    HandlingSpends(w, Begin(w, Enqueue(t, Typed(a)), Command(DoCommit)).0.(waiting := t.waiting), a);
  }

  lemma KeyDownSpends(w: World, s: State, a: Arrival)
    requires Numbered(s)
    ensures SpendsMore(s, KeyDown(w, s, a))
  {
    hide Handle, HandleOnCandidate;
    var t := if s.pending then CancelPending(s) else s;
    HandlingSpends(w, t, a);
    HandlingOnCandidateSpends(w, t, a);
  }

  lemma {:induction false} RunSpends(w: World, s: State, events: seq<Event>)
    requires Numbered(s)
    ensures SpendsMore(s, Run(w, s, events))
  {
    hide KeyDown, ApplyResult;
    if events != [] {
      RunSpends(w, s, DropLast(events));
      var t := Run(w, s, DropLast(events));
      match Last(events)
      case KeyArrives(a) => KeyDownSpends(w, t, a);
      case Reply(sequence, state) => ReplySpends(w, t, sequence, state);
      case CompositionEnds => AbandonSpends(t);
      case ContextChanges => AbandonSpends(t);
      case KeyboardChanges(open, composing, reset) =>
        ClosingTakesNoNumber(w, t, open, composing, reset);
        NumberedElsewhere(t, ChangeKeyboard(w, t, open, composing, reset));
    }
  }

  /**
    Sequence numbers are never reused, and a reply to request number `n` changes anything only if
    no request and no cancellation came after it: once one has, the reply is inert, at any later time.
   */
  lemma StaleRepliesAreInert(w: World, s: State, n: nat, later: seq<Event>, reply: Option<EngineState>)
    requires Numbered(s) && n <= s.sequence
    ensures var t := Run(w, s, later);
      && SpendsMore(s, t)
      && (n < |t.uses| ==> Apply(w, t, Reply(n, reply)) == t)
      && (n == |t.uses| ==> t.uses == s.uses && n == s.sequence)
  {
    RunSpends(w, s, later);
  }

  lemma ClosingTakesNoNumber(w: World, s: State, open: bool, composing: bool, reset: Option<EngineState>)
    ensures ChangeKeyboard(w, s, open, composing, reset).ticket == s.ticket
  {
  }

  /**
    The answer to the pending request is never taken for stale: it ends the request, or a further
    request takes the next number.
   */
  lemma PendingReplyIsApplied(w: World, s: State, reply: Option<EngineState>)
    requires Numbered(s) && s.pending
    ensures Last(s.uses).Requested?
    ensures var t := ApplyResult(w, s, |s.uses|, reply); !t.pending || |s.uses| < |t.uses|
    ensures reply.None? ==> !ApplyResult(w, s, |s.uses|, reply).pending && ApplyResult(w, s, |s.uses|, reply).flags.failed
  {
    hide Adopt, DispatchToCandidate;
    if reply.Some? {
      var t := s.Answered();
      AdoptEndsOrRequests(w, t, reply.value);
      if t.queue != [] { DispatchEndsOrRequests(w, t, reply.value); }
    }
  }

  /** Nothing pending, or something newly requested. */
  predicate EndsOrRequests(s: State, t: State) {
    |s.uses| <= |t.uses| && (t.pending ==> s.pending || |s.uses| < |t.uses|)
  }

  lemma BeginEndsOrRequests(w: World, s: State)
    ensures EndsOrRequests(s, BeginConversion(w, s).0)
    ensures forall ask :: EndsOrRequests(s, Begin(w, s, ask).0) && Begin(w, s, ask).0.queue == s.queue
  {
  }

  lemma {:induction false} ReplayEndsOrRequests(w: World, s: State)
    ensures EndsOrRequests(s, Replay(w, s))
    decreases |s.queue|
  {
    hide Native, BeginConversion;
    if s.queue != [] && s.context && !s.pending {
      var key := s.queue[0];
      if Converts(s.front, key) {
        BeginEndsOrRequests(w, Pop(s));
        BeginConversionKeepsQueue(w, Pop(s));
        var (t, started) := BeginConversion(w, Pop(s));
        if !started { ReplayEndsOrRequests(w, Resolve(t, key, Dropped)); }
      } else if WaitsForConversion(s.front, key) {
        BeginEndsOrRequests(w, s);
        BeginConversionKeepsQueue(w, s);
        var (t, started) := BeginConversion(w, s);
        if !started { ReplayEndsOrRequests(w, Resolve(Pop(t), key, Dropped)); }
      } else {
        var (front, shown) := Native(s.front, key);
        var t := Pop(s).(front := front);
        if shown.None? {
          ReplayEndsOrRequests(w, Resolve(t, key, Ignored));
        } else if w.grants(s.edits) {
          var surface := OfSurface(shown.value);
          ReplayEndsOrRequests(w, ShowState(w, Resolve(t, key, Shown(surface)), surface));
        }
      }
    }
  }

  lemma ResolvingAllKeepsTicket(s: State, keys: seq<Key>, action: Action)
    ensures ResolveAll(s, keys, action).ticket == s.ticket
  {
    ResolvingMany(s, keys, action);
  }

  lemma RegistrationEndsOrRequests(w: World, s: State)
    ensures EndsOrRequests(s, FeedRegistration(w, s))
  {
    hide Begin, ResolveAll, PrintablePrefix;
    if s.queue != [] {
      var key := s.queue[0];
      var n := if key.codepoint.Some? then PrintablePrefix(s.queue) else 1;
      var rest := s.(waiting := s.waiting.(queue := s.queue[n..]));
      BeginEndsOrRequests(w, rest);
      var t := if key.codepoint.Some? then Begin(w, rest, Typing(Written(s.queue[..n]))).0 else rest;
      BeginEndsOrRequests(w, t);
      ResolvingAllKeepsTicket(t, s.queue[..n], Batched);
      ResolvingAllKeepsTicket(t, s.queue[..n], Dropped);
      ResolvingAllKeepsTicket(Begin(w, t, Command(EditorControl(key))).0, s.queue[..n], Dropped);
      ResolvingAllKeepsTicket(Begin(w, t, Command(EditorControl(key))).0, s.queue[..n], Sent(EditorControl(key)));
    }
  }

  lemma AdoptEndsOrRequests(w: World, s: State, state: EngineState)
    ensures EndsOrRequests(s, Adopt(w, s, state))
  {
    hide Replay, FeedRegistration;
    var t := AdoptFlags(s, state);
    RegistrationEndsOrRequests(w, t.ShowingNothing());
    ReplayEndsOrRequests(w, Display(w, t, state));
  }

  lemma DispatchEndsOrRequests(w: World, s: State, state: EngineState)
    requires s.queue != []
    ensures EndsOrRequests(s, DispatchToCandidate(w, s, state))
  {
    hide Adopt, Begin;
    var key := s.queue[0];
    var control := CandidateControl(s.engineId, key);
    var popped := if control.Some? then Pop(s) else s;
    BeginEndsOrRequests(w, popped);
    var t := Begin(w, popped, Asking(control)).0;
    AdoptEndsOrRequests(w, if control.Some? then Resolve(t, key, Dropped) else t, state);
  }

  /**
    Closing the keyboard is no cancellation. It spends no number, so the reply to a request pending at
    the close is not stale: it is applied afterwards, and its text reaches the document.
   */
  lemma ReplyOutlivesTheClose(w: World, s: State, composing: bool, reset: Option<EngineState>, state: EngineState)
    requires Numbered(s) && s.pending && s.host.open && Composing(s, composing) && s.context
    requires state.mode != F.RegistrationMode
    ensures var t := CloseKeyboard(w, s, composing, reset);
      && t.pending && t.uses == s.uses && Numbered(t) && t.queue == []
      && (w.grants(t.edits) ==>
            ApplyResult(w, t, |s.uses|, Some(state)).document == t.document + [state])
  {
  }

  // ---------------------------------------------------------------------------
  // The failing run.

  /** A service just activated in a context, with its keyboard open. */
  const STARTED := State(
    Ticket(0, false, []), Waiting([], [], []), Host(true, true, Ddskk, true, F.HiraganaMode),
    F.State(false, false, false, false, false, false, "", "", []),
    Flags(false, false, false, F.HiraganaMode, false), Screen([], 0, None))

  const LETTER := Arrival(0x4b, Some('k'), false, false, false, false, true, STARTED.front, Swallowed)

  function Opening(front: F.State): Arrival {
    LETTER.(composing := false, front := front,
            outcome := Showed(EngineState(F.PreeditMode, 0, "▽", "k", [])))
  }

  function Space(front: F.State): Arrival {
    LETTER.(virtualKey := VK_SPACE, translated := Some(' '), front := front)
  }

  const COMMITTED := EngineState(F.HiraganaMode, -1, "か", "", [])

  /** Open a preedit, convert it, type a letter behind the conversion, close; then the reply comes. */
  function ClosingRun(front: F.State): seq<Event> {
    [KeyArrives(Opening(front)), KeyArrives(Space(front)), KeyArrives(LETTER),
     KeyboardChanges(false, true, None), Reply(1, Some(COMMITTED))]
  }

  /**
    All requests start, every reply carries an ordinary state and every edit is granted; still the
    letter is neither resolved nor queued once the keyboard closes, and the reply edits the document
    afterwards.
   */
  lemma ClosingTheKeyboardLosesKeys(w: World, front: F.State)
    requires Kind(w) && front.preedit && Logged(front)
    ensures var events := ClosingRun(front);
      && AllKind(events) && Healthy(STARTED) && Conserved(STARTED)
      && Run(w, STARTED, events[..3]).queue == [Queued(LETTER)]
      && !Conserved(Run(w, STARTED, events[..4])) && Run(w, STARTED, events[..4]).pending
      && Run(w, STARTED, events).document == Run(w, STARTED, events[..4]).document + [COMMITTED]
  {
    hide KeyDown, ChangeKeyboard, ApplyResult, Healthy;
    var events := ClosingRun(front);
    assert events[..0] == [] && events[..5] == events;
    StartIsHealthy();
    assert Keys([]) + [] == [];
    OneMoreStep(w, STARTED, events, 0);
    OneMoreStep(w, STARTED, events, 1);
    OneMoreStep(w, STARTED, events, 2);
    OneMoreStep(w, STARTED, events, 3);
    OneMoreStep(w, STARTED, events, 4);
    var s1 := Run(w, STARTED, events[..1]);
    OpeningStep(w, front);
    var s2 := Run(w, STARTED, events[..2]);
    SpaceStep(w, s1, front);
    var s3 := Run(w, STARTED, events[..3]);
    LetterStep(w, s2);
    ClosingStep(w, s3);
    LateReplyStep(w, Run(w, STARTED, events[..4]));
  }

  lemma StartIsHealthy()
    ensures Healthy(STARTED)
  {
  }

  lemma OpeningStep(w: World, front: F.State)
    requires Kind(w) && front.preedit && Logged(front)
    ensures var s := KeyDown(w, STARTED, Opening(front));
      && s.front == front && !s.pending && s.host == STARTED.host && s.ticket == STARTED.ticket && s.queue == []
      && s.flags == Flags(false, false, true, F.PreeditMode, false) && |s.arrived| == |s.resolved|
  {
  }

  lemma SpaceStep(w: World, s: State, front: F.State)
    requires Kind(w) && front.preedit && Logged(front)
    requires s.front == front && !s.pending && s.host == STARTED.host && s.ticket == STARTED.ticket && s.queue == []
    requires s.flags == Flags(false, false, true, F.PreeditMode, false)
    ensures var t := KeyDown(w, s, Space(front));
      && t.pending && t.sequence == 1 && t.host == s.host && t.flags == s.flags && t.queue == []
      && (|s.arrived| == |s.resolved| ==> |t.arrived| == |t.resolved|)
  {
  }

  lemma LetterStep(w: World, s: State)
    requires s.pending && s.host.open
    ensures var t := KeyDown(w, s, LETTER);
      t.ticket == s.ticket && t.host == s.host && t.flags == s.flags && t.queue == s.queue + [Queued(LETTER)]
      && t.arrived == s.arrived + [Queued(LETTER)] && t.resolved == s.resolved
  {
  }

  lemma ClosingStep(w: World, s: State)
    requires s.pending && s.host.open && s.context && |s.queue| == 1 && |s.arrived| == |s.resolved| + 1
    ensures var t := ChangeKeyboard(w, s, false, true, None);
      && t.ticket == s.ticket && t.context && t.queue == [] && !Conserved(t)
  {
  }

  lemma LateReplyStep(w: World, s: State)
    requires Kind(w) && s.pending && s.sequence == 1 && s.context && s.queue == []
    ensures ApplyResult(w, s, 1, Some(COMMITTED)).document == s.document + [COMMITTED]
  {
  }

  // ---------------------------------------------------------------------------
  // Typing ahead of a conversion means the same as typing after it.

  /** A printable key that the front end, not a control, will interpret. */
  predicate Plain(key: Key) {
    && key.codepoint.Some? && ' ' <= key.codepoint.value <= '~' && !key.ctrlJ
    && key.virtualKey != VK_RETURN && key.virtualKey != VK_BACK && key.virtualKey != VK_ESCAPE
    && key.virtualKey != VK_SPACE && !(VK_F6 <= key.virtualKey <= VK_F10)
  }

  predicate AllPlain(queue: seq<Key>) {
    forall i :: 0 <= i < |queue| ==> Plain(queue[i])
  }

  function Characters(queue: seq<Key>): seq<F.Key>
    requires AllPlain(queue)
  {
    seq(|queue|, i requires 0 <= i < |queue| => queue[i].codepoint.value)
  }

  lemma {:induction false} ReplayTypes(w: World, s: State)
    requires Kind(w) && s.context && !s.pending && AllPlain(s.queue)
    ensures Replay(w, s).queue == [] && !Replay(w, s).pending
    ensures Replay(w, s).front == F.FeedAll(s.front, Characters(s.queue))
    decreases |s.queue|
  {
    hide F.FeedAscii;
    if s.queue == [] {
      assert Characters(s.queue) == [];
    } else {
      var key := s.queue[0];
      var rest := s.queue[1..];
      var (front, shown) := Native(s.front, key);
      assert front == F.FeedAscii(s.front, key.codepoint.value, true).0;
      assert Characters(s.queue) == [key.codepoint.value] + Characters(rest);
      FrontendRuns.FeedAllAppend(s.front, [key.codepoint.value], Characters(rest));
      assert DropLast([key.codepoint.value]) == [];
      assert F.FeedAll(s.front, [key.codepoint.value]) == front;
      var t := Pop(s).(front := front);
      if shown.None? {
        ReplayTypes(w, Resolve(t, key, Ignored));
      } else {
        var surface := OfSurface(shown.value);
        ReplayTypes(w, ShowState(w, Resolve(t, key, Shown(surface)), surface));
      }
    }
  }

  /**
    Keys typed behind a pending conversion, once its committed result arrives, leave the front end
    exactly as if they had been typed from a reset front end afterwards.
   */
  lemma TypeAheadIsTyping(w: World, s: State, state: EngineState)
    requires Kind(w) && Serving(s) && AllPlain(s.queue)
    requires state.candidates == [] && state.compositionStart < 0
    requires state.mode != F.CandidateMode && state.mode != F.RegistrationMode
    ensures var t := ApplyResult(w, s, s.sequence, Some(state));
      && t.queue == [] && !t.pending
      && t.front == F.FeedAll(F.Reset(s.front), Characters(s.queue))
  {
    hide Replay, F.FeedAll;
    var t := AdoptFlags(s.Answered(), state);
    ReplayTypes(w, Display(w, t, state));
  }
}
