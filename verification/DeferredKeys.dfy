/** Deferred keys are the keys that were pressed, and a shown candidate takes them one at a time. */
module DeferredKeys {
  import opened Common
  import opened Provider
  import opened ProviderRuns
  import F = Frontend
  import FrontendRuns

  // ---------------------------------------------------------------------------
  // The recorded keys are the pressed ones.

  // The virtual keys of Enter, Space, Backspace, Escape, End, Home, the arrows and F6 to F10.
  const EDITING: set<nat> := {0x0d, 0x20, 0x08, 0x1b, 0x23, 0x24, 0x25, 0x26, 0x27, 0x28, 0x75, 0x76, 0x77, 0x78, 0x79}

  /** The key edits or converts; it may be recorded without a character. */
  predicate Edits(a: Arrival) {
    a.ctrlJ || a.virtualKey in EDITING
  }

  /** The same key, and the character it was translated to. */
  predicate Records(a: Arrival, key: Key) {
    && key.virtualKey == a.virtualKey && key.shift == a.shift && key.ctrlJ == a.ctrlJ
    && (key.codepoint == a.translated || (Edits(a) && key.codepoint == None))
  }

  predicate AllRecorded(claimed: seq<Arrival>, arrived: seq<Key>) {
    |claimed| == |arrived| && forall i :: 0 <= i < |claimed| ==> Records(claimed[i], arrived[i])
  }

  function Cancels(uses: seq<Use>): nat {
    if uses == [] then 0 else Cancels(DropLast(uses)) + if Last(uses) == Cancelled then 1 else 0
  }

  /** The key cancels a pending request before it is handled. */
  predicate Interrupts(s: State, a: Arrival) {
    s.pending && (a.ctrlG || a.virtualKey == VK_ESCAPE)
  }

  /**
    The keys pressed with the keyboard open since the last cancellation. An interrupting key comes
    after its own cancellation; any further cancellation of a step comes after the key.
   */
  function Claimed(w: World, s: State, events: seq<Event>): seq<Arrival> {
    if events == [] then []
    else
      var t := Run(w, s, DropLast(events));
      var u := Apply(w, t, Last(events));
      var before := Claimed(w, s, DropLast(events));
      var cancels := Cancels(u.uses) - Cancels(t.uses);
      match Last(events)
      case KeyArrives(a) =>
        if !t.host.open then before
        else if Interrupts(t, a) then (if cancels > 1 then [] else [a])
        else if cancels > 0 then [] else before + [a]
      case _ => if cancels > 0 then [] else before
  }

  /** Neither a key taken nor anything cancelled. */
  predicate Same(s: State, t: State) {
    t.arrived == s.arrived && Cancels(t.uses) == Cancels(s.uses)
  }

  /** The key was recorded, and perhaps everything cancelled afterwards. */
  predicate Took(s: State, t: State, a: Arrival) {
    || (Cancels(t.uses) == Cancels(s.uses) && |t.arrived| == |s.arrived| + 1
        && t.arrived[..|s.arrived|] == s.arrived && Records(a, Last(t.arrived)))
    || (Cancels(t.uses) == Cancels(s.uses) + 1 && t.arrived == [])
  }

  lemma OneMoreUse(uses: seq<Use>, use: Use)
    ensures Cancels(uses + [use]) == Cancels(uses) + if use == Cancelled then 1 else 0
  {
    assert DropLast(uses + [use]) == uses;
  }

  lemma TookFrom(s: State, t: State, u: State, a: Arrival)
    requires Same(s, t) && Took(t, u, a)
    ensures Took(s, u, a)
  {
    hide Records, Cancels;
  }

  lemma SameFrom(s: State, t: State, u: State)
    requires Same(s, t) && Same(t, u)
    ensures Same(s, u)
  {
  }

  lemma BeginIsSame(w: World, s: State)
    ensures forall ask :: Same(s, Begin(w, s, ask).0) && Begin(w, s, ask).0.queue == s.queue
    ensures Same(s, BeginConversion(w, s).0) && BeginConversion(w, s).0.queue == s.queue
  {
    hide Cancels;
    forall ask ensures Same(s, Begin(w, s, ask).0) {
      OneMoreUse(s.uses, Requested(ask));
      OneMoreUse(s.uses, FailedToStart);
    }
  }

  lemma TypedRecords(a: Arrival)
    ensures Records(a, Typed(a))
  {
  }

  /** Behind a pending request too the key keeps its character, unless it edits. */
  lemma QueuedRecords(a: Arrival)
    ensures Records(a, Queued(a)) && (!Edits(a) ==> Queued(a).codepoint == a.translated)
  {
  }

  lemma RecordingTakes(s: State, t: State, a: Arrival, key: Key)
    requires t.arrived == s.arrived + [key] && t.uses == s.uses && Records(a, key)
    ensures Took(s, t, a)
  {
    hide Records, Cancels;
  }

  lemma GivingUpAfterwards(s: State, t: State, a: Arrival)
    requires t.uses == s.uses + [Cancelled] && t.arrived == []
    ensures Took(s, t, a)
  {
    OneMoreUse(s.uses, Cancelled);
  }

  lemma HandlingDirectlyTakes(w: World, s: State, a: Arrival)
    ensures Took(s, HandleDirectly(w, s, a), a)
  {
    hide Records, Took, Cancels, Typed;
    TypedRecords(a);
    var t := HandleDirectly(w, s, a);
    if a.outcome.Forced? { GivingUpAfterwards(s, t, a); } else { RecordingTakes(s, t, a, Typed(a)); }
  }

  lemma ConsumingTakes(s: State, t: State, a: Arrival, action: Action)
    requires Same(s, t)
    ensures Took(s, Consume(t, a, action), a)
  {
    hide Records, Took, Cancels, Typed, Same;
    TypedRecords(a);
    RecordingTakes(t, Consume(t, a, action), a, Typed(a));
    TookFrom(s, t, Consume(t, a, action), a);
  }

  lemma HandlingNativeTakes(w: World, s: State, a: Arrival)
    ensures Took(s, HandleNative(w, s, a), a)
  {
    hide HandleDirectly, BeginConversion, Records, Took, Same, NativePreedit, Typed;
    BeginIsSame(w, s);
    var t := BeginConversion(w, s).0;
    ConsumingTakes(s, t, a, Converted);
    TakesWhatever(s, Consume(t, a, Converted), Consume(t, a, Converted).ShowingBusy(), a);
    HandlingDirectlyTakes(w, t, a);
    TookFrom(s, t, HandleDirectly(w, t, a), a);
    HandlingDirectlyTakes(w, s, a);
    if VK_F6 <= a.virtualKey <= VK_F10 && !a.ctrlJ { FunctionKeyTakes(w, s, a); }
    if NativePreedit(s, a) { NativeKeysAreNoCtrlJ(s, a); }
  }

  lemma NativeKeysAreNoCtrlJ(s: State, a: Arrival)
    requires NativePreedit(s, a)
    ensures !a.ctrlJ
  {
  }

  /** What is recorded does not depend on what is shown. */
  lemma TakesWhatever(s: State, t: State, u: State, a: Arrival)
    requires Took(s, t, a) && u.arrived == t.arrived && u.uses == t.uses
    ensures Took(s, u, a)
  {
    hide Records, Cancels;
  }

  lemma FunctionKeyTakes(w: World, s: State, a: Arrival)
    requires VK_F6 <= a.virtualKey <= VK_F10 && !a.ctrlJ
    ensures var t := BeginConversion(w, Enqueue(s, Key(a.virtualKey, None, a.shift, false))).0;
      && Took(s, t.ShowingBusy(), a)
      && Took(s, HandleDirectly(w, t.(waiting := s.waiting), a.(front := s.front, outcome := Failed)), a)
  {
    hide HandleDirectly, BeginConversion, Took, Cancels;
    var key := Key(a.virtualKey, None, a.shift, false);
    assert Records(a, key);
    var queued := Enqueue(s, key);
    BeginIsSame(w, queued);
    var t := BeginConversion(w, queued).0;
    RecordingTakes(s, queued, a, key);
    TookThen(s, queued, t.ShowingBusy(), a);
    var back := t.(waiting := s.waiting);
    var b := a.(front := s.front, outcome := Failed);
    HandlingDirectlyTakes(w, back, b);
    TookAlike(back, HandleDirectly(w, back, b), a, b);
    assert Same(s, back);
    TookFrom(s, back, HandleDirectly(w, back, b), a);
  }

  lemma TookThen(s: State, t: State, u: State, a: Arrival)
    requires Took(s, t, a) && Same(t, u)
    ensures Took(s, u, a)
  {
    hide Records, Cancels;
  }

  lemma TookAlike(s: State, t: State, a: Arrival, b: Arrival)
    requires Took(s, t, b) && b == a.(front := b.front, outcome := b.outcome)
    ensures Took(s, t, a)
  {
    hide Cancels;
  }

  lemma HandlingRegistrationTakes(w: World, s: State, a: Arrival)
    ensures Took(s, HandleRegistration(w, s, a), a)
  {
    hide HandleDirectly, Begin, Consume, Took, Same, RegistrationControl;
    SameAsItself(s);
    BeginIsSame(w, s);
    var t := if RegistrationControl(a).Some? then Begin(w, s, Asking(RegistrationControl(a))).0 else s;
    BeginIsSame(w, t);
    var u := Begin(w, t, Typing(Character(a.translated))).0;
    SameFrom(s, t, u);
    ConsumingTakes(s, s, a, Ignored);
    if RegistrationControl(a).Some? { ConsumingTakes(s, t, a, Sent(RegistrationControl(a).value)); }
    ConsumingTakes(s, u, a, Batched);
    var quit := Begin(w, s, Command(DoQuit)).0;
    HandlingDirectlyTakes(w, quit, a);
    TookFrom(s, quit, HandleDirectly(w, quit, a), a);
    HandlingDirectlyTakes(w, t, a);
    TookFrom(s, t, HandleDirectly(w, t, a), a);
    HandlingDirectlyTakes(w, u, a);
    TookFrom(s, u, HandleDirectly(w, u, a), a);
  }

  lemma SameAsItself(s: State)
    ensures Same(s, s)
  {
  }

  lemma HandlingTakes(w: World, s: State, a: Arrival)
    ensures Took(s, Handle(w, s, a), a)
  {
    hide HandleNative, HandleRegistration, Took;
    HandlingNativeTakes(w, s, a);
    HandlingRegistrationTakes(w, s, a);
  }

  lemma HandlingOnCandidateTakes(w: World, s: State, a: Arrival)
    ensures Took(s, HandleOnCandidate(w, s, a), a)
  {
    hide Handle, Begin, Typed, CandidateControl, Took, Same, Resolve;
    SameAsItself(s);
    BeginIsSame(w, s);
    var control := CandidateControl(s.engineId, Typed(a));
    var t := if control.Some? then Begin(w, s, Asking(control)).0 else s;
    if control.Some? { ConsumingTakes(s, t, a, Sent(control.value)); }
    HandlingTakes(w, t, a);
    TookFrom(s, t, Handle(w, t, a), a);
    QueueingOnCandidateTakes(w, t, a);
    var u := Begin(w, Enqueue(t, Typed(a)), Command(DoCommit)).0;
    TookFrom(s, t, u, a);
    TookFrom(s, t, Handle(w, u.(waiting := t.waiting), a), a);
  }

  lemma QueueingOnCandidateTakes(w: World, s: State, a: Arrival)
    ensures var u := Begin(w, Enqueue(s, Typed(a)), Command(DoCommit)).0;
      Took(s, u, a) && Took(s, Handle(w, u.(waiting := s.waiting), a), a)
  {
    hide Handle, Begin, Took, Cancels, Typed;
    TypedRecords(a);
    var queued := Enqueue(s, Typed(a));
    BeginIsSame(w, queued);
    var u := Begin(w, queued, Command(DoCommit)).0;
    RecordingTakes(s, queued, a, Typed(a));
    TookThen(s, queued, u, a);
    var back := u.(waiting := s.waiting);
    assert Same(s, back);
    HandlingTakes(w, back, a);
    TookFrom(s, back, Handle(w, back, a), a);
  }

  lemma KeyDownTakes(w: World, s: State, a: Arrival)
    ensures var t := KeyDown(w, s, a);
      if !s.host.open then t == s
      else if Interrupts(s, a) then
        (Cancels(t.uses) == Cancels(s.uses) + 1 && AllRecorded([a], t.arrived))
        || (Cancels(t.uses) == Cancels(s.uses) + 2 && t.arrived == [])
      else Took(s, t, a)
  {
    hide Handle, HandleOnCandidate, Records, Cancels, Typed, Queued;
    if s.host.open {
      if s.pending && !a.ctrlG && a.virtualKey != VK_ESCAPE {
        QueuedRecords(a);
        RecordingTakes(s, KeyDown(w, s, a), a, Queued(a));
      } else {
        var t := if s.pending then CancelPending(s) else s;
        OneMoreUse(s.uses, Cancelled);
        HandlingTakes(w, t, a);
        HandlingOnCandidateTakes(w, t, a);
      }
    }
  }

  // ---------------------------------------------------------------------------
  // Nothing else records a key.

  lemma {:induction false} ReplayIsSame(w: World, s: State)
    ensures Same(s, Replay(w, s))
    decreases |s.queue|
  {
    hide Native, BeginConversion, Cancels;
    if s.queue != [] && s.context && !s.pending {
      var key := s.queue[0];
      if Converts(s.front, key) {
        BeginIsSame(w, Pop(s));
        var (t, started) := BeginConversion(w, Pop(s));
        if !started { ReplayIsSame(w, Resolve(t, key, Dropped)); }
      } else if WaitsForConversion(s.front, key) {
        BeginIsSame(w, s);
        var (t, started) := BeginConversion(w, s);
        if !started { ReplayIsSame(w, Resolve(Pop(t), key, Dropped)); }
      } else {
        var (front, shown) := Native(s.front, key);
        var t := Pop(s).(front := front);
        if shown.None? {
          ReplayIsSame(w, Resolve(t, key, Ignored));
        } else if w.grants(s.edits) {
          var surface := OfSurface(shown.value);
          ReplayIsSame(w, ShowState(w, Resolve(t, key, Shown(surface)), surface));
        }
      }
    }
  }

  lemma ResolvingAllIsSame(s: State, keys: seq<Key>, action: Action)
    ensures Same(s, ResolveAll(s, keys, action))
  {
    hide Cancels;
    ResolvingMany(s, keys, action);
  }

  lemma RegistrationIsSame(w: World, s: State)
    ensures Same(s, FeedRegistration(w, s))
  {
    hide Begin, ResolveAll, PrintablePrefix, Cancels;
    if s.queue != [] {
      var key := s.queue[0];
      var n := if key.codepoint.Some? then PrintablePrefix(s.queue) else 1;
      var keys, rest := s.queue[..n], s.WithQueue(s.queue[n..]);
      BeginIsSame(w, rest);
      var t := if key.codepoint.Some? then Begin(w, rest, Typing(Written(keys))).0 else rest;
      BeginIsSame(w, t);
      var u := Begin(w, t, Command(EditorControl(key))).0;
      ResolvingAllIsSame(t, keys, Batched);
      ResolvingAllIsSame(t, keys, Dropped);
      ResolvingAllIsSame(u, keys, Dropped);
      ResolvingAllIsSame(u, keys, Sent(EditorControl(key)));
    }
  }

  lemma AdoptIsSame(w: World, s: State, state: EngineState)
    ensures Same(s, Adopt(w, s, state))
  {
    hide Replay, FeedRegistration, Cancels;
    var t := AdoptFlags(s, state);
    if t.flags.registration {
      RegistrationIsSame(w, t.ShowingNothing());
    } else {
      ReplayIsSame(w, Display(w, t, state));
    }
  }

  lemma DispatchIsSame(w: World, s: State, state: EngineState)
    requires s.queue != []
    ensures Same(s, DispatchToCandidate(w, s, state))
  {
    hide Adopt, Begin, CandidateControl, Cancels;
    var key := s.queue[0];
    var control := CandidateControl(s.engineId, key);
    var popped := if control.Some? then Pop(s) else s;
    BeginIsSame(w, popped);
    var t := Begin(w, popped, Asking(control)).0;
    AdoptIsSame(w, if control.Some? then Resolve(t, key, Dropped) else t, state);
  }

  lemma ReplyIsSame(w: World, s: State, sequence: nat, reply: Option<EngineState>)
    ensures Same(s, ApplyResult(w, s, sequence, reply))
  {
    hide Adopt, DispatchToCandidate, Cancels;
    if sequence == s.sequence && reply.Some? {
      var t := s.Answered();
      AdoptIsSame(w, t, reply.value);
      if t.queue != [] { DispatchIsSame(w, t, reply.value); }
    }
  }

  lemma AbandoningForgets(s: State)
    ensures Abandon(s).arrived == [] && Cancels(Abandon(s).uses) == Cancels(s.uses) + 1
    ensures GiveUp(s).arrived == [] && Cancels(GiveUp(s).uses) == Cancels(s.uses) + 1
  {
    hide Cancels;
    OneMoreUse(s.uses, Cancelled);
  }

  lemma ChangingTheKeyboardIsSame(w: World, s: State, open: bool, composing: bool, reset: Option<EngineState>)
    ensures Same(s, ChangeKeyboard(w, s, open, composing, reset))
  {
    hide Cancels;
  }

  lemma StepRecords(w: World, s: State, e: Event, before: seq<Arrival>)
    requires AllRecorded(before, s.arrived)
    ensures var t := Apply(w, s, e); var cancels := Cancels(t.uses) - Cancels(s.uses);
      AllRecorded(
        match e
        case KeyArrives(a) =>
          if !s.host.open then before
          else if Interrupts(s, a) then (if cancels > 1 then [] else [a])
          else if cancels > 0 then [] else before + [a]
        case _ => if cancels > 0 then [] else before,
        t.arrived)
  {
    hide KeyDown, ApplyResult, ChangeKeyboard, Records, Cancels, Interrupts;
    match e
    case KeyArrives(a) => KeyDownTakes(w, s, a);
    case Reply(sequence, state) => ReplyIsSame(w, s, sequence, state);
    case CompositionEnds => AbandoningForgets(s);
    case ContextChanges => AbandoningForgets(s);
    case KeyboardChanges(open, composing, reset) => ChangingTheKeyboardIsSame(w, s, open, composing, reset);
  }

  /**
    On every run, whatever the outcomes: the keys recorded since the last cancellation are, one by one
    and in order, the keys pressed since then with the keyboard open, each with its own virtual key,
    shift state and character.
   */
  lemma {:induction false} RecordedKeysArePressedKeys(w: World, s: State, events: seq<Event>)
    requires s.arrived == []
    ensures AllRecorded(Claimed(w, s, events), Run(w, s, events).arrived)
  {
    hide Apply, Records, Cancels, Interrupts;
    if events != [] {
      RecordedKeysArePressedKeys(w, s, DropLast(events));
      StepRecords(w, Run(w, s, DropLast(events)), Last(events), Claimed(w, s, DropLast(events)));
    }
  }

  // ---------------------------------------------------------------------------
  // Typing ahead, from the keys pressed.

  function Presses(arrivals: seq<Arrival>): seq<Event> {
    seq(|arrivals|, i requires 0 <= i < |arrivals| => KeyArrives(arrivals[i]))
  }

  /** A printable key that neither edits nor interrupts. */
  predicate Prints(a: Arrival) {
    !Edits(a) && !a.ctrlG && a.translated.Some? && ' ' <= a.translated.value <= '~'
  }

  predicate AllPrint(arrivals: seq<Arrival>) {
    forall i :: 0 <= i < |arrivals| ==> Prints(arrivals[i])
  }

  /** What was typed. */
  function Letters(arrivals: seq<Arrival>): seq<F.Key>
    requires AllPrint(arrivals)
  {
    seq(|arrivals|, i requires 0 <= i < |arrivals| => arrivals[i].translated.value)
  }

  lemma PrintingKeyIsPlain(a: Arrival)
    requires Prints(a)
    ensures Plain(Queued(a)) && Queued(a).codepoint == a.translated && a.virtualKey != VK_ESCAPE
  {
  }

  /** Behind a pending request printing keys wait, in order, each with its character. */
  lemma {:induction false} PrintingKeysWait(w: World, s: State, arrivals: seq<Arrival>)
    requires s.pending && s.host.open && s.queue == [] && AllPrint(arrivals)
    ensures var t := Run(w, s, Presses(arrivals));
      && t == s.(waiting := t.waiting) && t.resolved == s.resolved
      && AllPlain(t.queue) && Characters(t.queue) == Letters(arrivals)
  {
    hide Queued, Plain, Prints;
    if arrivals == [] {
      assert Presses(arrivals) == [];
    } else {
      var front, a := DropLast(arrivals), Last(arrivals);
      assert DropLast(Presses(arrivals)) == Presses(front);
      PrintingKeysWait(w, s, front);
      PrintingKeyIsPlain(a);
      var t := Run(w, s, Presses(front));
      LetterWaits(w, t, a);
      assert Letters(arrivals) == Letters(front) + [a.translated.value];
      var u := Run(w, s, Presses(arrivals));
      assert u.queue == t.queue + [Queued(a)];
      assert Characters(u.queue) == Characters(t.queue) + [a.translated.value];
    }
  }

  lemma LetterWaits(w: World, s: State, a: Arrival)
    requires s.pending && s.host.open && Prints(a)
    ensures var t := KeyDown(w, s, a);
      t == s.(waiting := t.waiting) && t.resolved == s.resolved && t.queue == s.queue + [Queued(a)]
  {
    PrintingKeyIsPlain(a);
  }

  /**
    Printing keys pressed behind a pending conversion, then its committed result: the front end is left
    as if it had been reset and the characters typed into it, and nothing waits.
   */
  lemma TypedAheadIsTyped(w: World, s: State, arrivals: seq<Arrival>, state: EngineState)
    requires Kind(w) && Serving(s) && s.pending && s.host.open && s.queue == [] && AllPrint(arrivals)
    requires state.candidates == [] && state.compositionStart < 0
    requires state.mode != F.CandidateMode && state.mode != F.RegistrationMode
    ensures var t := Run(w, s, Presses(arrivals) + [Reply(s.sequence, Some(state))]);
      && t.queue == [] && !t.pending
      && t.front == F.FeedAll(F.Reset(s.front), Letters(arrivals))
  {
    hide KeyDown, ApplyResult, F.FeedAll, F.Reset, Prints;
    PrintingKeysWait(w, s, arrivals);
    var events := Presses(arrivals) + [Reply(s.sequence, Some(state))];
    assert DropLast(events) == Presses(arrivals);
    TypeAheadIsTyping(w, Run(w, s, Presses(arrivals)), state);
  }

  // ---------------------------------------------------------------------------
  // Keys behind a candidate.

  predicate ShowsCandidates(state: EngineState) {
    state.candidates != [] || state.mode == F.CandidateMode
  }

  /** The reply to the pending request shows candidates while keys wait, and the next request starts. */
  predicate CandidateArrives(w: World, s: State, reply: EngineState) {
    ShowsCandidates(reply) && s.queue != [] && s.host.window && w.starts(s.sequence + 1)
  }

  /** The command a key gives a shown candidate, by engine. */
  function CommandOf(lattice: bool, key: Key): Option<Control> {
    if key.virtualKey == 0x0d then Some(DoCommit)
    else if key.virtualKey == 0x20 then Some(DoConvert)
    else if key.virtualKey == 0x08 then Some(DoBackspace)
    else if key.ctrlJ then Some(DoCancel)
    else if lattice then
      match (key.virtualKey, key.shift)
      case (0x25, false) => Some(SegmentPrev)
      case (0x25, true) => Some(SegmentShrink)
      case (0x27, false) => Some(SegmentNext)
      case (0x27, true) => Some(SegmentExtend)
      case _ => KanaCommand(key.virtualKey)
    else if key.virtualKey == 0x25 then Some(DoPrevious)
    else if key.virtualKey == 0x27 then Some(DoConvert)
    else KanaCommand(key.virtualKey)
  }

  /** F6 to F10. */
  function KanaCommand(virtualKey: nat): Option<Control> {
    match virtualKey
    case 0x75 => Some(DoToHiragana)
    case 0x76 => Some(DoToKatakana)
    case 0x77 => Some(DoToHalfKatakana)
    case 0x78 => Some(DoToWideLatin)
    case 0x79 => Some(DoToLatin)
    case _ => None
  }

  lemma CommandsOfKeys(engineId: EngineKind, key: Key)
    ensures CandidateControl(engineId, key) == CommandOf(engineId == Lattice, key)
  {
  }

  /**
    The candidate takes the oldest waiting key, if that is a command, and nothing else happens: front
    end, document, flags and candidate list stay, one request is made, and the other keys keep waiting.
    A key that is no command waits too, behind the request that accepts the candidate.
   */
  lemma CandidateTakesTheOldestKey(w: World, s: State, reply: EngineState)
    requires CandidateArrives(w, s, reply)
    ensures var t := ApplyResult(w, s, s.sequence, Some(reply)); var command := CommandOf(s.engineId == Lattice, s.queue[0]);
      && t.front == s.front && t.screen == s.screen && t.flags == s.flags && t.host == s.host
      && t.pending && t.sequence == s.sequence + 1 && t.uses == s.uses + [Requested(Command(if command.Some? then command.value else DoCommit))]
      && t.arrived == s.arrived
      && (command.Some? ==> t.queue == s.queue[1..] && t.resolved == s.resolved + [Resolution(s.queue[0], Sent(command.value))])
      && (command.None? ==> t.queue == s.queue && t.resolved == s.resolved)
  {
    hide Adopt, CandidateControl, CommandOf;
    CommandsOfKeys(s.engineId, s.queue[0]);
  }

  /** No event answers the pending request. */
  predicate NoAnswer(sequence: nat, later: seq<Event>) {
    forall i :: 0 <= i < |later| ==> later[i].Reply? ==> later[i].sequence != sequence
  }

  predicate NoClose(later: seq<Event>) {
    forall i :: 0 <= i < |later| ==> !later[i].KeyboardChanges?
  }

  /** Still behind the same request: nothing resolved, nothing typed. */
  predicate StillWaiting(s: State, t: State) {
    t.ticket == s.ticket && t.resolved == s.resolved && t.front == s.front
  }

  predicate WaitsOn(s: State, t: State) {
    t.ticket == s.ticket && s.queue <= t.queue && t.document == s.document
  }

  /** The request was given up: its number is followed by a cancellation. */
  predicate GivenUp(s: State, t: State) {
    s.uses < t.uses && t.uses[|s.uses|] == Cancelled
  }

  lemma InterruptingGivesUp(w: World, s: State, a: Arrival)
    requires Numbered(s) && s.host.open && Interrupts(s, a)
    ensures GivenUp(s, KeyDown(w, s, a))
  {
    hide Handle, HandleOnCandidate;
    var t := CancelPending(s);
    HandlingSpends(w, t, a);
    HandlingOnCandidateSpends(w, t, a);
  }

  lemma WaitingStep(w: World, s: State, e: Event)
    requires Numbered(s) && s.pending && (e.Reply? ==> e.sequence != s.sequence)
    ensures var t := Apply(w, s, e);
      && (StillWaiting(s, t) || GivenUp(s, t))
      && (StillWaiting(s, t) && !e.KeyboardChanges? ==> WaitsOn(s, t))
  {
    match e
    case KeyArrives(a) => if s.host.open && Interrupts(s, a) { InterruptingGivesUp(w, s, a); }
    case Reply(sequence, state) =>
    case CompositionEnds =>
    case ContextChanges =>
    case KeyboardChanges(open, composing, reset) =>
  }

  lemma StillGivenUp(w: World, s: State, t: State, e: Event)
    requires Numbered(t) && GivenUp(s, t)
    ensures GivenUp(s, Apply(w, t, e)) && !StillWaiting(s, Apply(w, t, e))
  {
    hide Apply;
    assert DropLast([e]) == [];
    assert Run(w, t, []) == t;
    RunSpends(w, t, [e]);
    assert Run(w, t, [e]) == Apply(w, t, e);
  }

  lemma WaitingContinues(s: State, t: State, u: State)
    requires StillWaiting(s, t) && (StillWaiting(t, u) || GivenUp(t, u))
    ensures StillWaiting(s, u) || GivenUp(s, u)
    ensures WaitsOn(s, t) && WaitsOn(t, u) ==> WaitsOn(s, u)
  {
  }

  /**
    Until the pending request is answered, on every run: no key is resolved and the front end does not
    change, unless the request is cancelled, which forgets the keys. With no keyboard change between,
    the waiting keys wait on in order, and the document does not change.
   */
  lemma {:induction false} NothingResolvesBeforeTheAnswer(w: World, s: State, later: seq<Event>)
    requires Numbered(s) && s.pending && NoAnswer(s.sequence, later)
    ensures var t := Run(w, s, later);
      && Numbered(t)
      && (StillWaiting(s, t) || GivenUp(s, t))
      && (StillWaiting(s, t) && NoClose(later) ==> WaitsOn(s, t))
  {
    hide Apply, StillWaiting, GivenUp, WaitsOn, Numbered;
    if later == [] {
      WaitingAtFirst(s);
    } else {
      var front, e := DropLast(later), Last(later);
      NothingResolvesBeforeTheAnswer(w, s, front);
      var t := Run(w, s, front);
      RunSpends(w, s, later);
      if StillWaiting(s, t) {
        SameTicket(s, t);
        WaitingStep(w, t, e);
        WaitingContinues(s, t, Apply(w, t, e));
        if GivenUp(t, Apply(w, t, e)) { GivenUpIsNotWaiting(s, t, Apply(w, t, e)); }
      } else {
        StillGivenUp(w, s, t, e);
      }
    }
  }

  lemma WaitingAtFirst(s: State)
    ensures StillWaiting(s, s) && WaitsOn(s, s)
  {
  }

  lemma SameTicket(s: State, t: State)
    requires StillWaiting(s, t)
    ensures t.ticket == s.ticket
  {
  }

  lemma GivenUpIsNotWaiting(s: State, t: State, u: State)
    requires StillWaiting(s, t) && GivenUp(t, u)
    ensures !StillWaiting(s, u)
  {
  }

  predicate ActsNatively(action: Action) {
    action.Shown? || action.Converted? || action.Ignored?
  }

  /**
    Keys queued when a candidate arrives never reach the native front end before the next answer: until
    then at most the oldest one was resolved, and that one was sent to the candidate.
   */
  lemma KeysBehindACandidateStayOut(w: World, s: State, reply: EngineState, later: seq<Event>, k: nat)
    requires Numbered(s) && CandidateArrives(w, s, reply) && NoAnswer(s.sequence + 1, later)
    requires var t := Run(w, ApplyResult(w, s, s.sequence, Some(reply)), later);
      t.pending && |t.uses| == |s.uses| + 1 && |s.resolved| <= k < |t.resolved|
    ensures var t := Run(w, ApplyResult(w, s, s.sequence, Some(reply)), later);
      && t.resolved[k].action.Sent? && !ActsNatively(t.resolved[k].action)
      && k == |s.resolved| && t.resolved[k].key == s.queue[0] && t.front == s.front
  {
    hide ApplyResult, Run, CommandOf;
    CandidateTakesTheOldestKey(w, s, reply);
    var t := ApplyResult(w, s, s.sequence, Some(reply));
    ReplySpends(w, s, s.sequence, Some(reply));
    NothingResolvesBeforeTheAnswer(w, t, later);
  }

  // ---------------------------------------------------------------------------
  // Keys that start a request at once.

  /** A window to make requests from, and the next one starts. */
  predicate MayRequest(w: World, s: State) {
    s.host.window && w.starts(s.sequence + 1)
  }

  /** One request was made, and nothing was shown, typed or decided. */
  predicate OnlyRequested(s: State, t: State, ask: Ask) {
    && t.pending && t.sequence == s.sequence + 1 && t.uses == s.uses + [Requested(ask)]
    && t.front == s.front && t.flags == s.flags && t.document == s.document && t.edits == s.edits && t.host == s.host
  }

  /**
    Space on a native preedit converts it, and is not queued; on the lattice engine F6 to F10 convert it
    too, and wait for the candidate.
   */
  lemma ConversionKeysConvert(w: World, s: State, a: Arrival)
    requires MayRequest(w, s) && s.host.open && !s.pending && !s.flags.registration && !a.ctrlG
    requires NativePreedit(s, a) && s.front.rawKeys != []
    requires (a.virtualKey == 0x20 && !s.front.wideLatin) || (0x75 <= a.virtualKey <= 0x79 && s.engineId == Lattice)
    ensures var t := KeyDown(w, s, a);
      && OnlyRequested(s, t, Convert(s.front.rawKeys)) && t.screen.candidateUi == Some(BUSY)
      && |t.arrived| == |s.arrived| + 1 && Records(a, Last(t.arrived))
      && (a.virtualKey == 0x20 ==> t.queue == s.queue && t.resolved == s.resolved + [Resolution(Last(t.arrived), Converted)])
      && (a.virtualKey != 0x20 ==> t.queue == s.queue + [Last(t.arrived)] && t.resolved == s.resolved)
  {
  }

  /**
    The keys a conversion sends are the preedit: after any typing, taking back and changing of class,
    typing just those keys from nothing, in the class of the moment, gives what is on the screen.
   */
  lemma ConversionsSendThePreedit(w: World, s: State, a: Arrival, start: F.State, typed: seq<FrontendRuns.Event>)
    requires MayRequest(w, s) && s.host.open && !s.pending && !s.flags.registration && !a.ctrlG
    requires NativePreedit(s, a) && a.virtualKey == 0x20
    requires start == F.Reset(start) && start.Kana() && FrontendRuns.AllowedRun(start, typed)
    requires s.front == FrontendRuns.Run(start, typed)
    ensures var t := KeyDown(w, s, a);
      && t.uses != [] && Last(t.uses).Requested? && Last(t.uses).ask.Convert?
      && F.FeedAll(F.Reset(s.front), Last(t.uses).ask.keys) == s.front
  {
    hide F.FeedAll, FrontendRuns.Run, FrontendRuns.AllowedRun, KeyDown;
    FrontendRuns.ReplayInvariant(start, typed);
    FrontendRuns.ReplaysOpen(s.front);
    assert s.front.rawKeys != [];
    ConversionKeysConvert(w, s, a);
  }

  /**
    On a shown candidate a key is the command it stands for, or else, if it types, it accepts the
    candidate and waits behind that request.
   */
  lemma KeysOnACandidate(w: World, s: State, a: Arrival)
    requires MayRequest(w, s) && s.host.open && !s.pending && s.flags.providerActive
    requires !a.ctrlG && !a.katakanaQ && a.virtualKey != 0x1b
    requires a.translated.Some? || CommandOf(s.engineId == Lattice, Typed(a)).Some?
    ensures var t := KeyDown(w, s, a); var command := CommandOf(s.engineId == Lattice, Typed(a));
      && OnlyRequested(s, t, Command(if command.Some? then command.value else DoCommit)) && t.screen == s.screen
      && |t.arrived| == |s.arrived| + 1 && Records(a, Last(t.arrived))
      && (command.Some? ==> t.queue == s.queue && t.resolved == s.resolved + [Resolution(Last(t.arrived), Sent(command.value))])
      && (command.None? ==>
            t.queue == s.queue + [Last(t.arrived)] && t.resolved == s.resolved && Last(t.arrived).codepoint == a.translated)
  {
    hide CandidateControl, CommandOf, Handle, Records, Typed;
    CommandsOfKeys(s.engineId, Typed(a));
    TypedRecords(a);
    TypedCharacter(a);
  }

  lemma TypedCharacter(a: Arrival)
    ensures Typed(a).codepoint == a.translated
  {
  }

  // What a key commands in the registration editor.
  const EDITOR_COMMANDS: map<nat, Control> := map[
    0x08 := DoBackspace, 0x2e := DoDelete, 0x20 := DoConvert, 0x0d := DoCommit, 0x1b := DoQuit,
    0x25 := DoLeft, 0x27 := DoRight, 0x26 := DoHome, 0x24 := DoHome, 0x28 := DoEnd, 0x23 := DoEnd,
    0x75 := DoToHiragana, 0x76 := DoToKatakana]

  /** In the registration editor a key is its command, or else the character it types. */
  lemma KeysInTheEditor(w: World, s: State, a: Arrival)
    requires MayRequest(w, s) && s.host.open && !s.pending && s.flags.registration && !s.flags.providerActive
    requires !a.ctrlG && !a.ctrlJ && (a.translated.Some? || a.virtualKey in EDITOR_COMMANDS)
    ensures var t := KeyDown(w, s, a);
      && OnlyRequested(s, t, if a.virtualKey in EDITOR_COMMANDS then Command(EDITOR_COMMANDS[a.virtualKey])
                             else Typing([a.translated.value]))
      && t.screen == s.screen && t.queue == s.queue
      && |t.arrived| == |s.arrived| + 1 && Records(a, Last(t.arrived))
      && t.resolved == s.resolved + [Resolution(
           Last(t.arrived), if a.virtualKey in EDITOR_COMMANDS then Sent(EDITOR_COMMANDS[a.virtualKey]) else Batched)]
  {
  }

  // ---------------------------------------------------------------------------
  // A reply is shown.

  /**
    A current reply outside registration, with no key waiting, goes into the document once, with its
    candidate list beside it. The flags say afterwards whether a composition is shown, and whether it is
    the engine's; a reply that ends the composition clears the front end.
   */
  lemma RepliesAreShown(w: World, s: State, state: EngineState)
    requires s.queue == [] && s.context && state.mode != F.RegistrationMode
    ensures var t := ApplyResult(w, s, s.sequence, Some(state));
      && t.document == s.document + (if w.grants(s.edits) then [state] else []) && t.edits == s.edits + 1
      && t.screen.candidateUi == (if state.candidates == [] then None else Some(state))
      && !t.pending && t.sequence == s.sequence && t.resolved == s.resolved
      && !t.flags.registration && !t.flags.failed && t.flags.lastMode == state.mode
      && (t.flags.enginePending <==> state.compositionStart >= 0 || state.pendingRomaji != "")
      && (t.flags.providerActive <==> state.compositionStart >= 0 && state.candidates != [])
      && (state.mode == F.CandidateMode || state.compositionStart >= 0 ==> t.front == s.front)
      && (state.mode != F.CandidateMode && state.compositionStart < 0 ==>
            t.front.text == "" && t.front.pending == "" && t.front.rawKeys == [] && !t.front.preedit
            && t.front.katakana == s.front.katakana)
  {
  }

  /** The same of a state the direct handler shows; in registration nothing goes into the document. */
  lemma DirectStatesAreShown(w: World, s: State, a: Arrival)
    requires a.outcome.Showed?
    ensures var t := HandleDirectly(w, s, a); var state := a.outcome.state;
      var registering := state.mode == F.RegistrationMode;
      && t.ticket == s.ticket && t.queue == s.queue && t.host == s.host
      && t.document == s.document + (if !registering && w.grants(s.edits) then [state] else [])
      && t.screen.candidateUi == (if registering || state.candidates == [] then None else Some(state))
      && !t.flags.failed && (t.flags.registration <==> registering)
      && t.flags.lastMode == (if registering then s.flags.lastMode else state.mode)
      && (t.flags.enginePending <==> registering || state.compositionStart >= 0 || state.pendingRomaji != "")
      && (t.flags.providerActive <==> !registering && state.compositionStart >= 0 && state.candidates != [])
  {
  }

  /** In registration the leading characters that wait go to the editor as one batch. */
  lemma WaitingCharactersAreBatched(w: World, s: State, state: EngineState) returns (n: nat)
    requires s.queue != [] && s.queue[0].codepoint.Some? && MayRequest(w, s)
    requires state.mode == F.RegistrationMode && state.candidates == []
    ensures 0 < n <= |s.queue| && (forall i :: 0 <= i < n ==> s.queue[i].codepoint.Some?)
    ensures n < |s.queue| ==> s.queue[n].codepoint.None?
    ensures var t := ApplyResult(w, s, s.sequence, Some(state));
      && t.queue == s.queue[n..] && Keys(t.resolved) == Keys(s.resolved) + s.queue[..n]
      && t.pending && t.sequence == s.sequence + 1 && t.flags.registration && t.document == s.document
      && t.uses != [] && Last(t.uses).Requested? && Last(t.uses).ask.Typing? && |Last(t.uses).ask.characters| == n
      && (forall i :: 0 <= i < n ==> s.queue[i].codepoint == Some(Last(t.uses).ask.characters[i]))
  {
    hide Keys, ResolveAll, PrintablePrefix;
    n := PrintablePrefix(s.queue);
    PrefixIsPrintable(s.queue);
    var t := AdoptFlags(s.Answered(), state).ShowingNothing();
    var u := Begin(w, t.WithQueue(s.queue[n..]), Typing(Written(s.queue[..n]))).0;
    WrittenOneByOne(s.queue[..n]);
    ResolvingMany(u, s.queue[..n], Batched);
  }

  lemma {:induction false} WrittenOneByOne(keys: seq<Key>)
    requires forall i :: 0 <= i < |keys| ==> keys[i].codepoint.Some?
    ensures |Written(keys)| == |keys|
    ensures forall i :: 0 <= i < |keys| ==> keys[i].codepoint == Some(Written(keys)[i])
  {
    if keys != [] { WrittenOneByOne(DropLast(keys)); }
  }

  lemma {:induction false} PrefixIsPrintable(queue: seq<Key>)
    ensures var n := PrintablePrefix(queue);
      && (forall i :: 0 <= i < n ==> queue[i].codepoint.Some?)
      && (n < |queue| ==> queue[n].codepoint.None?)
      && (queue != [] && queue[0].codepoint.Some? ==> n > 0)
  {
    if queue != [] && queue[0].codepoint.Some? { PrefixIsPrintable(queue[1..]); }
  }

  // ---------------------------------------------------------------------------
  // The ends of a composition.

  predicate NothingTyped(front: F.State) {
    !front.preedit && !front.okuriStarted && front.text == "" && front.pending == "" && front.rawKeys == []
  }

  /**
    A composition ended by the application, or left behind in another context, leaves nothing: no
    pending request, no waiting key, no candidates, no preedit. Only an open registration survives the
    first, and what was put in the document stays there.
   */
  lemma AbandonedCompositionsAreGone(w: World, s: State, e: Event)
    requires e.CompositionEnds? || e.ContextChanges?
    ensures var t := Apply(w, s, e);
      && t.screen.candidateUi == None && t.document == s.document
      && (e.CompositionEnds? && s.flags.registration ==>
            t.ticket == s.ticket && t.waiting == s.waiting && t.front == s.front && t.flags.registration)
      && (!(e.CompositionEnds? && s.flags.registration) ==>
            && !t.pending && t.uses == s.uses + [Cancelled] && t.queue == []
            && NothingTyped(t.front) && t.front.katakana == s.front.katakana
            && !t.flags.registration && !t.flags.providerActive && !t.flags.enginePending
            && t.flags.lastMode == (if e.ContextChanges? then F.HiraganaMode else s.flags.lastMode))
  {
  }

  /** Closing on a composition removes it from the flags, the list and the queue, and shows the RESET's answer. */
  lemma ClosingRemovesTheComposition(w: World, s: State, composing: bool, reset: Option<EngineState>)
    requires s.host.open && Composing(s, composing)
    ensures var t := Apply(w, s, KeyboardChanges(false, composing, reset));
      && !t.host.open && t.ticket == s.ticket && t.queue == [] && t.screen.candidateUi == None
      && !t.flags.registration && !t.flags.providerActive && !t.flags.enginePending
      && t.document == s.document + (if reset.Some? && s.context && w.grants(s.edits) then [reset.value] else [])
  {
  }

  /** Opening the keyboard again brings back the mode it was closed in, whatever happened to it meanwhile. */
  lemma ReopeningRestoresTheMode(w: World, s: State, composing: bool, reset: Option<EngineState>, t: State)
    requires s.host.open && t.host == Apply(w, s, KeyboardChanges(false, composing, reset)).host
    ensures var u := Apply(w, t, KeyboardChanges(true, composing, reset));
      u.host.open && u.flags == t.flags.(lastMode := s.flags.lastMode) && u.ticket == t.ticket && u.waiting == t.waiting
  {
  }
}
