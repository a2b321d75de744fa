/** The text service object: its provider members updated in place, step by step. */
module TextServiceObject {
  import opened Common
  import opened Provider
  import P = Provider
  import F = Frontend
  import opened RealtimeFrontendObject

  // ---------------------------------------------------------------------------
  // One turn of the replay loop, as three cases: the new state, and whether the loop is left.

  function ConvertWith(w: World, s: State, key: Key): (State, bool) {
    var (t, started) := BeginConversion(w, s);
    if started then (Resolve(t, key, Converted).ShowingBusy(), true)
    else (Resolve(t, key, Dropped), false)
  }

  function WaitWith(w: World, s: State, key: Key): (State, bool) {
    var (t, started) := BeginConversion(w, s.WithQueue([key] + s.queue));
    if started then (t.ShowingBusy(), true)
    else (Resolve(t.WithQueue(s.queue), key, Dropped), false)
  }

  function EditWith(w: World, s: State, key: Key): (State, bool) {
    var (front, shown) := Native(s.front, key);
    var t := s.(front := front);
    if shown.None? then (Resolve(t, key, Ignored), false)
    else
      var state := OfSurface(shown.value);
      (ShowState(w, Resolve(t, key, Shown(state)), state), !w.grants(s.edits))
  }

  function Turn(w: World, s: State): (State, bool)
    requires s.queue != []
  {
    var key := s.queue[0];
    if Converts(s.front, key) then ConvertWith(w, Pop(s), key)
    else if WaitsForConversion(s.front, key) then WaitWith(w, Pop(s), key)
    else EditWith(w, Pop(s), key)
  }

  /** Dispatching the oldest key, before the reply itself is adopted. */
  function Dispatched(w: World, s: State): (State, bool)
    requires s.queue != []
  {
    var key := s.queue[0];
    var control := CandidateControl(s.engineId, key);
    var (t, started) := Begin(w, if control.Some? then Pop(s) else s, Asking(control));
    (if control.None? then t else Resolve(t, key, if started then Sent(control.value) else Dropped), started)
  }

  lemma DispatchIsDispatched(w: World, s: State, state: EngineState)
    requires s.queue != []
    ensures var (t, started) := Dispatched(w, s);
      DispatchToCandidate(w, s, state) == if started then t else Adopt(w, t, state)
  {
    hide Adopt, CandidateControl, Begin;
  }

  /** A key queued behind a request, or taken back when the request does not start. */
  function QueuedBehind(w: World, s: State, key: Key, conversion: bool): (State, bool) {
    var queued := Enqueue(s, key);
    var (t, started) := if conversion then BeginConversion(w, queued) else Begin(w, queued, Command(DoCommit));
    (if started then t else t.(waiting := s.waiting), started)
  }

  function ConvertedArrival(w: World, s: State, key: Key): (State, bool) {
    var (t, started) := BeginConversion(w, s);
    (if started then P.Resolve(Arrive(t, key), key, Converted).ShowingBusy() else t, started)
  }

  lemma HandleIsQueuedBehind(w: World, s: State, a: Arrival)
    ensures HandleNative(w, s, a) ==
            if a.virtualKey == VK_SPACE && !(s.engineId == Ddskk && s.front.wideLatin) && NativePreedit(s, a) then
              var (t, started) := ConvertedArrival(w, s, Typed(a));
              if started then t else HandleDirectly(w, t, a)
            else if VK_F6 <= a.virtualKey <= VK_F10 && s.engineId == Lattice && NativePreedit(s, a) then
              var (t, started) := QueuedBehind(w, s, Key(a.virtualKey, None, a.shift, false), true);
              if started then t.ShowingBusy()
              else HandleDirectly(w, t, a.(front := s.front, outcome := Failed))
            else HandleDirectly(w, s, a)
  {
    hide HandleDirectly, BeginConversion, NativePreedit;
  }

  lemma BeginMovesNoKey(w: World, s: State, ask: Ask)
    ensures Begin(w, s, ask).0.queue == s.queue
  {
  }

  lemma CancelKeepsComposition(s: State)
    ensures CancelPending(s).flags.providerActive == s.flags.providerActive
  {
  }

  /** A key offered to the shown candidate, and whether that was the end of it. */
  function Offered(w: World, s: State, a: Arrival): (State, bool) {
    var control := CandidateControl(s.engineId, Typed(a));
    var (t, sent) := if control.Some? then Begin(w, s, Asking(control)) else (s, false);
    if sent then (P.Resolve(Arrive(t, Typed(a)), Typed(a), Sent(control.value)), true)
    else if a.translated.None? then (t, false)
    else QueuedBehind(w, t, Typed(a), false)
  }

  lemma OfferedIsHandled(w: World, s: State, a: Arrival)
    ensures var (t, eaten) := Offered(w, s, a);
      HandleOnCandidate(w, s, a) == if eaten then t else Handle(w, t, a)
  {
    hide Handle, CandidateControl, Begin, Typed;
  }

  predicate Ready(s: State) {
    s.queue != [] && s.context && !s.pending
  }

  lemma ReplayIsDone(w: World, s: State)
    requires !Ready(s)
    ensures Replay(w, s) == s
  {
  }

  lemma BeginConversionMovesNoKey(w: World, s: State)
    ensures BeginConversion(w, s).0.queue == s.queue
  {
  }

  lemma TurnTakesAKey(w: World, s: State)
    requires s.queue != []
    ensures !Turn(w, s).1 ==> Turn(w, s).0.queue == s.queue[1..]
  {
    hide Native, BeginConversion;
    if Converts(s.front, s.queue[0]) {
      BeginConversionMovesNoKey(w, Pop(s));
    } else if WaitsForConversion(s.front, s.queue[0]) {
    } else {
    }
  }

  /** The recursive specification is the loop: turn after turn until one of them stops it. */
  lemma ReplayUnfolds(w: World, s: State)
    requires Ready(s)
    ensures var (t, stop) := Turn(w, s); Replay(w, s) == if stop then t else Replay(w, t)
  {
    hide Native;
    var key := s.queue[0];
    if WaitsForConversion(s.front, key) {
      BeginConversionMovesNoKey(w, s);
      assert s == Pop(s).WithQueue([key] + s.queue[1..]);
    }
  }

  class TextService {
    const world: World
    const front: RealtimeFrontend
    var providerSequence: nat
    var providerPending: bool
    var deferredProviderKeys: seq<Key>
    var providerWindow: bool
    var activeContext: bool
    var engineId: EngineKind
    var keyboardOpen: bool
    var modeBeforeClose: F.Mode
    var registrationMode: bool
    var providerCompositionActive: bool
    var enginePending: bool
    var lastEngineMode: F.Mode
    var engineRoundtripFailed: bool
    var document: seq<EngineState>
    var edits: nat
    var candidateUi: Option<EngineState>
    ghost var arrived: seq<Key>
    ghost var resolved: seq<Resolution>
    ghost var uses: seq<Use>

    /** The object's value: one state of the protocol. */
    ghost function View(): State
      reads this, front
    {
      State(Ticket(providerSequence, providerPending, uses),
            Waiting(deferredProviderKeys, arrived, resolved),
            Host(providerWindow, activeContext, engineId, keyboardOpen, modeBeforeClose),
            front.View(),
            Flags(registrationMode, providerCompositionActive, enginePending, lastEngineMode, engineRoundtripFailed),
            Screen(document, edits, candidateUi))
    }

    constructor (world: World, engineId: EngineKind)
      ensures this.world == world && fresh(front)
      ensures View().sequence == 0 && !View().pending && View().queue == [] && View().uses == []
      ensures View().arrived == [] && View().resolved == [] && !View().front.preedit && !View().flags.registration
    {
      this.world, this.engineId := world, engineId;
      front := new RealtimeFrontend();
      providerSequence, providerPending, deferredProviderKeys := 0, false, [];
      providerWindow, activeContext, keyboardOpen, modeBeforeClose := false, false, true, F.OtherMode("");
      registrationMode, providerCompositionActive, enginePending := false, false, false;
      lastEngineMode, engineRoundtripFailed, document, edits, candidateUi := F.OtherMode(""), false, [], 0, None;
      arrived, resolved, uses := [], [], [];
    }

    ghost method Resolve(key: Key, action: Action)
      modifies this`resolved
      ensures resolved == old(resolved) + [Resolution(key, action)]
    {
      resolved := resolved + [Resolution(key, action)];
    }

    method BeginProvider(ask: Ask) returns (started: bool)
      modifies this`providerSequence, this`providerPending, this`uses
      ensures (View(), started) == Begin(world, old(View()), ask)
    {
      if !providerWindow { return false; }
      providerSequence := providerSequence + 1;
      providerPending := true;
      started := world.starts(providerSequence);
      if !started { providerPending := false; }
      uses := uses + [if started then Requested(ask) else FailedToStart];
    }

    method BeginProviderConversion() returns (started: bool)
      modifies this`providerSequence, this`providerPending, this`uses
      ensures View() == BeginConversion(world, old(View())).0 && started == BeginConversion(world, old(View())).1
    {
      if front.rawKeys == [] { return false; }
      started := BeginProvider(Convert(front.rawKeys));
    }

    method CancelPendingProvider()
      modifies this`providerSequence, this`providerPending, this`deferredProviderKeys
      modifies this`arrived, this`resolved, this`uses
      ensures View() == CancelPending(old(View()))
    {
      providerSequence := providerSequence + 1;
      providerPending := false;
      deferredProviderKeys := [];
      StartHistory();
    }

    /** A cancellation is where the history of keys starts again. */
    ghost method StartHistory()
      modifies this`arrived, this`resolved, this`uses
      ensures arrived == [] && resolved == [] && uses == old(uses) + [Cancelled]
    {
      arrived, resolved, uses := [], [], uses + [Cancelled];
    }

    /** The application ended the composition, or it is given up: cancel it and forget it. */
    method ResetAbandonedComposition()
      modifies this, front
      ensures View() == Abandon(old(View()))
    {
      hide F.Reset, CancelPending;
      CancelPendingProvider();
      ForgetComposition();
    }

    method ForgetComposition()
      modifies this`candidateUi, this`registrationMode, this`enginePending, this`providerCompositionActive
      modifies this`engineRoundtripFailed, front
      ensures View() == old(View()).ShowingNothing().(
        front := F.Reset(old(front.View())), flags := Flags(false, false, false, old(lastEngineMode), false))
    {
      hide F.Reset;
      front.Reset();
      candidateUi := None;
      ClearFlags();
      engineRoundtripFailed := false;
    }

    method ClearFlags()
      modifies this`registrationMode, this`enginePending, this`providerCompositionActive
      ensures !registrationMode && !enginePending && !providerCompositionActive
    {
      registrationMode := false;
      enginePending := false;
      providerCompositionActive := false;
    }

    /** A composition on a dead engine, or left behind in another context. */
    method ForceCancelComposition()
      modifies this, front
      ensures View() == GiveUp(old(View()))
    {
      hide Abandon;
      ResetAbandonedComposition();
      lastEngineMode := F.HiraganaMode;
    }

    method OnCompositionTerminated()
      modifies this, front
      ensures View() == Terminate(old(View()))
    {
      hide Abandon;
      if registrationMode {
        candidateUi := None;
        enginePending := true;
        return;
      }
      ResetAbandonedComposition();
    }

    /** `reset` is the reply to the RESET that a close sends while composing. */
    method ApplyKeyboardOpenChange(open: bool, composing: bool, reset: Option<EngineState>)
      modifies this
      ensures View() == ChangeKeyboard(world, old(View()), open, composing, reset)
    {
      hide CloseKeyboard;
      if open == keyboardOpen { return; }
      if open {
        keyboardOpen := true;
        lastEngineMode := modeBeforeClose;
      } else {
        CloseComposition(composing, reset);
      }
    }

    method CloseComposition(composing: bool, reset: Option<EngineState>)
      modifies this
      ensures View() == CloseKeyboard(world, old(View()), composing, reset)
    {
      hide P.RemoveComposition;
      MarkClosed();
      if enginePending || registrationMode || composing { RemoveComposition(reset); }
    }

    method MarkClosed()
      modifies this`keyboardOpen, this`modeBeforeClose
      ensures !keyboardOpen && modeBeforeClose == lastEngineMode
    {
      modeBeforeClose := lastEngineMode;
      keyboardOpen := false;
    }

    method RemoveComposition(reset: Option<EngineState>)
      modifies this
      ensures View() == P.RemoveComposition(world, old(View()), reset)
    {
      hide Edit, F.Reset;
      ghost var was := View();
      ForgetKeys();
      ClearFlags();
      assert View() == was.WithQueue([]).ShowingNothing().(
        flags := was.flags.(registration := false, providerActive := false, enginePending := false));
      if reset.Some? && activeContext {
        var granted := EditDocument(reset.value);
      }
    }

    /** Nothing waits and nothing is shown; a pending request stays pending. */
    method ForgetKeys()
      modifies this`candidateUi, this`deferredProviderKeys
      ensures candidateUi == None && deferredProviderKeys == []
    {
      candidateUi := None;
      deferredProviderKeys := [];
    }

    method EditDocument(state: EngineState) returns (granted: bool)
      modifies this`edits, this`document
      ensures View() == Edit(world, old(View()), state) && granted == world.grants(old(edits))
    {
      granted := world.grants(edits);
      edits := edits + 1;
      if granted { document := document + [state]; }
    }

    /** Put a front-end state in the document. */
    method ShowNativeState(state: EngineState) returns (granted: bool)
      modifies this`enginePending, this`lastEngineMode, this`candidateUi, this`edits, this`document
      ensures View() == ShowState(world, old(View()), state) && granted == world.grants(old(edits))
    {
      enginePending := state.compositionStart >= 0 || state.pendingRomaji != "";
      lastEngineMode := state.mode;
      granted := UpdateDocument(state);
    }

    /** The candidate list and the edit session every state goes through. */
    method UpdateDocument(state: EngineState) returns (granted: bool)
      modifies this`candidateUi, this`edits, this`document
      ensures View() == Display(world, old(View()), state) && granted == world.grants(old(edits))
    {
      hide Edit;
      candidateUi := if state.candidates == [] then None else Some(state);
      granted := EditDocument(state);
    }

    method RestartAfter(state: EngineState)
      modifies front
      ensures
        var held := lastEngineMode == F.CandidateMode || registrationMode || providerCompositionActive;
        front.View() == if held && state.mode != F.CandidateMode && state.compositionStart < 0
                        then F.Reset(old(front.View())) else old(front.View())
    {
      hide F.Reset;
      var held := lastEngineMode == F.CandidateMode || registrationMode || providerCompositionActive;
      if held && state.mode != F.CandidateMode && state.compositionStart < 0 { front.Reset(); }
    }

    /** The tail of the direct handler, once the handler has left its state and the front end. */
    method ShowHandled(state: EngineState)
      modifies this, front
      ensures View() == ShowDirect(world, old(View()), state)
    {
      hide F.Reset, Display;
      ghost var was := View();
      RestartAfter(state);
      ghost var restarted := front.View();
      SetFlags(state);
      assert View() == was.(front := restarted, flags := View().flags);
      if registrationMode {
        candidateUi := None;
      } else {
        var granted := UpdateDocument(state);
      }
    }

    /** What a deferred key that starts no conversion does to the front end. */
    method FeedNatively(key: Key) returns (shown: Option<F.Surface>)
      modifies front
      ensures front.View() == Native(old(front.View()), key).0 && shown == Native(old(front.View()), key).1
    {
      hide F.Commit, F.Backspace, F.Quit, F.Feed, F.ToHiragana;
      shown := None;
      if key.virtualKey == VK_RETURN {
        shown := front.Commit();
      } else if key.virtualKey == VK_BACK {
        shown := front.Backspace();
      } else if key.ctrlJ {
        shown := front.Commit();
        var hiragana := front.ToHiragana();
        shown := if shown.Some? then Some(shown.value.(mode := F.HiraganaMode)) else Some(hiragana);
      } else if key.virtualKey == VK_ESCAPE {
        shown := front.Quit();
      } else if key.codepoint.Some? {
        shown := front.Feed(key.codepoint.value);
      }
    }

    /** Space on a preedit: convert it, or lose the key. */
    method ConvertPreedit(key: Key) returns (stop: bool)
      modifies this
      ensures View() == ConvertWith(world, old(View()), key).0 && stop == ConvertWith(world, old(View()), key).1
    {
      hide BeginConversion;
      stop := BeginProviderConversion();
      Resolve(key, if stop then Converted else Dropped);
      if stop { candidateUi := Some(BUSY); }
    }

    /** Put a key back in front of the queue and convert the preedit behind it. */
    method ConvertAhead(key: Key) returns (started: bool)
      modifies this`deferredProviderKeys, this`providerSequence, this`providerPending, this`uses
      ensures var queued := old(View()).WithQueue([key] + old(deferredProviderKeys));
        View() == BeginConversion(world, queued).0 && started == BeginConversion(world, queued).1
      ensures deferredProviderKeys == [key] + old(deferredProviderKeys)
    {
      hide BeginConversion;
      deferredProviderKeys := [key] + deferredProviderKeys;
      BeginConversionMovesNoKey(world, View());
      started := BeginProviderConversion();
    }

    /** Take the first key off the queue and give it up. */
    method DropFirst()
      requires deferredProviderKeys != []
      modifies this`deferredProviderKeys, this`resolved
      ensures View() == P.Resolve(old(View()).WithQueue(old(deferredProviderKeys)[1..]), old(deferredProviderKeys)[0], Dropped)
    {
      Resolve(deferredProviderKeys[0], Dropped);
      deferredProviderKeys := deferredProviderKeys[1..];
    }

    /** A function key goes back in front of the queue, behind a conversion. */
    method WaitForConversion(key: Key) returns (stop: bool)
      modifies this
      ensures View() == WaitWith(world, old(View()), key).0 && stop == WaitWith(world, old(View()), key).1
    {
      hide BeginConversion, P.Resolve;
      ghost var rest := deferredProviderKeys;
      stop := ConvertAhead(key);
      ghost var t := View();
      if stop {
        candidateUi := Some(BUSY);
        assert View() == t.ShowingBusy();
      } else {
        assert deferredProviderKeys[1..] == rest;
        DropFirst();
      }
    }

    /** Any other key edits the front end and shows what it left there. */
    method ReplayNatively(key: Key) returns (stop: bool)
      modifies this, front
      ensures View() == EditWith(world, old(View()), key).0 && stop == EditWith(world, old(View()), key).1
    {
      hide Native;
      var shown := FeedNatively(key);
      if shown.None? {
        Resolve(key, Ignored);
        return false;
      }
      var state := OfSurface(shown.value);
      Resolve(key, Shown(state));
      var granted := ShowNativeState(state);
      stop := !granted;
    }

    method ReplayDeferredProviderKeys()
      modifies this, front
      ensures View() == Replay(world, old(View()))
    {
      hide Replay, ConvertWith, WaitWith, EditWith;
      while deferredProviderKeys != [] && activeContext && !providerPending
        invariant Replay(world, View()) == Replay(world, old(View()))
        decreases |deferredProviderKeys|
      {
        ghost var before := View();
        var key := deferredProviderKeys[0];
        deferredProviderKeys := deferredProviderKeys[1..];
        assert View() == Pop(before);
        var stop;
        if front.preedit && key.virtualKey == VK_SPACE {
          stop := ConvertPreedit(key);
        } else if front.preedit && !key.ctrlJ && VK_F6 <= key.virtualKey <= VK_F10 {
          stop := WaitForConversion(key);
        } else {
          stop := ReplayNatively(key);
        }
        ReplayUnfolds(world, before);
        TurnTakesAKey(world, before);
        if stop { return; }
      }
      ReplayIsDone(world, View());
    }

    /** The flags every provider reply rewrites. */
    method AdoptState(state: EngineState)
      modifies this`registrationMode, this`providerCompositionActive, this`enginePending
      modifies this`lastEngineMode, this`engineRoundtripFailed, front
      ensures View() == AdoptFlags(old(View()), state)
    {
      hide F.Reset;
      if state.mode != F.CandidateMode && state.mode != F.RegistrationMode && state.compositionStart < 0 {
        front.Reset();
      }
      SetFlags(state);
    }

    method SetFlags(state: EngineState)
      modifies this`registrationMode, this`providerCompositionActive, this`enginePending
      modifies this`lastEngineMode, this`engineRoundtripFailed
      ensures View().flags == AdoptFlags(old(View()), state).flags
    {
      engineRoundtripFailed := false;
      registrationMode := state.mode == F.RegistrationMode;
      providerCompositionActive := !registrationMode && state.compositionStart >= 0 && state.candidates != [];
      enginePending := registrationMode || state.compositionStart >= 0 || state.pendingRomaji != "";
      if !registrationMode { lastEngineMode := state.mode; }
    }

    ghost method ResolveBatch(keys: seq<Key>, action: Action)
      modifies this`resolved
      ensures View() == ResolveAll(old(View()), keys, action)
      decreases |keys|
    {
      if keys != [] {
        ResolveBatch(DropLast(keys), action);
        Resolve(Last(keys), action);
      }
    }

    /** Pop the leading printable keys off the queue. */
    method TakePrintable() returns (keys: seq<Key>)
      modifies this`deferredProviderKeys
      ensures var n := PrintablePrefix(old(deferredProviderKeys));
        && keys == old(deferredProviderKeys)[..n]
        && View() == old(View()).WithQueue(old(deferredProviderKeys)[n..])
    {
      keys := [];
      while deferredProviderKeys != [] && deferredProviderKeys[0].codepoint.Some?
        invariant old(deferredProviderKeys) == keys + deferredProviderKeys
        invariant PrintablePrefix(old(deferredProviderKeys)) == |keys| + PrintablePrefix(deferredProviderKeys)
        decreases |deferredProviderKeys|
      {
        keys := keys + [deferredProviderKeys[0]];
        deferredProviderKeys := deferredProviderKeys[1..];
      }
    }

    method FeedRegistrationQueue()
      modifies this
      ensures View() == FeedRegistration(world, old(View()))
    {
      hide Begin, ResolveAll, Written, EditorControl;
      if deferredProviderKeys == [] { return; }
      var key := deferredProviderKeys[0];
      var keys: seq<Key>;
      var started := false;
      if key.codepoint.Some? {
        keys := TakePrintable();
        started := BeginProvider(Typing(Written(keys)));
      } else {
        keys := deferredProviderKeys[..1];
        deferredProviderKeys := deferredProviderKeys[1..];
      }
      ghost var action := Batched;
      if !started {
        action := Dropped;
        if key.virtualKey == VK_RETURN || key.virtualKey == VK_BACK {
          started := BeginProvider(Command(EditorControl(key)));
          if started { action := Sent(EditorControl(key)); }
        }
      }
      ResolveBatch(keys, action);
    }

    /** The tail of a provider reply no candidate control was started for. */
    method AdoptReply(state: EngineState)
      modifies this, front
      ensures View() == Adopt(world, old(View()), state)
    {
      hide AdoptFlags, FeedRegistration, Replay, Display;
      AdoptState(state);
      if registrationMode {
        candidateUi := None;
        FeedRegistrationQueue();
        return;
      }
      if !activeContext { return; }
      var granted := UpdateDocument(state);
      if granted { ReplayDeferredProviderKeys(); }
    }

    /** The oldest queued key as a control of the shown candidate; false when none was started. */
    method DispatchFirstKey() returns (started: bool)
      requires deferredProviderKeys != []
      modifies this
      ensures (View(), started) == Dispatched(world, old(View()))
    {
      hide Begin, CandidateControl;
      var key := deferredProviderKeys[0];
      var control := CandidateControl(engineId, key);
      ghost var s := View();
      if control.Some? { deferredProviderKeys := deferredProviderKeys[1..]; }
      ghost var popped := if control.Some? then Pop(s) else s;
      assert View() == popped;
      started := BeginProvider(Asking(control));
      assert (View(), started) == Begin(world, popped, Asking(control));
      if control.Some? { Resolve(key, if started then Sent(control.value) else Dropped); }
    }

    method ApplyProviderResult(sequence: nat, reply: Option<EngineState>)
      modifies this, front
      ensures View() == ApplyResult(world, old(View()), sequence, reply)
    {
      hide Adopt, Dispatched, DispatchToCandidate;
      if sequence != providerSequence { return; }
      providerPending := false;
      if reply.None? {
        engineRoundtripFailed := true;
        candidateUi := None;
        return;
      }
      var state := reply.value;
      if deferredProviderKeys != [] && (state.candidates != [] || state.mode == F.CandidateMode) {
        DispatchIsDispatched(world, View(), state);
        var started := DispatchFirstKey();
        if started { return; }
      }
      AdoptReply(state);
    }

    method InNativePreedit(a: Arrival) returns (inPreedit: bool)
      ensures inPreedit == NativePreedit(View(), a)
    {
      inPreedit := front.preedit && !providerCompositionActive && lastEngineMode != F.CandidateMode
                   && !a.ctrlJ && (a.composing || enginePending);
    }

    /** A space just typed converts the preedit it follows. */
    method ConvertArrival(key: Key) returns (started: bool)
      modifies this
      ensures (View(), started) == ConvertedArrival(world, old(View()), key)
    {
      hide BeginConversion;
      started := BeginProviderConversion();
      if started {
        arrived := arrived + [key];
        Resolve(key, Converted);
        candidateUi := Some(BUSY);
      }
    }

    /**
      The asynchronous part of handling a claimed key. A key it does not take is left to the direct
      handler, which `rest` describes.
     */
    method HandleInPreedit(a: Arrival) returns (eaten: bool, ghost rest: Arrival)
      modifies this
      ensures eaten ==> View() == HandleNative(world, old(View()), a)
      ensures !eaten ==> HandleNative(world, old(View()), a) == HandleDirectly(world, View(), rest)
    {
      hide HandleDirectly, ConvertedArrival, NativePreedit, HandleNative, QueuedBehind, Typed;
      eaten, rest := false, a;
      var inPreedit := InNativePreedit(a);
      HandleIsQueuedBehind(world, View(), a);
      if a.virtualKey == VK_SPACE && !(engineId == Ddskk && front.wideLatin) && inPreedit {
        eaten := ConvertArrival(Typed(a));
      } else if VK_F6 <= a.virtualKey <= VK_F10 && engineId == Lattice && inPreedit {
        var key := Key(a.virtualKey, None, a.shift, false);
        eaten := QueueAndConvert(key);
        if eaten {
          candidateUi := Some(BUSY);
        } else {
          rest := a.(front := front.View(), outcome := Failed);
        }
      }
    }

    /** The registration editor: false when the direct handler must take the key. */
    method HandleInRegistration(a: Arrival) returns (eaten: bool)
      modifies this
      ensures eaten ==> View() == HandleRegistration(world, old(View()), a)
      ensures !eaten ==> HandleRegistration(world, old(View()), a) == HandleDirectly(world, View(), a)
    {
      hide HandleDirectly, Begin, RegistrationControl, Consume;
      eaten := false;
      if a.ctrlJ {
        ConsumeArrival(a, Ignored);
        return true;
      }
      if a.ctrlG {
        var started := BeginProvider(Command(DoQuit));
        return false;
      }
      var control := RegistrationControl(a);
      if control.Some? {
        eaten := BeginProvider(Asking(control));
        if eaten {
          ConsumeArrival(a, Sent(control.value));
          return;
        }
      }
      if a.translated.Some? {
        eaten := BeginProvider(Typing(Character(a.translated)));
        if eaten { ConsumeArrival(a, Batched); }
      }
    }

    ghost method ConsumeArrival(a: Arrival, action: Action)
      modifies this`arrived, this`resolved
      ensures View() == Consume(old(View()), a, action)
    {
      arrived := arrived + [Typed(a)];
      Resolve(Typed(a), action);
    }

    method Handle(a: Arrival) returns (eaten: bool, ghost rest: Arrival)
      modifies this
      ensures eaten ==> View() == P.Handle(world, old(View()), a)
      ensures !eaten ==> P.Handle(world, old(View()), a) == HandleDirectly(world, View(), rest)
    {
      hide HandleDirectly, HandleNative, HandleRegistration;
      if registrationMode {
        rest := a;
        eaten := HandleInRegistration(a);
      } else {
        eaten, rest := HandleInPreedit(a);
      }
    }

    /** Queue a key behind a conversion of the preedit, or take it back. */
    method QueueAndConvert(key: Key) returns (started: bool)
      modifies this`deferredProviderKeys, this`providerSequence, this`providerPending, this`uses, this`arrived
      ensures (View(), started) == QueuedBehind(world, old(View()), key, true)
    {
      hide BeginConversion, Begin;
      ghost var s := View();
      deferredProviderKeys, arrived := deferredProviderKeys + [key], arrived + [key];
      assert View() == Enqueue(s, key);
      BeginConversionMovesNoKey(world, View());
      started := BeginProviderConversion();
      if !started {
        deferredProviderKeys := deferredProviderKeys[..|deferredProviderKeys| - 1];
        arrived := s.arrived;
        assert deferredProviderKeys == s.queue;
      }
    }

    /** Queue a key behind the commit of the shown candidate, or take it back. */
    method QueueAndAccept(key: Key) returns (started: bool)
      modifies this`deferredProviderKeys, this`providerSequence, this`providerPending, this`uses, this`arrived
      ensures (View(), started) == QueuedBehind(world, old(View()), key, false)
    {
      hide Begin;
      ghost var s := View();
      deferredProviderKeys, arrived := deferredProviderKeys + [key], arrived + [key];
      assert View() == Enqueue(s, key);
      BeginMovesNoKey(world, View(), Command(DoCommit));
      started := BeginProvider(Command(DoCommit));
      if !started {
        deferredProviderKeys := deferredProviderKeys[..|deferredProviderKeys| - 1];
        arrived := s.arrived;
        assert deferredProviderKeys == s.queue;
      }
    }

    /** A key on a converted composition; false when the rest of the handler must see it. */
    method OfferToCandidate(a: Arrival) returns (eaten: bool)
      modifies this
      ensures (View(), eaten) == Offered(world, old(View()), a)
    {
      hide CandidateControl, Begin, Typed, QueuedBehind;
      eaten := false;
      var control := CandidateControl(engineId, Typed(a));
      if control.Some? { eaten := BeginProvider(Asking(control)); }
      if eaten {
        arrived := arrived + [Typed(a)];
        Resolve(Typed(a), Sent(control.value));
      } else if a.translated.Some? {
        eaten := QueueAndAccept(Typed(a));
      }
    }

    /** A claimed key. */
    method OnKeyDown(a: Arrival) returns (eaten: bool, ghost rest: Arrival)
      modifies this
      ensures eaten ==> View() == KeyDown(world, old(View()), a)
      ensures !eaten ==> KeyDown(world, old(View()), a) == HandleDirectly(world, View(), rest)
    {
      hide P.Handle, HandleDirectly, HandleOnCandidate, Offered, CancelPending, Enqueue;
      rest := a;
      if !keyboardOpen { return true, a; }
      if providerPending {
        if !a.ctrlG && a.virtualKey != VK_ESCAPE {
          QueueKey(Queued(a));
          return true, a;
        }
        CancelPendingProvider();
      }
      CancelKeepsComposition(old(View()));
      if providerCompositionActive && !a.ctrlG && a.virtualKey != VK_ESCAPE && !a.katakanaQ {
        OfferedIsHandled(world, View(), a);
        eaten := OfferToCandidate(a);
        if eaten { return; }
      }
      eaten, rest := Handle(a);
    }

    method QueueKey(key: Key)
      modifies this`deferredProviderKeys, this`arrived
      ensures View() == Enqueue(old(View()), key)
    {
      deferredProviderKeys, arrived := deferredProviderKeys + [key], arrived + [key];
    }
  }
}
