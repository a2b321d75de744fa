/**
  The text service's asynchronous provider protocol: sequence-numbered requests, keys deferred
  behind a pending request, late replies, cancellation.
 */
module Provider {
  import opened Common
  import F = Frontend

  const VK_BACK := 0x08
  const VK_RETURN := 0x0d
  const VK_ESCAPE := 0x1b
  const VK_SPACE := 0x20
  const VK_END := 0x23
  const VK_HOME := 0x24
  const VK_LEFT := 0x25
  const VK_UP := 0x26
  const VK_RIGHT := 0x27
  const VK_DOWN := 0x28
  const VK_DELETE := 0x2e
  const VK_F6 := 0x75
  const VK_F7 := 0x76
  const VK_F10 := 0x79

  // A key as the deferred queue holds it.
  datatype Key = Key(virtualKey: nat, codepoint: Option<char>, shift: bool, ctrlJ: bool)

  datatype Control =
    | DoBackspace | DoConvert | DoPrevious | DoCommit | DoCancel
    | SegmentPrev | SegmentNext | SegmentShrink | SegmentExtend
    | DoToHiragana | DoToKatakana | DoToHalfKatakana | DoToWideLatin | DoToLatin
    | DoQuit | DoLeft | DoRight | DoHome | DoEnd | DoDelete

  datatype EngineKind = Ddskk | Lattice | OtherEngine(name: string)

  datatype EngineState = EngineState(
    mode: F.Mode, compositionStart: int, text: string, pendingRomaji: string, candidates: seq<string>)

  // What became of a key that left the queue or never entered it.
  datatype Action =
    | Sent(control: Control)        // forwarded to the provider's candidate
    | Converted                     // started a conversion of the native preedit
    | Shown(state: EngineState)     // handled by the native front end
    | Ignored                       // nothing for it to do
    | Batched                       // fed to the registration editor
    | Dropped                       // its request could not be started
    | Direct                        // handled at once, outside the asynchronous path

  datatype Resolution = Resolution(key: Key, action: Action)

  // What a request asks of the provider: convert these keys, obey a command, or type into the editor.
  datatype Ask = Convert(keys: seq<F.Key>) | Command(control: Control) | Typing(characters: string)

  // How a sequence number was spent.
  datatype Use = Requested(ask: Ask) | FailedToStart | Cancelled

  // Outcomes the text service cannot choose: whether request number n gets its thread, and
  // whether the n-th edit session is granted.
  datatype World = World(starts: nat -> bool, grants: nat -> bool)

  // The request counter, with the history of how each number was spent.
  datatype Ticket = Ticket(sequence: nat, pending: bool, uses: seq<Use>)

  // The deferred keys, with the history since the last cancellation.
  datatype Waiting = Waiting(queue: seq<Key>, arrived: seq<Key>, resolved: seq<Resolution>)

  // What the text service is attached to, and whether the user has the keyboard open.
  datatype Host = Host(window: bool, context: bool, engineId: EngineKind, open: bool, modeBeforeClose: F.Mode)

  datatype Flags = Flags(
    registration: bool, providerActive: bool, enginePending: bool, lastMode: F.Mode, failed: bool)

  // The document as the granted edit sessions leave it, and the candidate list beside it.
  datatype Screen = Screen(document: seq<EngineState>, edits: nat, candidateUi: Option<EngineState>)

  datatype State = State(ticket: Ticket, waiting: Waiting, host: Host, front: F.State, flags: Flags, screen: Screen)
  {
    const sequence := ticket.sequence
    const pending := ticket.pending
    const uses := ticket.uses
    const queue := waiting.queue
    const arrived := waiting.arrived
    const resolved := waiting.resolved
    const context := host.context
    const engineId := host.engineId
    const document := screen.document
    const edits := screen.edits

    function WithQueue(queue: seq<Key>): State {
      this.(waiting := waiting.(queue := queue))
    }

    function Answered(): State {
      this.(ticket := ticket.(pending := false))
    }

    function ShowingBusy(): State {
      this.(screen := screen.(candidateUi := Some(BUSY)))
    }

    function ShowingNothing(): State {
      this.(screen := screen.(candidateUi := None))
    }

    function Failing(): State {
      this.(flags := flags.(failed := true))
    }
  }

  function Resolve(s: State, key: Key, action: Action): State {
    s.(waiting := s.waiting.(resolved := s.resolved + [Resolution(key, action)]))
  }

  function Pop(s: State): State
    requires s.queue != []
  {
    s.WithQueue(s.queue[1..])
  }

  /** The common part of BeginProviderControl, -Key, -Keys and -Conversion. */
  function Begin(w: World, s: State, ask: Ask): (State, bool) {
    if !s.host.window then (s, false)
    else
      var n := s.sequence + 1;
      var use := if w.starts(n) then Requested(ask) else FailedToStart;
      (s.(ticket := Ticket(n, w.starts(n), s.uses + [use])), w.starts(n))
  }

  function BeginConversion(w: World, s: State): (State, bool) {
    if s.front.rawKeys == [] then (s, false) else Begin(w, s, Convert(s.front.rawKeys))
  }

  function CancelPending(s: State): State {
    s.(ticket := Ticket(s.sequence + 1, false, s.uses + [Cancelled]), waiting := Waiting([], [], []))
  }

  /** The application ended the composition: cancel, and forget it. */
  function Abandon(s: State): State {
    CancelPending(s).ShowingNothing().(
      front := F.Reset(s.front), flags := Flags(false, false, false, s.flags.lastMode, false))
  }

  /** Given up for good, on a dead engine or in a context left behind: also back to hiragana. */
  function GiveUp(s: State): State {
    var t := Abandon(s);
    t.(flags := t.flags.(lastMode := F.HiraganaMode))
  }

  /** While the registration editor is open only its parked composition is gone. */
  function Terminate(s: State): State {
    if s.flags.registration then s.ShowingNothing().(flags := s.flags.(enginePending := true)) else Abandon(s)
  }

  const BUSY := EngineState(F.ProviderBusyMode, -1, "", "", ["変換中…"])

  /** The provider control a semantic key stands for while a candidate is shown. */
  function CandidateControl(engineId: EngineKind, key: Key): Option<Control> {
    if key.virtualKey == VK_RETURN then Some(DoCommit)
    else if key.virtualKey == VK_SPACE then Some(DoConvert)
    else if key.virtualKey == VK_BACK then Some(DoBackspace)
    else if key.ctrlJ then Some(DoCancel)
    else if key.virtualKey == VK_LEFT then
      Some(if engineId == Lattice then (if key.shift then SegmentShrink else SegmentPrev) else DoPrevious)
    else if key.virtualKey == VK_RIGHT then
      Some(if engineId == Lattice then (if key.shift then SegmentExtend else SegmentNext) else DoConvert)
    else if VK_F6 <= key.virtualKey <= VK_F10 then
      Some([DoToHiragana, DoToKatakana, DoToHalfKatakana, DoToWideLatin, DoToLatin][key.virtualKey - VK_F6])
    else None
  }

  // ---------------------------------------------------------------------------
  // Replaying the queue against the native front end.

  function OfSurface(x: F.Surface): EngineState {
    EngineState(x.mode, x.compositionStart, x.text, x.pendingRomaji, [])
  }

  /** What one deferred key does to the front end, and the state it shows, if any. */
  function Native(front: F.State, key: Key): (F.State, Option<F.Surface>) {
    if key.virtualKey == VK_RETURN then F.Commit(front)
    else if key.virtualKey == VK_BACK then F.Backspace(front)
    else if key.ctrlJ then
      var (committed, shown) := F.Commit(front);
      var (hiragana, surface) := F.ToHiragana(committed);
      (hiragana, if shown.Some? then Some(shown.value.(mode := F.HiraganaMode)) else Some(surface))
    else if key.virtualKey == VK_ESCAPE then F.Quit(front)
    else if key.codepoint.Some? then F.Feed(front, key.codepoint.value)
    else (front, None)
  }

  /** The key converts the whole preedit instead of editing it. */
  predicate Converts(front: F.State, key: Key) {
    front.preedit && key.virtualKey == VK_SPACE
  }

  /** The key waits behind a conversion and is dispatched to its candidate afterwards. */
  predicate WaitsForConversion(front: F.State, key: Key) {
    && front.preedit && !key.ctrlJ && VK_F6 <= key.virtualKey <= VK_F10
  }

  /** One edit session: the document takes the state if it is granted. */
  function Edit(w: World, s: State, state: EngineState): State {
    s.(screen := s.screen.(document := if w.grants(s.edits) then s.document + [state] else s.document,
                           edits := s.edits + 1))
  }

  /** The candidate list and the edit session every state goes through. */
  function Display(w: World, s: State, state: EngineState): State {
    Edit(w, s.(screen := s.screen.(candidateUi := if state.candidates == [] then None else Some(state))), state)
  }

  function ShowState(w: World, s: State, state: EngineState): State {
    var pending := state.compositionStart >= 0 || state.pendingRomaji != "";
    Display(w, s, state).(flags := s.flags.(enginePending := pending, lastMode := state.mode))
  }

  function Replay(w: World, s: State): State
    decreases |s.queue|
  {
    if s.queue == [] || !s.context || s.pending then s
    else
      var key := s.queue[0];
      if Converts(s.front, key) then
        var (t, started) := BeginConversion(w, Pop(s));
        if started then Resolve(t, key, Converted).ShowingBusy()
        else Replay(w, Resolve(t, key, Dropped))
      else if WaitsForConversion(s.front, key) then
        var (t, started) := BeginConversion(w, s);
        if started then t.ShowingBusy()
        else Replay(w, Resolve(Pop(t), key, Dropped))
      else
        var (front, shown) := Native(s.front, key);
        var t := Pop(s).(front := front);
        if shown.None? then Replay(w, Resolve(t, key, Ignored))
        else
          var u := ShowState(w, Resolve(t, key, Shown(OfSurface(shown.value))), OfSurface(shown.value));
          if w.grants(s.edits) then Replay(w, u) else u
  }

  // ---------------------------------------------------------------------------
  // A provider reply.

  /** The leading run of queued keys that carry a character. */
  function PrintablePrefix(queue: seq<Key>): nat
    ensures PrintablePrefix(queue) <= |queue|
  {
    if queue == [] || queue[0].codepoint.None? then 0 else 1 + PrintablePrefix(queue[1..])
  }

  function ResolveAll(s: State, keys: seq<Key>, action: Action): State {
    if keys == [] then s else Resolve(ResolveAll(s, DropLast(keys), action), Last(keys), action)
  }

  /** The characters of keys that carry one. */
  function Written(keys: seq<Key>): string {
    if keys == [] then "" else Written(DropLast(keys)) + Character(Last(keys).codepoint)
  }

  function Character(codepoint: Option<char>): string {
    match codepoint
    case Some(c) => [c]
    case None => ""
  }

  /** Enter or Backspace, waiting in front of the registration editor. */
  function EditorControl(key: Key): Control {
    if key.virtualKey == VK_RETURN then DoCommit else DoBackspace
  }

  /** The registration editor takes printable keys as one batch, other keys one at a time. */
  function FeedRegistration(w: World, s: State): State {
    if s.queue == [] then s
    else
      var key := s.queue[0];
      var n := if key.codepoint.Some? then PrintablePrefix(s.queue) else 1;
      var rest := s.WithQueue(s.queue[n..]);
      var (t, started) := if key.codepoint.Some? then Begin(w, rest, Typing(Written(s.queue[..n]))) else (rest, false);
      if started then ResolveAll(t, s.queue[..n], Batched)
      else if key.virtualKey == VK_RETURN || key.virtualKey == VK_BACK then
        var (u, sent) := Begin(w, t, Command(EditorControl(key)));
        if sent then ResolveAll(u, s.queue[..n], Sent(EditorControl(key)))
        else ResolveAll(u, s.queue[..n], Dropped)
      else ResolveAll(t, s.queue[..n], Dropped)
  }

  /** The mode flags every provider reply rewrites. */
  function AdoptFlags(s: State, state: EngineState): State {
    var registering := state.mode == F.RegistrationMode;
    var restart := state.mode != F.CandidateMode && !registering && state.compositionStart < 0;
    s.(front := if restart then F.Reset(s.front) else s.front,
       flags := Flags(registering,
                      !registering && state.compositionStart >= 0 && state.candidates != [],
                      registering || state.compositionStart >= 0 || state.pendingRomaji != "",
                      if registering then s.flags.lastMode else state.mode,
                      false))
  }

  function Adopt(w: World, s: State, state: EngineState): State {
    var t := AdoptFlags(s, state);
    if t.flags.registration then FeedRegistration(w, t.ShowingNothing())
    else if !t.context then t
    else
      var u := Display(w, t, state);
      if w.grants(t.edits) then Replay(w, u) else u
  }

  /** The command a key gives a candidate; any other key accepts it. */
  function Asking(control: Option<Control>): Ask {
    Command(match control case Some(c) => c case None => DoCommit)
  }

  /** A candidate claims the oldest queued key; a printable key first commits the candidate. */
  function DispatchToCandidate(w: World, s: State, state: EngineState): State
    requires s.queue != []
  {
    var key := s.queue[0];
    var control := CandidateControl(s.engineId, key);
    var (t, started) := Begin(w, if control.Some? then Pop(s) else s, Asking(control));
    if started then (if control.Some? then Resolve(t, key, Sent(control.value)) else t)
    else Adopt(w, if control.Some? then Resolve(t, key, Dropped) else t, state)
  }

  function ApplyResult(w: World, s: State, sequence: nat, reply: Option<EngineState>): State {
    if sequence != s.sequence then s
    else
      var t := s.Answered();
      if reply.None? then t.Failing().ShowingNothing()
      else if t.queue != [] && (reply.value.candidates != [] || reply.value.mode == F.CandidateMode) then
        DispatchToCandidate(w, t, reply.value)
      else Adopt(w, t, reply.value)
  }

  // ---------------------------------------------------------------------------
  // A claimed key.

  // What the rest of the key handler makes of a key when no request is involved.
  datatype Outcome =
    | PassedThrough                     // left to the application
    | Swallowed                         // eaten without effect
    | Failed                            // its synchronous request got no answer
    | Forced                            // Ctrl+G on a dead engine: give the composition up
    | Showed(state: EngineState)

  datatype Arrival = Arrival(
    virtualKey: nat, translated: Option<char>, shift: bool, ctrlJ: bool, ctrlG: bool, katakanaQ: bool,
    composing: bool, front: F.State, outcome: Outcome)

  predicate Semantic(a: Arrival) {
    a.ctrlJ || a.virtualKey == VK_RETURN || a.virtualKey == VK_SPACE || a.virtualKey == VK_BACK
    || a.virtualKey == VK_ESCAPE || a.virtualKey == VK_LEFT || a.virtualKey == VK_RIGHT
    || a.virtualKey == VK_UP || a.virtualKey == VK_DOWN || a.virtualKey == VK_HOME
    || a.virtualKey == VK_END || VK_F6 <= a.virtualKey <= VK_F10
  }

  /** The key as it is queued behind a pending request: semantic keys carry no character. */
  function Queued(a: Arrival): Key {
    Key(a.virtualKey, if Semantic(a) then None else a.translated, a.shift, a.ctrlJ)
  }

  function Typed(a: Arrival): Key {
    Key(a.virtualKey, a.translated, a.shift, a.ctrlJ)
  }

  function Arrive(s: State, key: Key): State {
    s.(waiting := s.waiting.(arrived := s.arrived + [key]))
  }

  function Enqueue(s: State, key: Key): State {
    Arrive(s, key).WithQueue(s.queue + [key])
  }

  /** The tail every state of the direct handler goes through; `front` is what the handler left. */
  function ShowDirect(w: World, s: State, state: EngineState): State {
    var registering := state.mode == F.RegistrationMode;
    var held := s.flags.lastMode == F.CandidateMode || s.flags.registration || s.flags.providerActive;
    var restart := held && state.mode != F.CandidateMode && state.compositionStart < 0;
    var t := s.(front := if restart then F.Reset(s.front) else s.front,
                flags := Flags(registering,
                               !registering && state.compositionStart >= 0 && state.candidates != [],
                               registering || state.compositionStart >= 0 || state.pendingRomaji != "",
                               if registering then s.flags.lastMode else state.mode,
                               false));
    if registering then t.ShowingNothing() else Display(w, t, state)
  }

  /** Handled without the provider: the front end and the document change as the handler says. */
  function HandleDirectly(w: World, s: State, a: Arrival): State {
    var t := Resolve(Arrive(s, Typed(a)), Typed(a), Direct).(front := a.front);
    match a.outcome
    case PassedThrough => t
    case Swallowed => t.ShowingNothing()
    case Failed => t.Failing().ShowingNothing()
    case Forced => GiveUp(t)
    case Showed(state) => ShowDirect(w, t, state)
  }

  predicate NativePreedit(s: State, a: Arrival) {
    s.front.preedit && !s.flags.providerActive && s.flags.lastMode != F.CandidateMode && !a.ctrlJ
    && (a.composing || s.flags.enginePending)
  }

  function HandleNative(w: World, s: State, a: Arrival): State {
    if a.virtualKey == VK_SPACE && !(s.engineId == Ddskk && s.front.wideLatin) && NativePreedit(s, a) then
      var (t, started) := BeginConversion(w, s);
      if started then Resolve(Arrive(t, Typed(a)), Typed(a), Converted).ShowingBusy()
      else HandleDirectly(w, t, a)
    else if VK_F6 <= a.virtualKey <= VK_F10 && s.engineId == Lattice && NativePreedit(s, a) then
      var (t, started) := BeginConversion(w, Enqueue(s, Key(a.virtualKey, None, a.shift, false)));
      if started then t.ShowingBusy()
      else HandleDirectly(w, t.(waiting := s.waiting), a.(front := s.front, outcome := Failed))
    else HandleDirectly(w, s, a)
  }

  /** The editing command a key stands for in the registration editor. */
  function RegistrationControl(a: Arrival): Option<Control> {
    if a.virtualKey == VK_BACK then Some(DoBackspace)
    else if a.virtualKey == VK_DELETE then Some(DoDelete)
    else if a.virtualKey == VK_SPACE then Some(DoConvert)
    else if a.virtualKey == VK_RETURN then Some(DoCommit)
    else if a.virtualKey == VK_ESCAPE then Some(DoQuit)
    else if a.virtualKey == VK_LEFT then Some(DoLeft)
    else if a.virtualKey == VK_RIGHT then Some(DoRight)
    else if a.virtualKey == VK_UP || a.virtualKey == VK_HOME then Some(DoHome)
    else if a.virtualKey == VK_DOWN || a.virtualKey == VK_END then Some(DoEnd)
    else if a.virtualKey == VK_F6 then Some(DoToHiragana)
    else if a.virtualKey == VK_F7 then Some(DoToKatakana)
    else None
  }

  function Consume(s: State, a: Arrival, action: Action): State {
    Resolve(Arrive(s, Typed(a)), Typed(a), action)
  }

  /** The registration editor takes controls and characters; a quit is sent and shown at once. */
  function HandleRegistration(w: World, s: State, a: Arrival): State {
    if a.ctrlJ then Consume(s, a, Ignored)
    else if a.ctrlG then HandleDirectly(w, Begin(w, s, Command(DoQuit)).0, a)
    else
      var control := RegistrationControl(a);
      var (t, sent) := if control.Some? then Begin(w, s, Asking(control)) else (s, false);
      if sent then Consume(t, a, Sent(control.value))
      else if a.translated.None? then HandleDirectly(w, t, a)
      else
        var (u, typed) := Begin(w, t, Typing(Character(a.translated)));
        if typed then Consume(u, a, Batched) else HandleDirectly(w, u, a)
  }

  function Handle(w: World, s: State, a: Arrival): State {
    if s.flags.registration then HandleRegistration(w, s, a) else HandleNative(w, s, a)
  }

  /** A key on a converted composition: a control, or accept the candidate and queue the key. */
  function HandleOnCandidate(w: World, s: State, a: Arrival): State {
    var control := CandidateControl(s.engineId, Typed(a));
    var (t, sent) := if control.Some? then Begin(w, s, Asking(control)) else (s, false);
    if sent then Resolve(Arrive(t, Typed(a)), Typed(a), Sent(control.value))
    else if a.translated.None? then Handle(w, t, a)
    else
      var (u, started) := Begin(w, Enqueue(t, Typed(a)), Command(DoCommit));
      if started then u else Handle(w, u.(waiting := t.waiting), a)
  }

  function KeyDown(w: World, s: State, a: Arrival): State {
    if !s.host.open then s
    else if s.pending && !a.ctrlG && a.virtualKey != VK_ESCAPE then Enqueue(s, Queued(a))
    else
      var t := if s.pending then CancelPending(s) else s;
      if t.flags.providerActive && !a.ctrlG && a.virtualKey != VK_ESCAPE && !a.katakanaQ then HandleOnCandidate(w, t, a)
      else Handle(w, t, a)
  }

  // ---------------------------------------------------------------------------
  // Opening and closing the keyboard.

  /** Whether a close has a composition to remove; `composing` is the document's own. */
  predicate Composing(s: State, composing: bool) {
    s.flags.enginePending || s.flags.registration || composing
  }

  /** The composition a close removes: flags, candidate list and waiting keys, then the RESET's reply. */
  function RemoveComposition(w: World, s: State, reset: Option<EngineState>): State {
    var flags := s.flags.(registration := false, providerActive := false, enginePending := false);
    var t := s.WithQueue([]).ShowingNothing().(flags := flags);
    if reset.Some? && t.context then Edit(w, t, reset.value) else t
  }

  /**
    Closing while composing clears the queue and the flags and shows the reply to a RESET, if one came.
    It takes no number and leaves a pending request pending.
   */
  function CloseKeyboard(w: World, s: State, composing: bool, reset: Option<EngineState>): State {
    var t := s.(host := s.host.(open := false, modeBeforeClose := s.flags.lastMode));
    if Composing(s, composing) then RemoveComposition(w, t, reset) else t
  }

  function OpenKeyboard(s: State): State {
    s.(host := s.host.(open := true), flags := s.flags.(lastMode := s.host.modeBeforeClose))
  }

  function ChangeKeyboard(w: World, s: State, open: bool, composing: bool, reset: Option<EngineState>): State {
    if open == s.host.open then s
    else if open then OpenKeyboard(s)
    else CloseKeyboard(w, s, composing, reset)
  }
}
