/**
  Session switching in the engine. The interpreter's globals are process-wide, so they act as a
  cache of the active session, and every other session lives as a checkpoint.
 */
module Sessions {
  import opened Common

  // ---------------------------------------------------------------------------
  // Values of the interpreter's variables, and how a checkpoint stores them.

  datatype Sexp =
    | Nil
    | Symbol(name: string)
    | Number(n: int)
    | Text(s: string)
    | Cons(car: Sexp, cdr: Sexp)
    | Marker(position: nat)

  const MARKER_TAG := Symbol("skk-ime-session--marker")
  const T := Symbol("t")

  // The variables that belong to one session.
  datatype Native =
    | Mode | LatinMode | JMode | KatakanaFlag | WideLatinMode | AbbrevMode | Okurigana | HenkanMode
    | KakuteiFlag | KakuteiHenkanFlag | ExitShowCandidates | InsertKeysequence | CurrentRuleTree
    | OkuriAriMin | OkuriAriMax | OkuriNasiMin | PreviousPoint | Prefix | HenkanStartPoint
    | HenkanEndPoint | KanaStartPoint | OkuriganaStartPoint | HenkanKey | OkuriChar | HenkanOkurigana
    | LastKakuteiHenkanKey | HenkanList | HenkanCount | SelfInsertNonUndoCount | CurrentSearchProgList
    | LastHenkanData | UndoKakuteiFlag | UndoKakuteiPrevState | UndoKakuteiPreviousPoint
    | UndoKakuteiPreviousLength | HenkanInMinibuffFlag | OkuriIndexMin | OkuriIndexMax | AfterPrefix
    | Jisx0201Roman | Jisx0201Mode | NumList | Echo

  const NATIVES: seq<Native> := EARLIER_NATIVES + LATER_NATIVES

  const EARLIER_NATIVES: seq<Native> := [
    Mode, LatinMode, JMode, KatakanaFlag, WideLatinMode, AbbrevMode, Okurigana, HenkanMode,
    KakuteiFlag, KakuteiHenkanFlag, ExitShowCandidates, InsertKeysequence, CurrentRuleTree,
    OkuriAriMin, OkuriAriMax, OkuriNasiMin, PreviousPoint, Prefix, HenkanStartPoint,
    HenkanEndPoint, KanaStartPoint, OkuriganaStartPoint]

  const LATER_NATIVES: seq<Native> := [
    HenkanKey, OkuriChar, HenkanOkurigana, LastKakuteiHenkanKey, HenkanList, HenkanCount,
    SelfInsertNonUndoCount, CurrentSearchProgList, LastHenkanData, UndoKakuteiFlag,
    UndoKakuteiPrevState, UndoKakuteiPreviousPoint, UndoKakuteiPreviousLength,
    HenkanInMinibuffFlag, OkuriIndexMin, OkuriIndexMax, AfterPrefix, Jisx0201Roman, Jisx0201Mode,
    NumList, Echo]

  lemma EveryNativeIsListed(x: Native)
    ensures x in NATIVES
  {
    hide INITIAL;
    match x
    case Mode => assert EARLIER_NATIVES[0] == Mode;
    case LatinMode => assert EARLIER_NATIVES[1] == LatinMode;
    case JMode => assert EARLIER_NATIVES[2] == JMode;
    case KatakanaFlag => assert EARLIER_NATIVES[3] == KatakanaFlag;
    case WideLatinMode => assert EARLIER_NATIVES[4] == WideLatinMode;
    case AbbrevMode => assert EARLIER_NATIVES[5] == AbbrevMode;
    case Okurigana => assert EARLIER_NATIVES[6] == Okurigana;
    case HenkanMode => assert EARLIER_NATIVES[7] == HenkanMode;
    case KakuteiFlag => assert EARLIER_NATIVES[8] == KakuteiFlag;
    case KakuteiHenkanFlag => assert EARLIER_NATIVES[9] == KakuteiHenkanFlag;
    case ExitShowCandidates => assert EARLIER_NATIVES[10] == ExitShowCandidates;
    case InsertKeysequence => assert EARLIER_NATIVES[11] == InsertKeysequence;
    case CurrentRuleTree => assert EARLIER_NATIVES[12] == CurrentRuleTree;
    case OkuriAriMin => assert EARLIER_NATIVES[13] == OkuriAriMin;
    case OkuriAriMax => assert EARLIER_NATIVES[14] == OkuriAriMax;
    case OkuriNasiMin => assert EARLIER_NATIVES[15] == OkuriNasiMin;
    case PreviousPoint => assert EARLIER_NATIVES[16] == PreviousPoint;
    case Prefix => assert EARLIER_NATIVES[17] == Prefix;
    case HenkanStartPoint => assert EARLIER_NATIVES[18] == HenkanStartPoint;
    case HenkanEndPoint => assert EARLIER_NATIVES[19] == HenkanEndPoint;
    case KanaStartPoint => assert EARLIER_NATIVES[20] == KanaStartPoint;
    case OkuriganaStartPoint => assert EARLIER_NATIVES[21] == OkuriganaStartPoint;
    case HenkanKey => assert LATER_NATIVES[0] == HenkanKey;
    case OkuriChar => assert LATER_NATIVES[1] == OkuriChar;
    case HenkanOkurigana => assert LATER_NATIVES[2] == HenkanOkurigana;
    case LastKakuteiHenkanKey => assert LATER_NATIVES[3] == LastKakuteiHenkanKey;
    case HenkanList => assert LATER_NATIVES[4] == HenkanList;
    case HenkanCount => assert LATER_NATIVES[5] == HenkanCount;
    case SelfInsertNonUndoCount => assert LATER_NATIVES[6] == SelfInsertNonUndoCount;
    case CurrentSearchProgList => assert LATER_NATIVES[7] == CurrentSearchProgList;
    case LastHenkanData => assert LATER_NATIVES[8] == LastHenkanData;
    case UndoKakuteiFlag => assert LATER_NATIVES[9] == UndoKakuteiFlag;
    case UndoKakuteiPrevState => assert LATER_NATIVES[10] == UndoKakuteiPrevState;
    case UndoKakuteiPreviousPoint => assert LATER_NATIVES[11] == UndoKakuteiPreviousPoint;
    case UndoKakuteiPreviousLength => assert LATER_NATIVES[12] == UndoKakuteiPreviousLength;
    case HenkanInMinibuffFlag => assert LATER_NATIVES[13] == HenkanInMinibuffFlag;
    case OkuriIndexMin => assert LATER_NATIVES[14] == OkuriIndexMin;
    case OkuriIndexMax => assert LATER_NATIVES[15] == OkuriIndexMax;
    case AfterPrefix => assert LATER_NATIVES[16] == AfterPrefix;
    case Jisx0201Roman => assert LATER_NATIVES[17] == Jisx0201Roman;
    case Jisx0201Mode => assert LATER_NATIVES[18] == Jisx0201Mode;
    case NumList => assert LATER_NATIVES[19] == NumList;
    case Echo => assert LATER_NATIVES[20] == Echo;
  }

  type Globals = map<Native, Sexp>

  /** What initializing a session's buffer assigns to a variable, if anything. */
  function InitialValue(x: Native): Option<Sexp> {
    match x
    case Mode | JMode => Some(T)
    case Prefix => Some(Text(""))
    case HenkanCount | OkuriIndexMin | OkuriIndexMax => Some(Number(-1))
    case AbbrevMode | LatinMode | WideLatinMode | Jisx0201Mode | KatakanaFlag | Echo
      | CurrentRuleTree | HenkanMode | HenkanStartPoint | HenkanEndPoint | KanaStartPoint
      | Okurigana | InsertKeysequence | HenkanKey | HenkanList | KakuteiFlag | KakuteiHenkanFlag
      | UndoKakuteiFlag | OkuriChar | ExitShowCandidates | HenkanOkurigana
      | CurrentSearchProgList => Some(Nil)
    case _ => None
  }

  const INITIAL: Globals := map x: Native | InitialValue(x).Some? :: InitialValue(x).value

  predicate Tagged(v: Sexp) {
    v.Cons? && v.car == MARKER_TAG
  }

  function CaptureValue(v: Sexp): Sexp {
    if v.Marker? then Cons(MARKER_TAG, Number(v.position)) else v
  }

  /** copy-marker; a position that is neither a number nor a marker would signal. */
  function CopyMarker(position: Sexp): Sexp {
    match position
    case Number(n) => if n >= 0 then Marker(n) else Nil
    case Marker(p) => Marker(p)
    case _ => Nil
  }

  function RestoreValue(v: Sexp): Sexp {
    if Tagged(v) then CopyMarker(v.cdr) else v
  }

  /** A stored value comes back unchanged unless it forges the private marker tag. */
  lemma CapturedValueComesBack(v: Sexp)
    ensures RestoreValue(CaptureValue(v)) == v <==> !Tagged(v)
  {
  }

  /** The saved association list: every bound variable of the list, in list order. */
  function Capture(symbols: seq<Native>, g: Globals): seq<(Native, Sexp)> {
    if symbols == [] then []
    else if Last(symbols) in g then
      Capture(DropLast(symbols), g) + [(Last(symbols), CaptureValue(g[Last(symbols)]))]
    else Capture(DropLast(symbols), g)
  }

  function Restore(saved: seq<(Native, Sexp)>, g: Globals): Globals {
    if saved == [] then g
    else Restore(DropLast(saved), g)[Last(saved).0 := RestoreValue(Last(saved).1)]
  }

  predicate Untagged(g: Globals) {
    forall x :: x in g ==> !Tagged(g[x])
  }

  /** The part of the variables that the list names. */
  function Named(symbols: seq<Native>, g: Globals): Globals {
    map x | x in g && x in symbols :: g[x]
  }

  lemma NamedGrows(symbols: seq<Native>, g: Globals, over: Globals)
    requires symbols != []
    ensures over + Named(symbols, g) ==
            if Last(symbols) in g then (over + Named(DropLast(symbols), g))[Last(symbols) := g[Last(symbols)]]
            else over + Named(DropLast(symbols), g)
  {
    hide NATIVES, INITIAL;
    assert forall x :: x in symbols <==> x in DropLast(symbols) || x == Last(symbols);
  }

  /** Restoring writes back exactly the variables that were bound when the checkpoint was taken. */
  lemma {:induction false} RestoreAfterCapture(symbols: seq<Native>, g: Globals, over: Globals)
    requires Untagged(g)
    ensures Restore(Capture(symbols, g), over) == over + Named(symbols, g)
  {
    hide NATIVES, INITIAL, CaptureValue, RestoreValue;
    if symbols == [] {
      assert over + Named(symbols, g) == over;
    } else {
      var front := DropLast(symbols);
      RestoreAfterCapture(front, g, over);
      NamedGrows(symbols, g, over);
      if Last(symbols) in g {
        CapturedValueComesBack(g[Last(symbols)]);
        assert DropLast(Capture(symbols, g)) == Capture(front, g);
      }
    }
  }

  // ---------------------------------------------------------------------------
  // One session as the client sees it, and the interpreter that advances it.

  datatype Checkpoint = Checkpoint(text: string, point: nat, lastCommand: Sexp, natives: seq<(Native, Sexp)>)

  datatype Registration = Registration(
    checkpoint: Option<Checkpoint>, reading: string, hadCandidates: bool, editorText: string, editorCursor: nat)

  const NO_REGISTRATION := Registration(None, "", false, "", 0)

  datatype Local = Local(
    natives: Globals, text: string, point: nat, lastCommand: Sexp, registration: Registration)

  // Advances the installed session by one request line and answers it. Shared state that all
  // clients deliberately see (engine id, learned dictionary) is fixed inside the interpreter.
  type Interpreter = (Local, string) -> (Local, string)

  /** Every session variable is bound, and none forges the marker tag. */
  predicate Clean(symbols: seq<Native>, g: Globals) {
    g.Keys == (set x | x in symbols) && Untagged(g)
  }

  lemma CleanIsUntagged(symbols: seq<Native>, g: Globals)
    requires Clean(symbols, g)
    ensures Untagged(g)
  {
  }

  /** Variables of the list alone overwrite every variable of the list. */
  lemma NamedCovers(symbols: seq<Native>, g: Globals, over: Globals)
    requires Clean(symbols, g) && Clean(symbols, over)
    ensures over + Named(symbols, g) == g
  {
    hide Untagged;
    var all := over + Named(symbols, g);
    assert Named(symbols, g).Keys == g.Keys;
    assert forall x :: x in all ==> all[x] == g[x];
  }

  ghost predicate WellBehaved(symbols: seq<Native>, step: Interpreter) {
    forall s: Local, line: string ::
      Clean(symbols, s.natives) ==> Clean(symbols, step(s, line).0.natives)
  }

  /** A new session: an empty buffer, and whatever globals initialization does not assign. */
  function Fresh(initial: Globals, ambient: Globals): Local {
    Local(ambient + initial, "", 1, Nil, NO_REGISTRATION)
  }

  /** The engine as clients see it: independent sessions, plus the globals now installed. */
  datatype Model = Model(table: map<string, Local>, ambient: Globals)

  function Serve(step: Interpreter, initial: Globals, m: Model, id: string, line: string): (Model, string) {
    if line == "CLOSE" then (m.(table := m.table - {id}), "OK CLOSED")
    else
      var (s, reply) := step(if id in m.table then m.table[id] else Fresh(initial, m.ambient), line);
      (Model(m.table[id := s], s.natives), reply)
  }

  // ---------------------------------------------------------------------------
  // The engine's own data: one record a session, and one set of globals.

  datatype Session = Session(text: string, point: nat, lastCommand: Sexp)

  datatype Record = Record(session: Session, registration: Registration, checkpoint: Checkpoint)

  class Engine {
    const symbols: seq<Native>
    const initial: Globals
    const step: Interpreter
    var globals: Globals
    var sessions: map<string, Record>
    var activeId: Option<string>

    /** Globals a checkpoint stands for. */
    function Saved(c: Checkpoint): Globals {
      Restore(c.natives, map[])
    }

    predicate Restorable(c: Checkpoint) {
      Clean(symbols, Saved(c)) && Capture(symbols, Saved(c)) == c.natives
    }

    ghost predicate Valid()
      reads this
    {
      && WellBehaved(symbols, step)
      && initial.Keys <= globals.Keys && Untagged(initial)
      && Clean(symbols, globals)
      && (activeId.Some? ==> activeId.value in sessions)
      && forall id :: id in sessions && activeId != Some(id) ==> Restorable(sessions[id].checkpoint)
    }

    function LocalOf(id: string): Local
      requires id in sessions
      reads this
    {
      var r := sessions[id];
      if activeId == Some(id) then
        Local(globals, r.session.text, r.session.point, r.session.lastCommand, r.registration)
      else
        Local(Saved(r.checkpoint), r.checkpoint.text, r.checkpoint.point, r.checkpoint.lastCommand, r.registration)
    }

    /** The plain map from session to state that the cache stands for. */
    function View(): Model
      reads this
    {
      Model(map id | id in sessions :: LocalOf(id), globals)
    }

    constructor (symbols: seq<Native>, initial: Globals, step: Interpreter, boot: Globals)
      requires WellBehaved(symbols, step) && Clean(symbols, boot)
      requires initial.Keys <= boot.Keys && Untagged(initial)
      ensures Valid() && View() == Model(map[], boot)
      ensures this.symbols == symbols && this.initial == initial && this.step == step
    {
      this.symbols, this.initial, this.step := symbols, initial, step;
      globals := boot;
      sessions := map[];
      activeId := None;
    }

    method CaptureNativeState() returns (state: seq<(Native, Sexp)>)
      ensures state == Capture(symbols, globals)
    {
      state := [];
      for i := 0 to |symbols|
        invariant state == Capture(symbols[..i], globals)
      {
        assert DropLast(symbols[..i + 1]) == symbols[..i] && Last(symbols[..i + 1]) == symbols[i];
        if symbols[i] in globals {
          var value := globals[symbols[i]];
          state := state + [(symbols[i], if value.Marker? then Cons(MARKER_TAG, Number(value.position)) else value)];
        }
      }
      assert symbols[..|symbols|] == symbols;
    }

    method RestoreNativeState(state: seq<(Native, Sexp)>)
      modifies this`globals
      ensures globals == Restore(state, old(globals))
    {
      for i := 0 to |state|
        invariant globals == Restore(state[..i], old(globals))
      {
        var value := state[i].1;
        globals := globals[state[i].0 := if Tagged(value) then CopyMarker(value.cdr) else value];
        assert DropLast(state[..i + 1]) == state[..i] && Last(state[..i + 1]) == state[i];
      }
      assert state[..|state|] == state;
    }

    method TakeCheckpoint(session: Session) returns (c: Checkpoint)
      ensures c == Checkpoint(session.text, session.point, session.lastCommand, Capture(symbols, globals))
    {
      var natives := CaptureNativeState();
      c := Checkpoint(session.text, session.point, session.lastCommand, natives);
    }

    /** Creating a session initializes the buffer, which clobbers the installed globals. */
    method CreateSession() returns (session: Session)
      modifies this`globals
      ensures session == Session("", 1, Nil) && globals == old(globals) + initial
    {
      globals := globals + initial;
      session := Session("", 1, Nil);
    }

    lemma CheckpointIsRestorable(natives: Globals, text: string, point: nat, lastCommand: Sexp)
      requires Clean(symbols, natives)
      ensures var c := Checkpoint(text, point, lastCommand, Capture(symbols, natives));
        Restorable(c) && Saved(c) == natives
    {
      RestoreAfterCapture(symbols, natives, map[]);
      assert map[] + Named(symbols, natives) == natives;
    }

    lemma RestoringInstalls(c: Checkpoint, over: Globals)
      requires Restorable(c) && Clean(symbols, over)
      ensures Restore(c.natives, over) == Saved(c)
    {
      hide Restore, Capture, Named, Clean, Untagged;
      CleanIsUntagged(symbols, Saved(c));
      RestoreAfterCapture(symbols, Saved(c), over);
      NamedCovers(symbols, Saved(c), over);
    }

    method SaveActive()
      requires Valid()
      modifies this`sessions, this`activeId
      ensures Valid() && activeId == None && View() == old(View())
    {
      if activeId.Some? {
        var id := activeId.value;
        var record := sessions[id];
        CheckpointIsRestorable(globals, record.session.text, record.session.point, record.session.lastCommand);
        var saved := TakeCheckpoint(record.session);
        sessions := sessions[id := record.(checkpoint := saved)];
      }
      activeId := None;
    }

    method SessionRecord(id: string) returns (record: Record)
      requires Valid() && activeId == None
      modifies this`sessions, this`globals
      ensures Valid() && activeId == None && id in sessions && sessions[id] == record
      ensures id in old(sessions) ==> View() == old(View())
      ensures id !in old(sessions) ==>
        View() == old(Model(View().table[id := Fresh(initial, globals)], globals + initial))
    {
      if id in sessions { return sessions[id]; }
      var session := CreateSession();
      assert Clean(symbols, globals);
      CheckpointIsRestorable(globals, session.text, session.point, session.lastCommand);
      var checkpoint := TakeCheckpoint(session);
      record := Record(session, NO_REGISTRATION, checkpoint);
      label before:
      sessions := sessions[id := record];
      assert forall other :: other in old(sessions) ==> LocalOf(other) == old(LocalOf(other));
      assert LocalOf(id) == Fresh(initial, old(globals));
      assert View().table == old(View().table)[id := Fresh(initial, old(globals))];
    }

    /** skk-ime-session-restore: refill the buffer and write the checkpoint back to the globals. */
    method Install(id: string)
      requires Valid() && activeId == None && id in sessions
      modifies this
      ensures Valid() && activeId == Some(id)
      ensures id in old(View()).table
      ensures View() == old(View()).(ambient := old(View()).table[id].natives)
    {
      hide Restore, Capture, WellBehaved;
      var next := sessions[id];
      var c := next.checkpoint;
      RestoringInstalls(c, globals);
      RestoreNativeState(c.natives);
      sessions := sessions[id := next.(session := Session(c.text, c.point, c.lastCommand))];
      activeId := Some(id);
      assert LocalOf(id) == old(LocalOf(id));
      assert forall other :: other in sessions ==> LocalOf(other) == old(LocalOf(other));
      assert View().table == old(View()).table;
    }

    /** Makes `id` the active session: save the old one first, then create or restore the new one. */
    method SwitchTo(id: string)
      requires Valid() && activeId != Some(id)
      modifies this
      ensures Valid() && activeId == Some(id)
      ensures id in old(View()).table ==>
        View() == old(View()).(ambient := old(View()).table[id].natives)
      ensures id !in old(View()).table ==>
        View() == Model(old(View()).table[id := Fresh(initial, old(globals))], old(globals) + initial)
    {
      hide Valid, LocalOf;
      SaveActive();
      var _ := SessionRecord(id);
      Install(id);
    }

    method Close(id: string)
      requires Valid()
      modifies this`sessions, this`activeId
      ensures Valid() && View() == old(View().(table := View().table - {id}))
      ensures id !in sessions && activeId != Some(id)
    {
      hide Restore, Capture, WellBehaved;
      sessions := sessions - {id};
      if activeId == Some(id) { activeId := None; }
      assert View().table == old(View().table) - {id};
    }

    /** One request on the state that is already installed. */
    method StepActive(id: string, line: string) returns (reply: string)
      requires Valid() && activeId == Some(id)
      modifies this`globals, this`sessions
      ensures Valid()
      ensures id in old(View()).table
      ensures var (s, r) := step(old(View()).table[id], line);
        reply == r && View() == Model(old(View()).table[id := s], s.natives)
    {
      hide Restore, Capture;
      var record := sessions[id];
      var (after, r) := step(LocalOf(id), line);
      globals := after.natives;
      sessions := sessions[id := record.(
        session := Session(after.text, after.point, after.lastCommand), registration := after.registration)];
      reply := r;
      assert LocalOf(id) == after;
      assert forall other :: other in old(sessions) && other != id ==> LocalOf(other) == old(LocalOf(other));
      assert View().table == old(View().table)[id := after];
    }

    lemma SessionsAreViewed()
      ensures View().table.Keys == sessions.Keys && View().ambient == globals
    {
    }

    method DispatchSessionLine(id: string, line: string) returns (response: string)
      requires Valid()
      modifies this
      ensures Valid()
      ensures View() == Serve(step, initial, old(View()), id, line).0
      ensures response == Serve(step, initial, old(View()), id, line).1
      ensures sessions.Keys == if line == "CLOSE" then old(sessions).Keys - {id} else old(sessions).Keys + {id}
    {
      hide Valid, View, LocalOf;
      SessionsAreViewed();
      ghost var was := View();
      if line == "CLOSE" {
        Close(id);
        SessionsAreViewed();
        return "OK CLOSED";
      }
      if activeId != Some(id) {
        SwitchTo(id);
      }
      response := StepActive(id, line);
      SessionsAreViewed();
      assert View().table.Keys == was.table.Keys + {id};
    }
  }
}
