/** Theorems about runs of the front end: replay, undo, kana class, bounds. */
module FrontendRuns {
  import opened Common
  import opened KanaRules
  import opened Frontend

  // ---------------------------------------------------------------------------
  // What one key does inside a preedit.

  /** `key` starts a preedit from a reset front end. */
  predicate Opens(s: State, key: Key) {
    s.continuous || (IsUpper(key) && key != 'L' && key != 'Q')
  }

  predicate InPreedit(s: State, key: Key) {
    s.Kana() && (s.preedit || Opens(s, key))
  }

  predicate Letters(pending: string) {
    forall k :: 0 <= k < |pending| ==> IsLetter(pending[k])
  }

  /** Only text and pending change, and pending stays romaji letters. */
  predicate OnlyTextMoves(s: State, t: State) {
    t == s.(text := t.text, pending := t.pending) && Letters(t.pending)
  }

  lemma AbsorbInPreedit(s: State, next: string, lower: Key)
    requires s.preedit && s.Kana() && next != "" && (|next| > 1 ==> s.pending != "")
    requires Letters(next) && IsLetter(lower)
    ensures OnlyTextMoves(s, Absorb(s, next, lower).0)
    decreases |s.pending|, 0
  {
    hide ExactRule, IsPrefix;
    if ExactRule(next).None? && !IsPrefix(next) && |next| > 1 && next[0] == 'n' {
      ComposeInPreedit(s.(text := s.text + s.InClass("ん"), pending := ""), lower);
    }
  }

  lemma ComposeInPreedit(s: State, key: Key)
    requires s.preedit && s.Kana() && Letters(s.pending)
    ensures OnlyTextMoves(s, Compose(s, key).0)
    decreases |s.pending|, 1
  {
    var lower := ToLower(key);
    if IsLetter(lower) {
      if IsDoubled(s.pending + [lower]) {
        AbsorbInPreedit(s.(text := s.text + s.InClass("っ")), [lower], lower);
      } else {
        AbsorbInPreedit(s, s.pending + [lower], lower);
      }
    }
  }

  /** `key` logged and the preedit opened: what Compose then works on. */
  function Started(s: State, key: Key): State {
    Open(s.(rawKeys := s.rawKeys + [key]), key)
  }

  lemma FeedIsCompose(s: State, key: Key)
    requires InPreedit(s, key)
    ensures FeedAscii(s, key, true) == Compose(Started(s, key), key)
    ensures Started(s, key).preedit && Started(s, key).Kana() && Started(s, key).pending == s.pending
  {
    hide Compose;
  }

  lemma FeedInPreedit(s: State, key: Key)
    requires InPreedit(s, key) && Letters(s.pending)
    ensures var t := FeedAscii(s, key, true).0;
      && t.preedit && t.Kana() && Letters(t.pending)
      && t.katakana == s.katakana && t.continuous == s.continuous
      && t.rawKeys == s.rawKeys + [key]
  {
    hide Compose, FeedAscii;
    FeedIsCompose(s, key);
    ComposeInPreedit(Started(s, key), key);
  }

  // ---------------------------------------------------------------------------
  // The kana class commutes with typing.

  /** The state after ToKatakana. */
  function Kata(s: State): State {
    s.(text := Katakana(s.text), katakana := true)
  }

  lemma KatakanaAppend(a: string, b: string)
    ensures Katakana(a + b) == Katakana(a) + Katakana(b)
  {
  }

  lemma KatakanaIdempotent(a: string)
    ensures Katakana(Katakana(a)) == Katakana(a)
  {
  }

  lemma KatakanaKeepsLetters(pending: string)
    requires Letters(pending)
    ensures Katakana(pending) == pending
  {
  }

  lemma AbsorbCommutesWithKatakana(s: State, next: string, lower: Key)
    requires s.preedit && s.Kana() && next != "" && (|next| > 1 ==> s.pending != "")
    requires Letters(next) && IsLetter(lower)
    ensures Absorb(Kata(s), next, lower).0 == Kata(Absorb(s, next, lower).0)
    decreases |s.pending|, 0
  {
    hide ExactRule, IsPrefix;
    if ExactRule(next).Some? {
      KatakanaAppend(s.text, s.InClass(ExactRule(next).value));
      KatakanaIdempotent(ExactRule(next).value);
    } else if IsPrefix(next) {
    } else if |next| > 1 && next[0] == 'n' {
      KatakanaAppend(s.text, s.InClass("ん"));
      KatakanaIdempotent("ん");
      ComposeCommutesWithKatakana(s.(text := s.text + s.InClass("ん"), pending := ""), lower);
    } else {
      KatakanaAppend(s.text, [next[0]]);
      KatakanaKeepsLetters([next[0]]);
    }
  }

  lemma PunctuationCommutesWithKatakana(text: string, pending: string, key: Key)
    requires Letters(pending)
    ensures Katakana(text + pending + [Punctuation(key)]) == Katakana(text) + pending + [Punctuation(key)]
  {
    KatakanaKeepsLetters(pending);
    KatakanaAppend(text, pending);
    KatakanaAppend(text + pending, [Punctuation(key)]);
  }

  lemma ComposeCommutesWithKatakana(s: State, key: Key)
    requires s.preedit && s.Kana() && Letters(s.pending)
    ensures Compose(Kata(s), key).0 == Kata(Compose(s, key).0)
    decreases |s.pending|, 1
  {
    hide Absorb;
    var lower := ToLower(key);
    if !IsLetter(lower) {
      PunctuationCommutesWithKatakana(s.text, s.pending, key);
    } else if IsDoubled(s.pending + [lower]) {
      KatakanaAppend(s.text, s.InClass("っ"));
      KatakanaIdempotent("っ");
      AbsorbCommutesWithKatakana(s.(text := s.text + s.InClass("っ")), [lower], lower);
    } else {
      AbsorbCommutesWithKatakana(s, s.pending + [lower], lower);
    }
  }

  lemma FeedCommutesWithKatakana(s: State, key: Key)
    requires InPreedit(s, key) && Letters(s.pending)
    ensures FeedAscii(Kata(s), key, true).0 == Kata(FeedAscii(s, key, true).0)
  {
    hide Compose, FeedAscii;
    KatakanaAppend(s.text, "*");
    assert |Katakana(s.text)| == |s.text|;
    assert Started(Kata(s), key) == Kata(Started(s, key));
    FeedIsCompose(s, key);
    FeedIsCompose(Kata(s), key);
    ComposeCommutesWithKatakana(Started(s, key), key);
  }

  /** A run of keys typed from `s`, all inside a preedit. */
  predicate StaysOpen(s: State, keys: seq<Key>) {
    s.Kana() && Letters(s.pending) && (s.preedit || keys == [] || Opens(s, keys[0]))
  }

  lemma {:induction false} FeedAllInPreedit(s: State, keys: seq<Key>)
    requires StaysOpen(s, keys)
    ensures var t := FeedAll(s, keys);
      && t.Kana() && Letters(t.pending) && (keys != [] ==> t.preedit)
      && t.katakana == s.katakana && t.continuous == s.continuous
      && t.rawKeys == s.rawKeys + keys
  {
    if keys != [] {
      FeedAllInPreedit(s, DropLast(keys));
      FeedInPreedit(FeedAll(s, DropLast(keys)), Last(keys));
      assert keys == DropLast(keys) + [Last(keys)];
    }
  }

  /** Katakana first and typing second, or typing first and katakana second: the same state. */
  lemma {:induction false} TypingCommutesWithKatakana(s: State, keys: seq<Key>)
    requires StaysOpen(s, keys)
    ensures FeedAll(Kata(s), keys) == Kata(FeedAll(s, keys))
  {
    if keys != [] {
      TypingCommutesWithKatakana(s, DropLast(keys));
      FeedAllInPreedit(s, DropLast(keys));
      FeedCommutesWithKatakana(FeedAll(s, DropLast(keys)), Last(keys));
    }
  }

  // ---------------------------------------------------------------------------
  // A hiragana run holds no katakana letter, so ToHiragana can restore it.

  predicate NoKatakana(text: string) {
    forall k :: 0 <= k < |text| ==> !IsKatakana(text[k])
  }

  lemma HiraganaUndoesKatakana(text: string)
    requires NoKatakana(text)
    ensures Hiragana(text) == text && Hiragana(Katakana(text)) == text
  {
  }

  lemma AbsorbHiragana(s: State, next: string, lower: Key)
    requires s.preedit && s.Kana() && next != "" && (|next| > 1 ==> s.pending != "")
    requires Letters(next) && IsLetter(lower) && !s.katakana && NoKatakana(s.text)
    ensures NoKatakana(Absorb(s, next, lower).0.text)
    decreases |s.pending|, 0
  {
    ExactRuleIsGood(next);
    hide ExactRule, IsPrefix;
    if ExactRule(next).None? && !IsPrefix(next) && |next| > 1 && next[0] == 'n' {
      ComposeHiragana(s.(text := s.text + s.InClass("ん"), pending := ""), lower);
    }
  }

  lemma ComposeHiragana(s: State, key: Key)
    requires s.preedit && s.Kana() && Letters(s.pending) && !s.katakana && NoKatakana(s.text)
    ensures NoKatakana(Compose(s, key).0.text)
    decreases |s.pending|, 1
  {
    hide Absorb;
    var lower := ToLower(key);
    if IsLetter(lower) {
      if IsDoubled(s.pending + [lower]) {
        AbsorbHiragana(s.(text := s.text + s.InClass("っ")), [lower], lower);
      } else {
        AbsorbHiragana(s, s.pending + [lower], lower);
      }
    }
  }

  lemma {:induction false} HiraganaRunHasNoKatakana(s: State, keys: seq<Key>)
    requires StaysOpen(s, keys) && !s.katakana && NoKatakana(s.text)
    ensures NoKatakana(FeedAll(s, keys).text)
  {
    hide Compose, FeedAscii;
    if keys != [] {
      HiraganaRunHasNoKatakana(s, DropLast(keys));
      FeedAllInPreedit(s, DropLast(keys));
      FeedIsCompose(FeedAll(s, DropLast(keys)), Last(keys));
      ComposeHiragana(Started(FeedAll(s, DropLast(keys)), Last(keys)), Last(keys));
    }
  }

  // ---------------------------------------------------------------------------
  // The replay invariant: the state is always the fold of its own raw-key log.

  predicate Replays(s: State) {
    && s.Kana()
    && s == Rebuild(s)
    && (s.rawKeys == [] || Opens(s, s.rawKeys[0]))
  }

  datatype Event = Typed(key: char) | BackspaceEvent | ToKatakanaEvent | ToHiraganaEvent

  function Apply(s: State, e: Event): State {
    match e
    case Typed(key) => Feed(s, key).0
    case BackspaceEvent => Backspace(s).0
    case ToKatakanaEvent => ToKatakana(s).0
    case ToHiraganaEvent => ToHiragana(s).0
  }

  /** Outside a preedit only a key that opens one is typed; continuous preedit allows any key. */
  predicate Allowed(s: State, e: Event) {
    e.Typed? && ' ' <= e.key <= '~' && !s.preedit ==> Opens(s, e.key)
  }

  lemma ReplaysOpen(s: State)
    requires Replays(s)
    ensures StaysOpen(Reset(s), s.rawKeys) && Letters(s.pending)
    ensures s.rawKeys == [] ==> s == Reset(s)
    ensures s.rawKeys != [] ==> s.preedit
  {
    FeedAllInPreedit(Reset(s), s.rawKeys);
  }

  lemma TypedKeepsReplays(s: State, key: Key)
    requires Replays(s) && InPreedit(s, key)
    ensures Replays(FeedAscii(s, key, true).0)
  {
    ReplaysOpen(s);
    FeedInPreedit(s, key);
    var t := FeedAscii(s, key, true).0;
    assert DropLast(t.rawKeys) == s.rawKeys;
    assert Reset(t) == Reset(s);
  }

  lemma BackspaceKeepsReplays(s: State)
    requires Replays(s)
    ensures Replays(Backspace(s).0)
    ensures s.rawKeys != [] ==> Backspace(s).0 == FeedAll(Reset(s), DropLast(s.rawKeys))
  {
    ReplaysOpen(s);
    if s.rawKeys != [] {
      var log := DropLast(s.rawKeys);
      assert log != [] ==> log[0] == s.rawKeys[0];
      FeedAllInPreedit(Reset(s), log);
      var rebuilt := FeedAll(Reset(s), log);
      assert Reset(s.(rawKeys := log)) == Reset(s);
      assert Backspace(s).0 == rebuilt;
      assert Reset(rebuilt) == Reset(s) && rebuilt.rawKeys == log;
    }
  }

  lemma ToKatakanaKeepsReplays(s: State)
    requires Replays(s)
    ensures Replays(ToKatakana(s).0)
  {
    ReplaysOpen(s);
    TypingCommutesWithKatakana(Reset(s), s.rawKeys);
    assert Kata(Reset(s)) == Reset(Kata(s));
  }

  /** ToHiragana leaves exactly what typing the same keys in hiragana would have left. */
  lemma ToHiraganaRestoresTheHiraganaRun(s: State)
    requires Replays(s)
    ensures ToHiragana(s).0 == FeedAll(Reset(s).(katakana := false), s.rawKeys)
  {
    ReplaysOpen(s);
    var plain := Reset(s).(katakana := false);
    var run := FeedAll(plain, s.rawKeys);
    FeedAllInPreedit(plain, s.rawKeys);
    HiraganaRunHasNoKatakana(plain, s.rawKeys);
    HiraganaUndoesKatakana(run.text);
    KatakanaIdempotent(run.text);
    TypingCommutesWithKatakana(plain, s.rawKeys);
    assert Katakana("") == "";
    assert s.katakana ==> Kata(plain) == Reset(s);
    assert !s.katakana ==> plain == Reset(s);
  }

  lemma ToHiraganaKeepsReplays(s: State)
    requires Replays(s)
    ensures Replays(ToHiragana(s).0)
  {
    ReplaysOpen(s);
    ToHiraganaRestoresTheHiraganaRun(s);
    FeedAllInPreedit(Reset(s).(katakana := false), s.rawKeys);
  }

  function Run(s: State, events: seq<Event>): State {
    if events == [] then s else Apply(Run(s, DropLast(events)), Last(events))
  }

  predicate AllowedRun(s: State, events: seq<Event>) {
    forall k :: 0 <= k < |events| ==> Allowed(Run(s, events[..k]), events[k])
  }

  /** Text, pending and okuri state always equal the fold of the raw keys in the current class. */
  lemma {:induction false} ReplayInvariant(s: State, events: seq<Event>)
    requires s == Reset(s) && s.Kana() && AllowedRun(s, events)
    ensures Replays(Run(s, events))
  {
    if events != [] {
      var before := Run(s, DropLast(events));
      assert forall k :: 0 <= k < |events| - 1 ==> DropLast(events)[..k] == events[..k];
      assert events[..|events| - 1] == DropLast(events);
      ReplayInvariant(s, DropLast(events));
      match Last(events)
      case Typed(key) =>
        if ' ' <= key <= '~' {
          TypedKeepsReplays(before, key);
        }
      case BackspaceEvent => BackspaceKeepsReplays(before);
      case ToKatakanaEvent => ToKatakanaKeepsReplays(before);
      case ToHiraganaEvent => ToHiraganaKeepsReplays(before);
    }
  }

  /** Inside a preedit, or on the key that opens one, Backspace is the inverse of Feed. */
  lemma BackspaceUndoesFeed(s: State, key: Key)
    requires Replays(s) && InPreedit(s, key)
    ensures Backspace(Feed(s, key).0).0 == s && Backspace(Feed(s, key).0).1.Some?
  {
    TypedKeepsReplays(s, key);
    ReplaysOpen(s);
    FeedInPreedit(s, key);
    var t := Feed(s, key).0;
    BackspaceKeepsReplays(t);
    assert DropLast(t.rawKeys) == s.rawKeys;
    assert Reset(t) == Reset(s);
  }

  /** Committing as katakana shows the katakana of what an ordinary commit shows. */
  lemma CommitKatakanaIsKatakanaOfCommit(s: State)
    requires s.preedit
    ensures CommitKatakana(s).1.Some? && Commit(s).1.Some?
    ensures CommitKatakana(s).0 == Commit(s).0
    ensures CommitKatakana(s).1.value
         == Commit(s).1.value.(text := Katakana(Commit(s).1.value.text))
  {
    KatakanaAppend(s.text, "ん");
    KatakanaAppend(s.text, s.InClass("ん"));
    KatakanaIdempotent("ん");
  }

  // ---------------------------------------------------------------------------
  // Outside a preedit Backspace edits the pending letters only.

  /** Outside a preedit, in a kana submode: any text and any log may be left over. */
  predicate Outside(s: State) {
    s.Kana() && !s.continuous && !s.preedit && Letters(s.pending)
  }

  /** The key log still spells the state, as Backspace in a preedit takes for granted. */
  predicate SpelledByLog(s: State) {
    s == if Rebuild(s).rawKeys == [] then Reset(Rebuild(s)) else Rebuild(s)
  }

  predicate Undone(s: State, key: Key) {
    var t := Feed(s, key).0;
    Backspace(t).1.Some? && Backspace(t).0 == s
  }

  /** The key only lengthens the pending letters. */
  predicate Lengthens(s: State, key: Key) {
    && IsLetter(key)
    && !(s.pending == "" && (key == 'l' || key == 'q'))
    && !IsDoubled(s.pending + [key])
    && ExactRule(s.pending + [key]).None? && IsPrefix(s.pending + [key])
  }

  /** The key opens a preedit on top of the pending letters. */
  predicate OpensPreedit(s: State, key: Key) {
    IsUpper(key) && !(s.pending == "" && (key == 'L' || key == 'Q'))
  }

  lemma UndoneWhenLengthened(s: State, key: Key)
    requires Outside(s) && Lengthens(s, key)
    ensures Undone(s, key)
  {
    hide IsPrefix, ExactRule;
    var pushed := s.(rawKeys := s.rawKeys + [key]);
    assert Feed(s, key).0 == Compose(pushed, key).0;
    assert Compose(pushed, key).0 == pushed.(pending := s.pending + [key]);
    assert DropLast(s.pending + [key]) == s.pending;
    assert DropLast(s.rawKeys + [key]) == s.rawKeys;
  }

  lemma OpeningFeedIsLogged(s: State, key: Key)
    requires Outside(s) && OpensPreedit(s, key)
    ensures var t := Feed(s, key).0;
      t.preedit && t.rawKeys == s.rawKeys + [key] && Reset(t) == Reset(s)
  {
    hide Compose;
    ComposeInPreedit(Open(s.(rawKeys := s.rawKeys + [key]), key), key);
  }

  /** Taking back the key that opened the preedit types the log again from nothing. */
  lemma OpeningIsUndoneExactly(s: State, key: Key)
    requires Outside(s) && OpensPreedit(s, key)
    ensures Undone(s, key) <==> SpelledByLog(s)
  {
    hide FeedAscii, FeedAll;
    OpeningFeedIsLogged(s, key);
    assert DropLast(s.rawKeys + [key]) == s.rawKeys;
  }

  /** Nothing is left to erase, or text beyond the first `n` characters stays behind. */
  predicate Emitted(t: State, n: nat) {
    !t.preedit && (t.pending == "" || |t.text| > n)
  }

  lemma EmittedIsNotUndone(s: State, t: State)
    requires Emitted(t, |s.text|)
    ensures Backspace(t).1.None? || Backspace(t).0 != s
  {
  }

  lemma EmittingStaysEmitted(s: State, key: Key, n: nat)
    requires !s.preedit && !s.continuous && s.Kana() && s.pending == "" && |s.text| > n && IsLetter(key)
    ensures Emitted(FeedAscii(s, key, false).0, n)
  {
    hide IsPrefix, ExactRule;
    if key != 'l' && key != 'q' {
      assert FeedAscii(s, key, false) == Compose(s, key);
      assert s.pending + [key] == [key];
      assert Compose(s, key) == Absorb(s, [key], key);
    }
  }

  lemma AbsorbEmits(s: State, next: string, key: Key, n: nat)
    requires !s.preedit && !s.continuous && s.Kana() && IsLetter(key)
    requires next != "" && (|next| > 1 ==> s.pending != "") && |s.text| >= n
    requires |s.text| > n || ExactRule(next).Some? || !IsPrefix(next)
    ensures Emitted(Absorb(s, next, key).0, n)
  {
    hide IsPrefix, ExactRule;
    if ExactRule(next).None? && !IsPrefix(next) && |next| > 1 && next[0] == 'n' {
      var emitted := s.text + s.InClass("ん");
      assert |emitted| == |s.text| + |s.InClass("ん")| && |s.InClass("ん")| == 1;
      EmittingStaysEmitted(s.(text := emitted, pending := ""), key, n);
    }
  }

  /** Any other key has already emitted text or switched the mode. */
  lemma NotUndoneOtherwise(s: State, key: Key)
    requires Outside(s) && !OpensPreedit(s, key) && !Lengthens(s, key)
    ensures !Undone(s, key)
  {
    hide IsPrefix, ExactRule;
    var t := Feed(s, key).0;
    var pushed := s.(rawKeys := s.rawKeys + [key]);
    if IsLetter(key) && !(s.pending == "" && (key == 'l' || key == 'q')) {
      assert t == Compose(pushed, key).0;
      var sokuon := pushed.(text := s.text + s.InClass("っ"));
      assert |s.InClass("っ")| == 1;
      if IsDoubled(s.pending + [key]) {
        AbsorbEmits(sokuon, [key], key, |s.text|);
      } else {
        AbsorbEmits(pushed, s.pending + [key], key, |s.text|);
      }
    } else if IsLetter(ToLower(key)) {
      assert s.pending == "" && key in "lqLQ";
    } else {
      assert t == Compose(pushed, key).0;
    }
    assert Emitted(t, |s.text|);
    EmittedIsNotUndone(s, t);
  }

  /**
    Outside a preedit, whatever text and log are left over, Backspace undoes exactly the keys that only
    lengthen the pending letters, and those that open a preedit where the log still spells the state.
   */
  lemma DirectUndoExactly(s: State, key: Key)
    requires Outside(s)
    ensures Undone(s, key) <==> Lengthens(s, key) || (OpensPreedit(s, key) && SpelledByLog(s))
  {
    hide IsPrefix, ExactRule, Undone, SpelledByLog;
    if OpensPreedit(s, key) {
      OpeningIsUndoneExactly(s, key);
    } else if Lengthens(s, key) {
      UndoneWhenLengthened(s, key);
    } else {
      NotUndoneOtherwise(s, key);
    }
  }

  lemma TypingKWaits(s: State)
    requires s == Reset(s) && s.Kana() && !s.continuous
    ensures Feed(s, 'k').0 == s.(pending := "k", rawKeys := ['k'])
    ensures Outside(Feed(s, 'k').0) && SpelledByLog(Feed(s, 'k').0)
  {
    hide IsPrefix, ExactRule;
    KWaits();
    var pushed := s.(rawKeys := ['k']);
    assert s.rawKeys + ['k'] == ['k'] && s.pending + ['k'] == "k";
    assert Feed(s, 'k').0 == Compose(pushed, 'k').0 == Absorb(pushed, "k", 'k').0;
    assert DropLast(['k']) == [] && FeedAll(s, ['k']) == Feed(s, 'k').0;
  }

  /** The plainest failing input: a doubled consonant emits its small tsu and cannot take it back. */
  lemma DoubledConsonantIsNotUndone(s: State)
    requires s == Reset(s) && s.Kana() && !s.continuous
    ensures Outside(Feed(s, 'k').0) && SpelledByLog(Feed(s, 'k').0) && !Undone(Feed(s, 'k').0, 'k')
  {
    TypingKWaits(s);
    var k := Feed(s, 'k').0;
    hide Feed, IsPrefix, ExactRule;
    assert IsDoubled(k.pending + ['k']);
    NotUndoneOtherwise(k, 'k');
  }

  // ---------------------------------------------------------------------------
  // Bounds: pending romaji, nested calls, preedit length.

  // FeedAscii once more, with the number of its activations as a third result.

  function AbsorbCounted(s: State, next: string, lower: Key): (State, Option<Surface>, nat)
    requires next != "" && (|next| > 1 ==> s.pending != "")
    decreases |s.pending|, 0
  {
    if ExactRule(next).Some? then
      var (t, shown) := Finish(s.(text := s.text + s.InClass(ExactRule(next).value), pending := ""));
      (t, shown, 0)
    else if IsPrefix(next) then
      var (t, shown) := Finish(s.(pending := next));
      (t, shown, 0)
    else if |next| > 1 && next[0] == 'n' then
      FeedCounted(s.(text := s.text + s.InClass("ん"), pending := ""), lower, false)
    else
      var (t, shown) := Finish(s.(text := s.text + [next[0]], pending := next[1..]));
      (t, shown, 0)
  }

  function ComposeCounted(s: State, key: Key): (State, Option<Surface>, nat)
    decreases |s.pending|, 1
  {
    var lower := ToLower(key);
    if !IsLetter(lower) then
      var (t, shown) := Finish(s.(text := s.text + s.pending + [Punctuation(key)], pending := ""));
      (t, shown, 0)
    else if IsDoubled(s.pending + [lower]) then
      AbsorbCounted(s.(text := s.text + s.InClass("っ")), [lower], lower)
    else
      AbsorbCounted(s, s.pending + [lower], lower)
  }

  function FeedCounted(s0: State, key: Key, record: bool): (State, Option<Surface>, nat)
    decreases |s0.pending|, 2
  {
    var s := if record then s0.(rawKeys := s0.rawKeys + [key]) else s0;
    if s.Direct() && key == 'L' then
      var t := s.(wideLatin := true, latin := false, rawKeys := []);
      (t, Some(Snapshot(t, false)), 1)
    else if s.Direct() && key == 'l' then
      var t := s.(latin := true, wideLatin := false, rawKeys := []);
      (t, Some(Snapshot(t, false)), 1)
    else if s.latin then (s, None, 1)
    else if s.wideLatin then
      (s.(rawKeys := []), Some(Snapshot(s, true).(text := [WideChar(key)])), 1)
    else if s.Direct() && (key == 'q' || key == 'Q') then
      var t := s.(katakana := !s.katakana, rawKeys := if record then [] else s.rawKeys);
      (t, Some(Snapshot(t, false)), 1)
    else
      var (t, shown, nested) := ComposeCounted(Open(s, key), key);
      (t, shown, 1 + nested)
  }

  lemma AbsorbIsCounted(s: State, next: string, lower: Key)
    requires next != "" && (|next| > 1 ==> s.pending != "")
    ensures var (t, shown, nested) := AbsorbCounted(s, next, lower);
      (t, shown) == Absorb(s, next, lower) && nested <= if s.pending == "" then 0 else 1
    decreases |s.pending|, 0
  {
    hide IsPrefix, ExactRule, FeedAscii, FeedCounted;
    if ExactRule(next).None? && !IsPrefix(next) && |next| > 1 && next[0] == 'n' {
      FeedIsCounted(s.(text := s.text + s.InClass("ん"), pending := ""), lower, false);
    }
  }

  lemma ComposeIsCounted(s: State, key: Key)
    ensures var (t, shown, nested) := ComposeCounted(s, key);
      (t, shown) == Compose(s, key) && nested <= if s.pending == "" then 0 else 1
    decreases |s.pending|, 1
  {
    hide Absorb, AbsorbCounted;
    var lower := ToLower(key);
    if IsLetter(lower) {
      if IsDoubled(s.pending + [lower]) {
        AbsorbIsCounted(s.(text := s.text + s.InClass("っ")), [lower], lower);
      } else {
        AbsorbIsCounted(s, s.pending + [lower], lower);
      }
    }
  }

  /**
    Counting changes nothing, and a key causes at most one nested activation: that one starts with the
    pending letters cleared, and with no pending letters there is none.
   */
  lemma FeedIsCounted(s: State, key: Key, record: bool)
    ensures var (t, shown, calls) := FeedCounted(s, key, record);
      (t, shown) == FeedAscii(s, key, record) && 1 <= calls <= if s.pending == "" then 1 else 2
    decreases |s.pending|, 2
  {
    hide Compose, ComposeCounted;
    var pushed := if record then s.(rawKeys := s.rawKeys + [key]) else s;
    var entered := Open(pushed, key);
    assert entered.pending == s.pending;
    ComposeIsCounted(entered, key);
    var (t, shown, calls) := FeedCounted(s, key, record);
    assert calls == 1 || calls == 1 + ComposeCounted(entered, key).2;
  }

  lemma AbsorbKeepsPendingShort(s: State, next: string, lower: Key)
    requires next != "" && (|next| > 1 ==> s.pending != "") && |next| <= 4
    ensures |Absorb(s, next, lower).0.pending| <= 3
    decreases |s.pending|, 0
  {
    hide IsPrefix, ExactRule, FeedAscii;
    if ExactRule(next).None? && IsPrefix(next) {
      PrefixIsShort(next);
    }
    if ExactRule(next).None? && !IsPrefix(next) && |next| > 1 && next[0] == 'n' {
      FeedKeepsPendingShort(s.(text := s.text + s.InClass("ん"), pending := ""), lower, false);
    }
  }

  lemma FeedKeepsPendingShort(s: State, key: Key, record: bool)
    requires |s.pending| <= 3
    ensures |FeedAscii(s, key, record).0.pending| <= 3
    decreases |s.pending|, 2
  {
    hide Compose;
    ComposeKeepsPendingShort(Open(if record then s.(rawKeys := s.rawKeys + [key]) else s, key), key);
  }

  lemma ComposeKeepsPendingShort(s: State, key: Key)
    requires |s.pending| <= 3
    ensures |Compose(s, key).0.pending| <= 3
    decreases |s.pending|, 1
  {
    hide Absorb;
    var lower := ToLower(key);
    if IsLetter(lower) {
      if IsDoubled(s.pending + [lower]) {
        AbsorbKeepsPendingShort(s.(text := s.text + s.InClass("っ")), [lower], lower);
      } else {
        AbsorbKeepsPendingShort(s, s.pending + [lower], lower);
      }
    }
  }

  lemma {:induction false} FeedAllKeepsPendingShort(s: State, keys: seq<Key>)
    requires |s.pending| <= 3
    ensures |FeedAll(s, keys).pending| <= 3
  {
    if keys != [] {
      FeedAllKeepsPendingShort(s, DropLast(keys));
      FeedKeepsPendingShort(FeedAll(s, DropLast(keys)), Last(keys), true);
    }
  }

  /** On every run whatsoever, allowed or not, at most three romaji letters wait. */
  lemma {:induction false} PendingIsShort(s: State, events: seq<Event>)
    requires |s.pending| <= 3
    ensures |Run(s, events).pending| <= 3
  {
    hide FeedAscii;
    if events != [] {
      var before := Run(s, DropLast(events));
      PendingIsShort(s, DropLast(events));
      match Last(events)
      case Typed(key) =>
        if ' ' <= key <= '~' {
          FeedKeepsPendingShort(before, key, true);
        }
      case BackspaceEvent =>
        if before.rawKeys != [] {
          FeedAllKeepsPendingShort(Reset(before), DropLast(before.rawKeys));
          assert Reset(before.(rawKeys := DropLast(before.rawKeys))) == Reset(before);
        }
      case ToKatakanaEvent =>
      case ToHiraganaEvent =>
    }
  }

  lemma AbsorbGrowth(s: State, next: string, lower: Key)
    requires s.preedit && s.Kana() && next != "" && (|next| > 1 ==> s.pending != "") && IsLetter(lower)
    ensures var t := Absorb(s, next, lower).0; |t.text| + |t.pending| <= |s.text| + |next|
    decreases |s.pending|, 0
  {
    ExactRuleIsGood(next);
    hide IsPrefix, ExactRule;
    if ExactRule(next).None? && !IsPrefix(next) && |next| > 1 && next[0] == 'n' {
      ComposeGrowth(s.(text := s.text + s.InClass("ん"), pending := ""), lower);
    }
  }

  lemma ComposeGrowth(s: State, key: Key)
    requires s.preedit && s.Kana()
    ensures var t := Compose(s, key).0; |t.text| + |t.pending| <= |s.text| + |s.pending| + 1
    decreases |s.pending|, 1
  {
    hide Absorb;
    var lower := ToLower(key);
    if IsLetter(lower) {
      if IsDoubled(s.pending + [lower]) {
        AbsorbGrowth(s.(text := s.text + s.InClass("っ")), [lower], lower);
      } else {
        AbsorbGrowth(s, s.pending + [lower], lower);
      }
    }
  }

  lemma {:induction false} FeedAllGrowth(s: State, keys: seq<Key>)
    requires StaysOpen(s, keys) && s == Reset(s)
    ensures var t := FeedAll(s, keys);
      |t.text| + |t.pending| <= |keys| + (if t.okuriStarted then 1 else 0)
  {
    hide Compose, FeedAscii;
    if keys != [] {
      FeedAllGrowth(s, DropLast(keys));
      FeedAllInPreedit(s, DropLast(keys));
      var started := Started(FeedAll(s, DropLast(keys)), Last(keys));
      FeedIsCompose(FeedAll(s, DropLast(keys)), Last(keys));
      ComposeGrowth(started, Last(keys));
      ComposeInPreedit(started, Last(keys));
    }
  }

  /** A preedit is never longer than the keys that made it plus the okurigana star. */
  lemma PreeditIsBounded(s: State)
    requires Replays(s)
    ensures |s.text| + |s.pending| <= |s.rawKeys| + (if s.okuriStarted then 1 else 0)
  {
    ReplaysOpen(s);
    FeedAllGrowth(Reset(s), s.rawKeys);
  }

  // ---------------------------------------------------------------------------
  // The transducer reads whole words: an independent account of what typing means.

  /** What typing `roman` from no pending letters must leave. */
  function Spelled(s: State, roman: seq<Key>, kana: string): State {
    s.(text := s.text + s.InClass(kana), rawKeys := s.rawKeys + roman)
  }

  predicate Ready(s: State) {
    s.preedit && s.Kana() && s.pending == ""
  }

  lemma FeedLowercase(s: State, key: Key)
    requires s.preedit && s.Kana() && IsLetter(key) && !IsDoubled(s.pending + [key])
    ensures var next := s.pending + [key];
      var pushed := s.(rawKeys := s.rawKeys + [key]);
      var t := FeedAscii(s, key, true).0;
      && (ExactRule(next).Some? ==>
            t == pushed.(text := s.text + s.InClass(ExactRule(next).value), pending := ""))
      && (ExactRule(next).None? && IsPrefix(next) ==> t == pushed.(pending := next))
  {
    hide ExactRule, IsPrefix;
    var pushed := s.(rawKeys := s.rawKeys + [key]);
    assert FeedAscii(s, key, true) == Compose(pushed, key);
    assert Compose(pushed, key) == Absorb(pushed, s.pending + [key], key);
  }

  lemma SpellingIsNotDoubled(roman: seq<Key>, k: nat)
    requires roman != [] && WellSpelled(roman) && k <= |roman|
    ensures !IsDoubled(roman[..k])
  {
  }

  /** The first `k` letters of a rule, typed and waiting. */
  function Waiting(s: State, roman: seq<Key>, k: nat): State
    requires k <= |roman|
  {
    s.(pending := roman[..k], rawKeys := s.rawKeys + roman[..k])
  }

  /** No proper prefix of the spelling is complete or hopeless. */
  predicate WaitsThroughout(roman: string) {
    forall k :: 1 <= k < |roman| ==> IsPrefix(roman[..k]) && ExactRule(roman[..k]).None?
  }

  lemma RuleWaitsThroughout(roman: string)
    requires ExactRule(roman).Some?
    ensures WaitsThroughout(roman)
  {
    hide ExactRule, IsPrefix;
    forall k | 1 <= k < |roman|
      ensures IsPrefix(roman[..k]) && ExactRule(roman[..k]).None?
    {
      ProperPrefixIsPrefix(roman, k);
      ProperPrefixIsNoRule(roman, k);
    }
  }

  lemma OneMoreLetterWaits(s: State, roman: seq<Key>, k: nat)
    requires Ready(s) && Letters(roman) && k + 1 < |roman| && WellSpelled(roman)
    requires WaitsThroughout(roman)
    ensures FeedAscii(Waiting(s, roman, k), roman[k], true).0 == Waiting(s, roman, k + 1)
  {
    hide ExactRule, IsPrefix, FeedAscii, WellSpelled;
    assert roman[..k] + [roman[k]] == roman[..k + 1];
    SpellingIsNotDoubled(roman, k + 1);
    FeedLowercase(Waiting(s, roman, k), roman[k]);
  }

  lemma {:induction false} TypingAPrefixWaits(s: State, roman: seq<Key>, k: nat)
    requires Ready(s) && Letters(roman) && k < |roman| && WellSpelled(roman)
    requires WaitsThroughout(roman)
    ensures FeedAll(s, roman[..k]) == Waiting(s, roman, k)
  {
    hide FeedAscii, WellSpelled, WaitsThroughout;
    if k > 0 {
      TypingAPrefixWaits(s, roman, k - 1);
      assert DropLast(roman[..k]) == roman[..k - 1] && Last(roman[..k]) == roman[k - 1];
      OneMoreLetterWaits(s, roman, k - 1);
    } else {
      assert s.rawKeys + roman[..0] == s.rawKeys;
    }
  }

  lemma LastLetterEmits(s: State, roman: seq<Key>)
    requires Ready(s) && Letters(roman) && roman != [] && WellSpelled(roman) && ExactRule(roman).Some?
    ensures FeedAscii(Waiting(s, roman, |roman| - 1), Last(roman), true).0
         == Spelled(s, roman, ExactRule(roman).value)
  {
    hide ExactRule, IsPrefix, FeedAscii, WellSpelled;
    var k := |roman| - 1;
    assert roman[..k] + [roman[k]] == roman[..|roman|] == roman;
    assert s.rawKeys + roman[..k] + [roman[k]] == s.rawKeys + roman;
    SpellingIsNotDoubled(roman, |roman|);
    FeedLowercase(Waiting(s, roman, k), roman[k]);
  }

  /** Typing the letters of a rule emits its kana in the current class and leaves nothing pending. */
  lemma TypingARule(s: State, roman: seq<Key>)
    requires Ready(s) && Letters(roman) && ExactRule(roman).Some?
    ensures FeedAll(s, roman) == Spelled(s, roman, ExactRule(roman).value)
  {
    hide ExactRule, IsPrefix, FeedAscii, WellSpelled;
    ExactRuleIsGood(roman);
    RuleWaitsThroughout(roman);
    TypingAPrefixWaits(s, roman, |roman| - 1);
    LastLetterEmits(s, roman);
  }

  /** A word as the list of rule spellings it is made of. */
  predicate Word(romans: seq<seq<Key>>) {
    forall i :: 0 <= i < |romans| ==> Letters(romans[i]) && ExactRule(romans[i]).Some?
  }

  function Keys(romans: seq<seq<Key>>): seq<Key> {
    if romans == [] then [] else Keys(DropLast(romans)) + Last(romans)
  }

  function Reading(romans: seq<seq<Key>>): string
    requires Word(romans)
  {
    if romans == [] then "" else Reading(DropLast(romans)) + ExactRule(Last(romans)).value
  }

  lemma {:induction false} FeedAllAppend(s: State, first: seq<Key>, second: seq<Key>)
    ensures FeedAll(s, first + second) == FeedAll(FeedAll(s, first), second)
  {
    if second == [] {
      assert first + second == first;
    } else {
      FeedAllAppend(s, first, DropLast(second));
      assert DropLast(first + second) == first + DropLast(second);
      assert Last(first + second) == Last(second);
    }
  }

  lemma SpelledTwice(s: State, first: seq<Key>, kana: string, second: seq<Key>, more: string)
    ensures Spelled(Spelled(s, first, kana), second, more) == Spelled(s, first + second, kana + more)
  {
    KatakanaAppend(kana, more);
    assert s.text + s.InClass(kana) + s.InClass(more) == s.text + s.InClass(kana + more);
    assert s.rawKeys + first + second == s.rawKeys + (first + second);
  }

  /** Typing a word spells its reading, whatever rules it is made of. */
  lemma {:induction false} TypingAWord(s: State, romans: seq<seq<Key>>)
    requires Ready(s) && Word(romans)
    ensures FeedAll(s, Keys(romans)) == Spelled(s, Keys(romans), Reading(romans))
  {
    hide ExactRule, FeedAscii;
    if romans == [] {
      assert s.text + s.InClass("") == s.text && s.rawKeys + [] == s.rawKeys;
    } else {
      var front := DropLast(romans);
      TypingAWord(s, front);
      FeedAllAppend(s, Keys(front), Last(romans));
      TypingARule(FeedAll(s, Keys(front)), Last(romans));
      SpelledTwice(s, Keys(front), Reading(front), Last(romans), ExactRule(Last(romans)).value);
    }
  }

  lemma FinishingARule(s: State, roman: seq<Key>, k: nat)
    requires Ready(s) && Letters(roman) && ExactRule(roman).Some? && k < |roman|
    ensures FeedAll(Waiting(s, roman, k), roman[k..]) == Spelled(s, roman, ExactRule(roman).value)
  {
    hide ExactRule, IsPrefix, FeedAscii;
    ExactRuleIsGood(roman);
    RuleWaitsThroughout(roman);
    TypingAPrefixWaits(s, roman, k);
    TypingARule(s, roman);
    FeedAllAppend(s, roman[..k], roman[k..]);
    assert roman[..k] + roman[k..] == roman;
  }

  /** From the first letter on, `prelude` has emitted `kana` and the rule's first letter waits. */
  lemma FinishingAfterPrelude(s: State, prelude: seq<Key>, kana: string, roman: seq<Key>)
    requires Ready(s) && Letters(roman) && ExactRule(roman).Some? && |roman| >= 2
    requires FeedAll(s, prelude + roman[..1]) == Waiting(Spelled(s, prelude, kana), roman, 1)
    ensures FeedAll(s, prelude + roman) == Spelled(s, prelude + roman, kana + ExactRule(roman).value)
  {
    hide ExactRule, FeedAll, FeedAscii, WellSpelled;
    FinishingARule(Spelled(s, prelude, kana), roman, 1);
    FeedAllAppend(s, prelude + roman[..1], roman[1..]);
    assert prelude + roman[..1] + roman[1..] == prelude + roman;
    SpelledTwice(s, prelude, kana, roman, ExactRule(roman).value);
  }

  lemma DoubledLetterEmitsSokuon(s: State, key: Key)
    requires Ready(s) && IsConsonant(key) && ExactRule([key]).None? && IsPrefix([key])
    ensures FeedAscii(s.(pending := [key], rawKeys := s.rawKeys + [key]), key, true).0
         == s.(text := s.text + s.InClass("っ"), pending := [key], rawKeys := s.rawKeys + [key] + [key])
  {
    hide ExactRule, IsPrefix;
    var pushed := s.(pending := [key], rawKeys := s.rawKeys + [key] + [key]);
    assert [key] + [key] == [key, key];
    assert Compose(pushed, key) == Absorb(pushed.(text := s.text + s.InClass("っ")), [key], key);
  }

  /** A doubled first consonant adds a small tsu in front of the syllable. */
  lemma TypingADoubledRule(s: State, roman: seq<Key>)
    requires Ready(s) && Letters(roman) && ExactRule(roman).Some? && |roman| >= 2 && IsConsonant(roman[0])
    ensures FeedAll(s, [roman[0]] + roman) == Spelled(s, [roman[0]] + roman, "っ" + ExactRule(roman).value)
  {
    hide ExactRule, IsPrefix, FeedAscii;
    var first := [roman[0]];
    ExactRuleIsGood(roman);
    RuleWaitsThroughout(roman);
    TypingAPrefixWaits(s, roman, 1);
    assert roman[..1] == first;
    DoubledLetterEmitsSokuon(s, roman[0]);
    assert DropLast(first + first) == first && Last(first + first) == roman[0];
    FinishingAfterPrelude(s, first, "っ", roman);
  }

  lemma NBeforeConsonantEmits(s: State, key: Key)
    requires Ready(s) && IsConsonant(key) && key != 'y'
    requires ExactRule([key]).None? && IsPrefix([key])
    ensures FeedAscii(s.(pending := "n", rawKeys := s.rawKeys + ['n']), key, true).0
         == s.(text := s.text + s.InClass("ん"), pending := [key], rawKeys := s.rawKeys + ['n'] + [key])
  {
    hide ExactRule, IsPrefix;
    NoRuleContinuesN(key);
    NConsonantIsNoRule(key);
    var pushed := s.(pending := "n", rawKeys := s.rawKeys + ['n'] + [key]);
    var emitted := pushed.(text := s.text + s.InClass("ん"), pending := "");
    assert "n" + [key] == ['n', key] && "" + [key] == [key];
    assert Compose(pushed, key) == Absorb(pushed, ['n', key], key);
    assert Absorb(pushed, ['n', key], key) == FeedAscii(emitted, key, false);
    assert FeedAscii(emitted, key, false) == Compose(emitted, key) == Absorb(emitted, [key], key);
  }

  lemma TypingNWaits(s: State)
    requires Ready(s)
    ensures FeedAll(s, ['n']) == s.(pending := "n", rawKeys := s.rawKeys + ['n'])
  {
    hide ExactRule, IsPrefix, FeedAscii;
    NWaits();
    assert DropLast(['n']) == [] && "" + ['n'] == "n";
    FeedLowercase(s, 'n');
  }

  lemma TypingNThenAConsonant(s: State, key: Key)
    requires Ready(s) && IsConsonant(key) && key != 'y'
    requires ExactRule([key]).None? && IsPrefix([key])
    ensures FeedAll(s, ['n', key])
         == s.(text := s.text + s.InClass("ん"), pending := [key], rawKeys := s.rawKeys + ['n'] + [key])
  {
    hide ExactRule, IsPrefix, FeedAscii;
    TypingNWaits(s);
    NBeforeConsonantEmits(s, key);
    assert DropLast(['n', key]) == ['n'];
  }

  /** An n in front of a consonant other than n and y is the moraic n. */
  lemma TypingNThenARule(s: State, roman: seq<Key>)
    requires Ready(s) && Letters(roman) && ExactRule(roman).Some? && |roman| >= 2
    requires IsConsonant(roman[0]) && roman[0] != 'y'
    ensures FeedAll(s, ['n'] + roman) == Spelled(s, ['n'] + roman, "ん" + ExactRule(roman).value)
  {
    hide ExactRule, IsPrefix, FeedAscii, FeedAll;
    RuleWaitsThroughout(roman);
    assert roman[..1] == [roman[0]];
    TypingNThenAConsonant(s, roman[0]);
    assert ['n'] + roman[..1] == ['n', roman[0]];
    FinishingAfterPrelude(s, ['n'], "ん", roman);
  }

  /**
    The table's n-apostrophe rule can never fire, in any state. No spelling that is looked up ends in
    an apostrophe, and a typed apostrophe leaves the pending letters and itself as they are; in the two
    latin submodes it is not composed at all.
   */
  lemma ApostropheRuleIsDead(s: State, record: bool, pending: string, lower: Key)
    ensures ExactRule("n'").Some?
    ensures IsLetter(lower) ==> pending + [lower] != "n'"
    ensures var pushed := if record then s.(rawKeys := s.rawKeys + ['\'']) else s;
      FeedAscii(s, '\'', record) ==
      if s.latin then (pushed, None)
      else if s.wideLatin then (pushed.(rawKeys := []), Some(Snapshot(pushed, true).(text := "＇")))
      else Finish(pushed.(preedit := s.preedit || s.continuous, text := s.text + s.pending + "'", pending := ""))
  {
    hide ExactRule, IsPrefix, Absorb;
    ApostropheIsARule();
    if pending + [lower] == "n'" {
      assert (pending + [lower])[|pending|] == lower;
      assert "n'"[1] == '\'' && |pending| == 1;
    }
    assert WideChar('\'') == '＇';
  }

  // ---------------------------------------------------------------------------
  // A preedit never loses its raw-key log.

  predicate Logged(s: State) {
    s.preedit ==> s.Kana() && s.rawKeys != []
  }

  lemma AbsorbStaysLogged(s: State, next: string, lower: Key)
    requires Logged(s) && s.Kana() && next != "" && (|next| > 1 ==> s.pending != "") && IsLetter(lower)
    requires s.continuous ==> s.preedit
    ensures Logged(Absorb(s, next, lower).0)
    decreases |s.pending|, 0
  {
    hide IsPrefix, ExactRule, FeedAscii;
    if ExactRule(next).None? && !IsPrefix(next) && |next| > 1 && next[0] == 'n' {
      FeedStaysLogged(s.(text := s.text + s.InClass("ん"), pending := ""), lower, false);
    }
  }

  lemma ComposeStaysLogged(s: State, key: Key)
    requires Logged(s) && s.Kana() && (s.continuous ==> s.preedit)
    ensures Logged(Compose(s, key).0)
    decreases |s.pending|, 1
  {
    hide Absorb;
    var lower := ToLower(key);
    if IsLetter(lower) {
      if IsDoubled(s.pending + [lower]) {
        AbsorbStaysLogged(s.(text := s.text + s.InClass("っ")), [lower], lower);
      } else {
        AbsorbStaysLogged(s, s.pending + [lower], lower);
      }
    }
  }

  lemma FeedStaysLogged(s: State, key: Key, record: bool)
    requires Logged(s) && (record || s.preedit || (!s.continuous && IsLetter(key)))
    ensures Logged(FeedAscii(s, key, record).0)
    decreases |s.pending|, 2
  {
    hide Compose;
    var t := Open(if record then s.(rawKeys := s.rawKeys + [key]) else s, key);
    if s.Kana() { ComposeStaysLogged(t, key); }
  }

  lemma {:induction false} FeedAllStaysLogged(s: State, keys: seq<Key>)
    requires Logged(s)
    ensures Logged(FeedAll(s, keys))
  {
    hide FeedAscii;
    if keys != [] {
      FeedAllStaysLogged(s, DropLast(keys));
      FeedStaysLogged(FeedAll(s, DropLast(keys)), Last(keys), true);
    }
  }

  lemma BackspaceStaysLogged(s: State)
    requires Logged(s)
    ensures Logged(Backspace(s).0)
  {
    hide FeedAll;
    if s.preedit {
      var log := DropLast(s.rawKeys);
      FeedAllStaysLogged(Reset(s.(rawKeys := log)), log);
    }
  }
}
