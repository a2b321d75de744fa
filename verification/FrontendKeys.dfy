/** Mode keys, punctuation, what is shown, and words from the first key to the commit. */
module FrontendKeys {
  import opened Common
  import opened KanaRules
  import opened Frontend
  import opened FrontendRuns

  // ---------------------------------------------------------------------------
  // The latin submodes.

  /** Neither of the two keys that choose a latin submode. */
  predicate NoLatinSwitch(keys: seq<Key>) {
    forall i :: 0 <= i < |keys| ==> keys[i] != 'l' && keys[i] != 'L'
  }

  /** An l typed where nothing is under way: from then on keys are left to the application. */
  lemma {:induction false} LatinPassesThrough(s: State, keys: seq<Key>, key: Key)
    requires s.Direct() && NoLatinSwitch(keys + [key])
    ensures var (t, shown) := FeedAscii(s, 'l', true);
      && shown == Some(Surface(LatinMode, -1, s.text, ""))
      && FeedAll(t, keys) == t.(rawKeys := keys)
      && FeedAscii(FeedAll(t, keys), key, true).1 == None
    decreases |keys|
  {
    var t := FeedAscii(s, 'l', true).0;
    assert (keys + [key])[|keys|] == key;
    if keys != [] {
      assert NoLatinSwitch(DropLast(keys) + [Last(keys)]) by {
        assert DropLast(keys) + [Last(keys)] == keys;
        assert forall i :: 0 <= i < |keys| ==> keys[i] == (keys + [key])[i];
      }
      LatinPassesThrough(s, DropLast(keys), Last(keys));
      assert DropLast(keys) + [Last(keys)] == keys;
    }
  }

  /** An L typed there: from then on each key shows its full-width form, at once and alone. */
  lemma WideLatinIsFullWidth(s: State, key: Key)
    requires s.Direct() && key != 'l' && key != 'L'
    ensures var (t, shown) := FeedAscii(s, 'L', true); var (u, surface) := FeedAscii(t, key, true);
      && shown == Some(Surface(WideLatinMode, -1, s.text, ""))
      && u == t && surface.Some? && surface.value.mode == WideLatinMode && surface.value.compositionStart == -1
      && |surface.value.text| == 1 && surface.value.pendingRomaji == ""
      && surface.value.text[0] as int == (if key == ' ' then 0x3000 else key as int + 0xfee0)
  {
  }

  /** A q typed there changes the kana class, and nothing else; a second one changes it back. */
  lemma ClassKeyToggles(s: State)
    requires s.Direct() && s.Kana() && s.rawKeys == []
    ensures var (t, shown) := FeedAscii(s, 'q', true);
      && t == s.(katakana := !s.katakana)
      && shown == Some(Surface(if s.katakana then HiraganaMode else KatakanaMode, -1, s.text, ""))
      && FeedAscii(t, 'q', true).0 == s
  {
  }

  /** Back to hiragana from any submode. */
  lemma ToHiraganaLeavesEverySubmode(s: State)
    requires !s.preedit
    ensures var (t, shown) := ToHiragana(s);
      && t.Kana() && !t.katakana && t == s.(text := t.text, latin := false, wideLatin := false, katakana := false)
      && shown.mode == HiraganaMode && shown.compositionStart == -1
  {
  }

  // ---------------------------------------------------------------------------
  // Punctuation, and what is shown.

  /** The code point a key that is no letter leaves in a preedit. */
  function MarkOf(key: Key): nat {
    match key
    case '.' => 0x3002
    case ',' => 0x3001
    case '-' => 0x30fc
    case '[' => 0x300c
    case ']' => 0x300d
    case _ => key as int
  }

  /** In a preedit a key that is no letter leaves its mark behind the pending letters as they are. */
  lemma PunctuationIsJapanese(s: State, key: Key)
    requires s.preedit && s.Kana() && !IsLetter(key) && !IsUpper(key)
    ensures var t := FeedAscii(s, key, true).0;
      && t.pending == "" && t.text != "" && DropLast(t.text) == s.text + s.pending && Last(t.text) as int == MarkOf(key)
      && t.rawKeys == s.rawKeys + [key] && t.preedit && t.okuriStarted == s.okuriStarted
  {
  }

  lemma AbsorbingShows(s: State, next: string, lower: Key)
    requires s.preedit && s.Kana() && next != "" && (|next| > 1 ==> s.pending != "") && IsLetter(lower)
    ensures var (t, shown) := Absorb(s, next, lower);
      t.preedit && t.Kana() && shown == Some(Surface(PreeditMode, 0, "▽" + t.text, t.pending))
    decreases |s.pending|, 0
  {
    hide ExactRule, IsPrefix, FeedAscii;
    if ExactRule(next).None? && !IsPrefix(next) && |next| > 1 && next[0] == 'n' {
      TypingShowsThePreedit(s.(text := s.text + s.InClass("ん"), pending := ""), lower, false);
    }
  }

  /** While a preedit is open every key shows all of it, marked, with the pending letters beside it. */
  lemma TypingShowsThePreedit(s: State, key: Key, record: bool)
    requires s.preedit && s.Kana()
    ensures var (t, shown) := FeedAscii(s, key, record);
      t.preedit && t.Kana() && shown == Some(Surface(PreeditMode, 0, "▽" + t.text, t.pending))
    decreases |s.pending|, 2
  {
    hide Absorb, ExactRule, IsPrefix;
    var pushed := Open(if record then s.(rawKeys := s.rawKeys + [key]) else s, key);
    var lower := ToLower(key);
    assert pushed.pending == s.pending;
    if IsLetter(lower) {
      if IsDoubled(s.pending + [lower]) {
        AbsorbingShows(pushed.(text := pushed.text + pushed.InClass("っ")), [lower], lower);
      } else {
        AbsorbingShows(pushed, s.pending + [lower], lower);
      }
    }
  }

  // ---------------------------------------------------------------------------
  // From the first key to the commit.

  /** The first letter of a preedit, typed with Shift, counts as the letter and opens the preedit. */
  lemma ShiftOpensAPreedit(s: State, key: Key)
    requires s.Direct() && s.Kana() && IsUpper(key) && key != 'L' && key != 'Q'
    ensures FeedAscii(s, key, false) == FeedAscii(s.(preedit := true), (key as int + 32) as char, false)
  {
    hide Absorb;
  }

  /**
    A word typed into an open preedit and committed comes out as what was there before it and its
    reading, in the kana class; the preedit is then gone. Quitting instead shows nothing.
   */
  lemma WordsAreCommitted(s: State, romans: seq<seq<Key>>)
    requires Ready(s) && Word(romans)
    ensures var t := FeedAll(s, Keys(romans)); var mode := if s.katakana then KatakanaMode else HiraganaMode;
      && Commit(t) == (Gone(s), Some(Surface(mode, -1, s.text + s.InClass(Reading(romans)), "")))
      && Quit(t) == (Gone(s), Some(Surface(mode, -1, "", "")))
  {
    hide FeedAll, Keys, Reading, ExactRule, Katakana;
    TypingAWord(s, romans);
    var text := s.text + s.InClass(Reading(romans));
    assert text + "" == text;
  }

  /** Nothing of a preedit is left. */
  function Gone(s: State): State {
    State(false, s.katakana, s.latin, s.wideLatin, false, s.continuous, "", "", [])
  }

  /** A word that ends in an n: the commit completes it. */
  lemma TrailingNIsCompleted(s: State, romans: seq<seq<Key>>)
    requires Ready(s) && Word(romans)
    ensures var t := FeedAscii(FeedAll(s, Keys(romans)), 'n', true).0;
      Commit(t) == (Gone(s), Some(Surface(if s.katakana then KatakanaMode else HiraganaMode, -1,
                                          s.text + s.InClass(Reading(romans)) + s.InClass("ん"), "")))
  {
    hide FeedAll, Keys, Reading, ExactRule, IsPrefix, Katakana;
    TypingAWord(s, romans);
    NWaits();
    var before := FeedAll(s, Keys(romans));
    assert "" + ['n'] == "n";
    assert before.pending + ['n'] == "n";
    FeedLowercase(before, 'n');
  }
}
