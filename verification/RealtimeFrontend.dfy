/** The front end as the object the text service owns; every method refines a Frontend transition. */
module RealtimeFrontendObject {
  import opened Common
  import opened KanaRules
  import F = Frontend

  /** The small tsu a doubled consonant becomes, in either kana class. */
  lemma SmallTsu(s: F.State)
    ensures s.InClass("っ") == if s.katakana then "ッ" else "っ"
  {
    F.KatakanaLiterals();
  }

  /** Composing a punctuation mark, a doubled letter, or any other letter. */
  lemma ComposeByCase(s: F.State, key: F.Key)
    ensures var lower := F.ToLower(key); var next := s.pending + [lower];
      F.Compose(s, key) ==
      if !F.IsLetter(lower) then F.Finish(s.(text := s.text + s.pending + [F.Punctuation(key)], pending := ""))
      else if |next| == 2 && next[0] == next[1] && F.IsConsonant(next[0]) then
        F.Absorb(s.(text := s.text + if s.katakana then "ッ" else "っ"), [lower], lower)
      else F.Absorb(s, next, lower)
  {
    hide F.Absorb, F.Finish, F.Punctuation, F.Katakana;
    SmallTsu(s);
  }

  class RealtimeFrontend {
    var preedit: bool
    var katakana: bool
    var latin: bool
    var wideLatin: bool
    var okuriStarted: bool
    var continuousPreedit: bool
    var text: string
    var pending: string
    var rawKeys: seq<F.Key>

    /** The object's value: one state of the transducer. */
    function View(): F.State
      reads this
    {
      F.State(preedit, katakana, latin, wideLatin, okuriStarted, continuousPreedit, text, pending, rawKeys)
    }

    constructor ()
      ensures View() == F.State(false, false, false, false, false, false, "", "", [])
    {
      preedit, katakana, latin, wideLatin := false, false, false, false;
      okuriStarted, continuousPreedit := false, false;
      text, pending, rawKeys := "", "", [];
    }

    method SetContinuousPreedit(enabled: bool)
      modifies this
      ensures View() == old(View()).(continuous := enabled)
    {
      continuousPreedit := enabled;
    }

    method Reset()
      modifies this
      ensures View() == F.Reset(old(View()))
    {
      preedit := false;
      okuriStarted := false;
      text := "";
      pending := "";
      rawKeys := [];
    }

    static method ToKatakanaText(source: string) returns (result: string)
      ensures result == F.Katakana(source)
    {
      result := source;
      for i := 0 to |source|
        invariant |result| == |source|
        invariant forall k :: 0 <= k < i ==> result[k] == F.KatakanaChar(source[k])
        invariant forall k :: i <= k < |source| ==> result[k] == source[k]
      {
        if 'ぁ' <= result[i] <= 'ゖ' {
          result := result[i := (result[i] as int + 0x60) as char];
        }
      }
    }

    method Feed(key: char) returns (out: Option<F.Surface>)
      modifies this
      ensures View() == F.Feed(old(View()), key).0 && out == F.Feed(old(View()), key).1
    {
      if !(' ' <= key <= '~') { return None; }
      out := FeedAscii(key, true);
    }

    /** A key may open the preedit, or begin the okurigana of an open one. */
    method OpenPreedit(key: F.Key)
      modifies this`preedit, this`text, this`okuriStarted
      ensures View() == F.Open(old(View()), key)
    {
      hide F.IsUpper;
      if continuousPreedit && !preedit {
        preedit := true;
      } else if F.IsUpper(key) && !preedit {
        preedit := true;
      } else if !continuousPreedit && F.IsUpper(key) && preedit && !okuriStarted && text != "" {
        text := text + "*";
        okuriStarted := true;
      }
    }

    method FeedAscii(key: F.Key, record: bool) returns (out: Option<F.Surface>)
      modifies this
      ensures View() == F.FeedAscii(old(View()), key, record).0
      ensures out == F.FeedAscii(old(View()), key, record).1
      decreases |pending|, 2
    {
      hide F.Compose, F.Snapshot, F.WideChar, F.Open;
      if record { rawKeys := rawKeys + [key]; }
      var direct := !continuousPreedit && !preedit && pending == "";
      if direct && key == 'L' {
        wideLatin := true;
        latin := false;
        rawKeys := [];
        return Some(F.Snapshot(View(), false));
      }
      if direct && key == 'l' {
        latin := true;
        wideLatin := false;
        rawKeys := [];
        return Some(F.Snapshot(View(), false));
      }
      if latin { return None; }
      if wideLatin {
        var state := F.Snapshot(View(), true);
        rawKeys := [];
        return Some(state.(text := [F.WideChar(key)]));
      }
      if direct && (key == 'q' || key == 'Q') {
        katakana := !katakana;
        if record { rawKeys := []; }
        return Some(F.Snapshot(View(), false));
      }
      OpenPreedit(key);
      out := Compose(key);
    }

    /** The letters still pending become text as they are. */
    method TakePending()
      modifies this`text, this`pending
      ensures text == old(text) + old(pending) && pending == ""
    {
      if pending != "" {
        text := text + pending;
        pending := "";
      }
    }

    method Compose(key: F.Key) returns (out: Option<F.Surface>)
      modifies this
      ensures View() == F.Compose(old(View()), key).0 && out == F.Compose(old(View()), key).1
      decreases |pending|, 1
    {
      hide F.Compose, F.Absorb, F.Finish, F.IsConsonant, F.Punctuation, F.ToLower, F.IsLetter;
      ComposeByCase(View(), key);
      var lower := F.ToLower(key);
      if !F.IsLetter(lower) {
        TakePending();
        text := text + [F.Punctuation(key)];
        out := Finish();
      } else {
        var next := pending + [lower];
        if |next| == 2 && next[0] == next[1] && F.IsConsonant(next[0]) {
          text := text + (if katakana then "ッ" else "っ");
          next := next[1..];
          assert next == [lower];
        }
        out := Absorb(next, lower);
      }
    }

    method Absorb(next: string, lower: F.Key) returns (out: Option<F.Surface>)
      requires next != "" && (|next| > 1 ==> pending != "")
      modifies this
      ensures View() == F.Absorb(old(View()), next, lower).0 && out == F.Absorb(old(View()), next, lower).1
      decreases |pending|, 0
    {
      hide ExactRule, IsPrefix, F.FeedAscii;
      var exact := ExactRule(next);
      if exact.Some? {
        if katakana {
          var kana := ToKatakanaText(exact.value);
          text := text + kana;
        } else {
          text := text + exact.value;
        }
        pending := "";
      } else if IsPrefix(next) {
        pending := next;
      } else if |next| > 1 && next[0] == 'n' {
        F.KatakanaLiterals();
        text := text + (if katakana then "ン" else "ん");
        pending := "";
        out := FeedAscii(lower, false);
        return;
      } else {
        text := text + [next[0]];
        pending := next[1..];
      }
      out := Finish();
    }

    method Finish() returns (out: Option<F.Surface>)
      modifies this
      ensures View() == F.Finish(old(View())).0 && out == F.Finish(old(View())).1
    {
      out := Some(F.Snapshot(View(), false));
      if !preedit && pending == "" {
        text := "";
        rawKeys := [];
      }
    }

    method RebuildPreedit()
      modifies this
      ensures View() == F.Rebuild(old(View()))
    {
      hide F.FeedAscii;
      var keys := rawKeys;
      ghost var start := F.Reset(View());
      preedit := false;
      okuriStarted := false;
      text := "";
      pending := "";
      rawKeys := [];
      for i := 0 to |keys|
        invariant View() == F.FeedAll(start, keys[..i])
      {
        var _ := FeedAscii(keys[i], true);
        assert DropLast(keys[..i + 1]) == keys[..i] && Last(keys[..i + 1]) == keys[i];
      }
      assert keys[..|keys|] == keys;
    }

    method Backspace() returns (out: Option<F.Surface>)
      modifies this
      ensures View() == F.Backspace(old(View())).0 && out == F.Backspace(old(View())).1
    {
      hide F.Rebuild;
      if !(preedit || pending != "") || rawKeys == [] { return None; }
      rawKeys := rawKeys[..|rawKeys| - 1];
      if preedit {
        RebuildPreedit();
        if rawKeys == [] { Reset(); }
        return Some(F.Snapshot(View(), false));
      }
      if pending != "" { pending := pending[..|pending| - 1]; }
      return Some(F.Snapshot(View(), false));
    }

    method Commit() returns (out: Option<F.Surface>)
      modifies this
      ensures View() == F.Commit(old(View())).0 && out == F.Commit(old(View())).1
    {
      if !(preedit || pending != "") { return None; }
      F.KatakanaLiterals();
      if pending == "n" {
        text := text + (if katakana then "ン" else "ん");
      } else {
        text := text + pending;
      }
      pending := "";
      out := Some(F.Snapshot(View(), true));
      Reset();
    }

    method Quit() returns (out: Option<F.Surface>)
      modifies this
      ensures View() == F.Quit(old(View())).0 && out == F.Quit(old(View())).1
    {
      if !(preedit || pending != "") { return None; }
      out := Some(F.Surface(if katakana then F.KatakanaMode else F.HiraganaMode, -1, "", ""));
      Reset();
    }

    method ToKatakana() returns (out: Option<F.Surface>)
      modifies this
      ensures View() == F.ToKatakana(old(View())).0 && out == F.ToKatakana(old(View())).1
    {
      if !preedit { return None; }
      text := ToKatakanaText(text);
      katakana := true;
      return Some(F.Snapshot(View(), false));
    }

    method CommitKatakana() returns (out: Option<F.Surface>)
      modifies this
      ensures View() == F.CommitKatakana(old(View())).0 && out == F.CommitKatakana(old(View())).1
    {
      if !preedit { return None; }
      if pending == "n" {
        text := text + "ん";
      } else {
        text := text + pending;
      }
      pending := "";
      text := ToKatakanaText(text);
      out := Some(F.Snapshot(View(), true));
      Reset();
    }

    method ToHiragana() returns (out: F.Surface)
      modifies this
      ensures View() == F.ToHiragana(old(View())).0 && out == F.ToHiragana(old(View())).1
    {
      if preedit { text := ToKatakanaText(text); }
      var shown := text;
      for i := 0 to |shown|
        invariant |text| == |shown|
        invariant View() == old(View()).(text := text)
        invariant forall k :: 0 <= k < i ==> text[k] == F.HiraganaChar(shown[k])
        invariant forall k :: i <= k < |shown| ==> text[k] == shown[k]
      {
        if 'ァ' <= text[i] <= 'ヶ' {
          text := text[i := (text[i] as int - 0x60) as char];
        }
      }
      assert text == F.Hiragana(shown);
      katakana := false;
      latin := false;
      wideLatin := false;
      out := F.Snapshot(View(), false);
    }
  }
}
