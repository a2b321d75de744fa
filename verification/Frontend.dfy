/** The native romaji/preedit transducer: one keystroke turns one state into the next. */
module Frontend {
  import opened Common
  import opened KanaRules

  // A key the front end accepts: printable ASCII.
  type Key = c: char | ' ' <= c <= '~' witness 'a'

  predicate IsUpper(key: char) {
    'A' <= key <= 'Z'
  }

  predicate IsLetter(key: char) {
    'a' <= key <= 'z'
  }

  function ToLower(key: Key): Key {
    if IsUpper(key) then (key as int + 32) as char else key
  }

  predicate IsConsonant(c: char) {
    IsLetter(c) && !IsVowel(c) && c != 'n'
  }

  /** Hiragana to katakana, one character at a time; everything else is kept. */
  function KatakanaChar(c: char): char {
    if IsHiragana(c) then (c as int + 0x60) as char else c
  }

  function HiraganaChar(c: char): char {
    if IsKatakana(c) then (c as int - 0x60) as char else c
  }

  function Katakana(text: string): string {
    seq(|text|, i requires 0 <= i < |text| => KatakanaChar(text[i]))
  }

  function Hiragana(text: string): string {
    seq(|text|, i requires 0 <= i < |text| => HiraganaChar(text[i]))
  }

  /** The katakana literals of the source are the katakana of its hiragana literals. */
  lemma KatakanaLiterals()
    ensures Katakana("っ") == "ッ" && Katakana("ん") == "ン"
  {
  }

  // The mode field of an engine state. Unlisted names come from an engine only.
  datatype Mode =
    | HiraganaMode | KatakanaMode | LatinMode | WideLatinMode | PreeditMode
    | CandidateMode | RegistrationMode | ProviderBusyMode | OtherMode(name: string)

  /** The part of an engine state the front end fills in. */
  datatype Surface = Surface(mode: Mode, compositionStart: int, text: string, pendingRomaji: string)

  datatype State = State(
    preedit: bool, katakana: bool, latin: bool, wideLatin: bool,
    okuriStarted: bool, continuous: bool,
    text: string, pending: string, rawKeys: seq<Key>)
  {
    predicate Composing() {
      preedit || pending != ""
    }

    /** In the kana submodes, neither latin nor wide-latin. */
    predicate Kana() {
      !latin && !wideLatin
    }

    /** Nothing is typed yet and no preedit runs: where mode keys are commands. */
    predicate Direct() {
      !continuous && !preedit && pending == ""
    }

    /** A kana literal in the current kana class. */
    function InClass(kana: string): string {
      if katakana then Katakana(kana) else kana
    }
  }

  // ---------------------------------------------------------------------------
  // The transitions, branch by branch.

  function Snapshot(s: State, terminal: bool): Surface {
    var open := s.preedit && !terminal;
    Surface(
      if open then PreeditMode
      else if s.latin then LatinMode
      else if s.wideLatin then WideLatinMode
      else if s.katakana then KatakanaMode else HiraganaMode,
      if open then 0 else -1,
      if open then "▽" + s.text else s.text,
      s.pending)
  }

  function Reset(s: State): State {
    s.(preedit := false, okuriStarted := false, text := "", pending := "", rawKeys := [])
  }

  function WideChar(key: Key): char {
    if key == ' ' then '　' else (key as int + 0xfee0) as char
  }

  /** The preedit flag and the okurigana star, decided before the key is composed. */
  function Open(s: State, key: Key): State {
    if s.continuous && !s.preedit then s.(preedit := true)
    else if IsUpper(key) && !s.preedit then s.(preedit := true)
    else if !s.continuous && IsUpper(key) && s.preedit && !s.okuriStarted && s.text != "" then
      s.(text := s.text + "*", okuriStarted := true)
    else s
  }

  function Punctuation(key: Key): char {
    match key
    case '.' => '。'
    case ',' => '、'
    case '-' => 'ー'
    case '[' => '「'
    case ']' => '」'
    case _ => key
  }

  /** Emitted at once outside preedit: text that needs no more keys leaves the front end. */
  function Finish(s: State): (State, Option<Surface>) {
    (if !s.preedit && s.pending == "" then s.(text := "", rawKeys := []) else s,
     Some(Snapshot(s, false)))
  }

  predicate IsDoubled(next: string) {
    |next| == 2 && next[0] == next[1] && IsConsonant(next[0])
  }

  /** The romaji letters `next` looked up in the table; `lower` is the letter just typed. */
  function Absorb(s: State, next: string, lower: Key): (State, Option<Surface>)
    requires next != "" && (|next| > 1 ==> s.pending != "")
    decreases |s.pending|, 0
  {
    if ExactRule(next).Some? then
      Finish(s.(text := s.text + s.InClass(ExactRule(next).value), pending := ""))
    else if IsPrefix(next) then
      Finish(s.(pending := next))
    else if |next| > 1 && next[0] == 'n' then
      FeedAscii(s.(text := s.text + s.InClass("ん"), pending := ""), lower, false)
    else
      Finish(s.(text := s.text + [next[0]], pending := next[1..]))
  }

  function Compose(s: State, key: Key): (State, Option<Surface>)
    decreases |s.pending|, 1
  {
    var lower := ToLower(key);
    if !IsLetter(lower) then
      Finish(s.(text := s.text + s.pending + [Punctuation(key)], pending := ""))
    else if IsDoubled(s.pending + [lower]) then
      Absorb(s.(text := s.text + s.InClass("っ")), [lower], lower)
    else
      Absorb(s, s.pending + [lower], lower)
  }

  function FeedAscii(s0: State, key: Key, record: bool): (State, Option<Surface>)
    decreases |s0.pending|, 2
  {
    var s := if record then s0.(rawKeys := s0.rawKeys + [key]) else s0;
    if s.Direct() && key == 'L' then
      var t := s.(wideLatin := true, latin := false, rawKeys := []);
      (t, Some(Snapshot(t, false)))
    else if s.Direct() && key == 'l' then
      var t := s.(latin := true, wideLatin := false, rawKeys := []);
      (t, Some(Snapshot(t, false)))
    else if s.latin then (s, None)
    else if s.wideLatin then
      (s.(rawKeys := []), Some(Snapshot(s, true).(text := [WideChar(key)])))
    else if s.Direct() && (key == 'q' || key == 'Q') then
      var t := s.(katakana := !s.katakana, rawKeys := if record then [] else s.rawKeys);
      (t, Some(Snapshot(t, false)))
    else
      Compose(Open(s, key), key)
  }

  function Feed(s: State, key: char): (State, Option<Surface>) {
    if ' ' <= key <= '~' then FeedAscii(s, key, true) else (s, None)
  }

  /** Feeding keys one after the other. */
  function FeedAll(s: State, keys: seq<Key>): State {
    if keys == [] then s else FeedAscii(FeedAll(s, DropLast(keys)), Last(keys), true).0
  }

  /** Forget everything but the raw-key log and type the log again. */
  function Rebuild(s: State): State {
    FeedAll(Reset(s), s.rawKeys)
  }

  function Backspace(s: State): (State, Option<Surface>)
  {
    if !s.Composing() || s.rawKeys == [] then (s, None)
    else
      var popped := s.(rawKeys := DropLast(s.rawKeys));
      if s.preedit then
        var rebuilt := Rebuild(popped);
        var t := if rebuilt.rawKeys == [] then Reset(rebuilt) else rebuilt;
        (t, Some(Snapshot(t, false)))
      else
        var t := if s.pending != "" then popped.(pending := DropLast(s.pending)) else popped;
        (t, Some(Snapshot(t, false)))
  }

  function Commit(s: State): (State, Option<Surface>) {
    if !s.Composing() then (s, None)
    else
      var tail := if s.pending == "n" then s.InClass("ん") else s.pending;
      var t := s.(text := s.text + tail, pending := "");
      (Reset(t), Some(Snapshot(t, true)))
  }

  function Quit(s: State): (State, Option<Surface>) {
    if !s.Composing() then (s, None)
    else (Reset(s), Some(Surface(if s.katakana then KatakanaMode else HiraganaMode, -1, "", "")))
  }

  function ToKatakana(s: State): (State, Option<Surface>) {
    if !s.preedit then (s, None)
    else
      var t := s.(text := Katakana(s.text), katakana := true);
      (t, Some(Snapshot(t, false)))
  }

  function CommitKatakana(s: State): (State, Option<Surface>) {
    if !s.preedit then (s, None)
    else
      var tail := if s.pending == "n" then "ん" else s.pending;
      var t := s.(text := Katakana(s.text + tail), pending := "");
      (Reset(t), Some(Snapshot(t, true)))
  }

  function ToHiragana(s: State): (State, Surface) {
    var text := if s.preedit then Katakana(s.text) else s.text;
    var t := s.(text := Hiragana(text), katakana := false, latin := false, wideLatin := false);
    (t, Snapshot(t, false))
  }
}
