/** The romaji table of the native front end: exact rules, prefixes, kana classes. */
module KanaRules {
  import opened Common

  // A romaji spelling and the hiragana it produces.
  type Rule = (string, string)

  const VOWEL_ROW: seq<Rule> := [
    ("a", "あ"), ("i", "い"), ("u", "う"), ("e", "え"), ("o", "お")]
  const K_ROW: seq<Rule> := [
    ("ka", "か"), ("ki", "き"), ("ku", "く"), ("ke", "け"), ("ko", "こ"), ("kya", "きゃ"),
    ("kyu", "きゅ"), ("kyo", "きょ")]
  const S_ROW: seq<Rule> := [
    ("sa", "さ"), ("shi", "し"), ("si", "し"), ("su", "す"), ("se", "せ"), ("so", "そ")]
  const SH_ROW: seq<Rule> := [
    ("sha", "しゃ"), ("shu", "しゅ"), ("sho", "しょ"), ("sya", "しゃ"), ("syu", "しゅ"), ("syo", "しょ")]
  const T_ROW: seq<Rule> := [
    ("ta", "た"), ("chi", "ち"), ("ti", "ち"), ("tsu", "つ"), ("tu", "つ"), ("te", "て"),
    ("to", "と"), ("cha", "ちゃ"), ("chu", "ちゅ"), ("cho", "ちょ")]
  const N_ROW: seq<Rule> := [
    ("na", "な"), ("ni", "に"), ("nu", "ぬ"), ("ne", "ね"), ("no", "の"), ("nya", "にゃ"),
    ("nyu", "にゅ"), ("nyo", "にょ")]
  const H_ROW: seq<Rule> := [
    ("ha", "は"), ("hi", "ひ"), ("fu", "ふ"), ("hu", "ふ"), ("he", "へ"), ("ho", "ほ"),
    ("hya", "ひゃ"), ("hyu", "ひゅ"), ("hyo", "ひょ")]
  const M_ROW: seq<Rule> := [
    ("ma", "ま"), ("mi", "み"), ("mu", "む"), ("me", "め"), ("mo", "も"), ("mya", "みゃ"),
    ("myu", "みゅ"), ("myo", "みょ")]
  const YRW_ROW: seq<Rule> := [
    ("ya", "や"), ("yu", "ゆ"), ("yo", "よ"), ("ra", "ら"), ("ri", "り"), ("ru", "る"),
    ("re", "れ"), ("ro", "ろ"), ("rya", "りゃ"), ("ryu", "りゅ"), ("ryo", "りょ"), ("wa", "わ"),
    ("wo", "を")]
  const G_ROW: seq<Rule> := [
    ("ga", "が"), ("gi", "ぎ"), ("gu", "ぐ"), ("ge", "げ"), ("go", "ご"), ("gya", "ぎゃ"),
    ("gyu", "ぎゅ"), ("gyo", "ぎょ")]
  const Z_ROW: seq<Rule> := [
    ("za", "ざ"), ("ji", "じ"), ("zi", "じ"), ("zu", "ず"), ("ze", "ぜ"), ("zo", "ぞ"),
    ("ja", "じゃ"), ("ju", "じゅ"), ("jo", "じょ")]
  const D_ROW: seq<Rule> := [
    ("da", "だ"), ("di", "ぢ"), ("du", "づ"), ("de", "で"), ("do", "ど")]
  const B_ROW: seq<Rule> := [
    ("ba", "ば"), ("bi", "び"), ("bu", "ぶ"), ("be", "べ"), ("bo", "ぼ"), ("bya", "びゃ"),
    ("byu", "びゅ"), ("byo", "びょ")]
  const P_ROW: seq<Rule> := [
    ("pa", "ぱ"), ("pi", "ぴ"), ("pu", "ぷ"), ("pe", "ぺ"), ("po", "ぽ"), ("pya", "ぴゃ"),
    ("pyu", "ぴゅ"), ("pyo", "ぴょ")]
  const FV_ROW: seq<Rule> := [
    ("fa", "ふぁ"), ("fi", "ふぃ"), ("fe", "ふぇ"), ("fo", "ふぉ"), ("va", "ゔぁ"), ("vi", "ゔぃ"),
    ("vu", "ゔ"), ("ve", "ゔぇ"), ("vo", "ゔぉ")]
  const X_ROW: seq<Rule> := [
    ("xa", "ぁ"), ("xi", "ぃ"), ("xu", "ぅ"), ("xe", "ぇ"), ("xo", "ぉ"), ("xya", "ゃ"),
    ("xyu", "ゅ"), ("xyo", "ょ"), ("xtu", "っ"), ("ltsu", "っ")]
  const NN_ROW: seq<Rule> := [
    ("nn", "ん"), ("n'", "ん")]

  const ROWS: seq<seq<Rule>> := [
    VOWEL_ROW, K_ROW, S_ROW, SH_ROW, T_ROW, N_ROW, H_ROW, M_ROW, YRW_ROW,
    G_ROW, Z_ROW, D_ROW, B_ROW, P_ROW, FV_ROW, X_ROW, NN_ROW]

  /** First rule spelled exactly `roman` in one row. */
  function FindInRow(row: seq<Rule>, roman: string): Option<string> {
    if row == [] then None
    else if row[0].0 == roman then Some(row[0].1)
    else FindInRow(row[1..], roman)
  }

  function FindInRows(rows: seq<seq<Rule>>, roman: string): Option<string> {
    if rows == [] then None
    else if FindInRow(rows[0], roman).Some? then FindInRow(rows[0], roman)
    else FindInRows(rows[1..], roman)
  }

  /** Kana of the rule spelled exactly `roman`. */
  function ExactRule(roman: string): Option<string> {
    FindInRows(ROWS, roman)
  }

  /** The lookup finds a rule exactly when one is spelled that way, and returns its kana. */
  lemma {:induction false} FindInRowFinds(row: seq<Rule>, roman: string)
    ensures FindInRow(row, roman).Some? <==> exists j :: 0 <= j < |row| && row[j].0 == roman
    ensures FindInRow(row, roman).Some? ==>
      exists j :: 0 <= j < |row| && row[j] == (roman, FindInRow(row, roman).value)
  {
    if row != [] {
      FindInRowFinds(row[1..], roman);
      assert forall j :: 0 <= j < |row| - 1 ==> row[1..][j] == row[j + 1];
      assert row[0].0 == roman ==> row[0] == (roman, row[0].1);
    }
  }

  lemma {:induction false} FindInRowsFinds(rows: seq<seq<Rule>>, roman: string)
    ensures FindInRows(rows, roman).Some? <==>
      exists i, j :: 0 <= i < |rows| && 0 <= j < |rows[i]| && rows[i][j].0 == roman
    ensures FindInRows(rows, roman).Some? ==>
      exists i, j :: 0 <= i < |rows| && 0 <= j < |rows[i]| && rows[i][j] == (roman, FindInRows(rows, roman).value)
  {
    if rows != [] {
      FindInRowFinds(rows[0], roman);
      FindInRowsFinds(rows[1..], roman);
      assert forall i :: 0 <= i < |rows| - 1 ==> rows[1..][i] == rows[i + 1];
    }
  }

  /** A spelling that some rule extends (or equals); the empty spelling counts. */
  predicate IsPrefix(roman: string) {
    roman == "" || exists i, j :: 0 <= i < |ROWS| && 0 <= j < |ROWS[i]| && roman <= ROWS[i][j].0
  }

  predicate IsHiragana(c: char) {
    'ぁ' <= c <= 'ゖ'
  }

  predicate IsKatakana(c: char) {
    'ァ' <= c <= 'ヶ'
  }

  predicate IsVowel(c: char) {
    c == 'a' || c == 'i' || c == 'u' || c == 'e' || c == 'o'
  }

  predicate AllHiragana(s: string) {
    forall k :: 0 <= k < |s| ==> IsHiragana(s[k])
  }

  /** Consonants, then one final vowel; the two spellings of the moraic n are the exceptions. */
  predicate WellSpelled(roman: string)
    requires roman != ""
  {
    && (|roman| >= 2 ==> !IsVowel(roman[0]))
    && (|roman| >= 3 ==> !IsVowel(roman[1]))
    && (|roman| >= 4 ==> !IsVowel(roman[2]))
    && (IsVowel(Last(roman)) || roman == "nn" || roman == "n'")
    && (|roman| >= 3 && roman[0] == 'n' ==> roman[1] == 'y')
    && (|roman| >= 2 && roman[0] == roman[1] ==> roman == "nn")
  }

  /** What the proofs need from each rule. */
  predicate GoodRule(r: Rule) {
    && 1 <= |r.1| <= |r.0| <= 4
    && AllHiragana(r.1)
    && WellSpelled(r.0)
  }

  predicate GoodRow(row: seq<Rule>) {
    forall j :: 0 <= j < |row| ==> GoodRule(row[j])
  }

  lemma VowelKRowsAreGood()
    ensures GoodRow(VOWEL_ROW) && GoodRow(K_ROW)
  {
  }

  lemma SShRowsAreGood()
    ensures GoodRow(S_ROW) && GoodRow(SH_ROW)
  {
  }

  lemma TNRowsAreGood()
    ensures GoodRow(T_ROW) && GoodRow(N_ROW)
  {
  }

  lemma HMRowsAreGood()
    ensures GoodRow(H_ROW) && GoodRow(M_ROW)
  {
  }

  lemma YrwGRowsAreGood()
    ensures GoodRow(YRW_ROW) && GoodRow(G_ROW)
  {
  }

  lemma ZDRowsAreGood()
    ensures GoodRow(Z_ROW) && GoodRow(D_ROW)
  {
  }

  lemma BPRowsAreGood()
    ensures GoodRow(B_ROW) && GoodRow(P_ROW)
  {
  }

  lemma FvXRowsAreGood()
    ensures GoodRow(FV_ROW) && GoodRow(X_ROW)
  {
  }

  lemma NnRowIsGood()
    ensures GoodRow(NN_ROW)
  {
  }

  lemma RowsAreGood()
    ensures forall i :: 0 <= i < |ROWS| ==> GoodRow(ROWS[i])
  {
    VowelKRowsAreGood();
    SShRowsAreGood();
    TNRowsAreGood();
    HMRowsAreGood();
    YrwGRowsAreGood();
    ZDRowsAreGood();
    BPRowsAreGood();
    FvXRowsAreGood();
    NnRowIsGood();
  }

  /** An exact rule spells at least as many letters as it emits kana, and only hiragana. */
  lemma ExactRuleIsGood(roman: string)
    ensures ExactRule(roman).Some? ==> GoodRule((roman, ExactRule(roman).value))
  {
    RowsAreGood();
    hide ROWS;
    FindInRowsFinds(ROWS, roman);
  }

  /** A prefix that is not itself a rule has at most three letters. */
  lemma PrefixIsShort(roman: string)
    requires IsPrefix(roman) && ExactRule(roman).None?
    ensures |roman| <= 3
  {
    if roman != "" {
      RowsAreGood();
      FindInRowsFinds(ROWS, roman);
      hide ROWS;
      var i, j :| 0 <= i < |ROWS| && 0 <= j < |ROWS[i]| && roman <= ROWS[i][j].0;
      assert GoodRow(ROWS[i]) && GoodRule(ROWS[i][j]);
      assert roman != ROWS[i][j].0;
    }
  }

  lemma ProperPrefixIsPrefix(roman: string, k: nat)
    requires ExactRule(roman).Some? && k < |roman|
    ensures IsPrefix(roman[..k])
  {
    hide ROWS;
    FindInRowsFinds(ROWS, roman);
    var i, j :| 0 <= i < |ROWS| && 0 <= j < |ROWS[i]| && ROWS[i][j] == (roman, ExactRule(roman).value);
    assert roman[..k] <= ROWS[i][j].0;
  }

  lemma NoSpellingExtendsAnother(roman: string, k: nat)
    requires roman != "" && WellSpelled(roman) && |roman| <= 4 && 1 <= k < |roman|
    ensures !WellSpelled(roman[..k])
  {
    assert Last(roman[..k]) == roman[k - 1];
    assert |roman| >= 3 && k == 2 && roman[0] == 'n' ==> roman[..k][1] == 'y';
  }

  lemma ProperPrefixIsNoRule(roman: string, k: nat)
    requires ExactRule(roman).Some? && 1 <= k < |roman|
    ensures ExactRule(roman[..k]).None?
  {
    hide ExactRule;
    ExactRuleIsGood(roman);
    ExactRuleIsGood(roman[..k]);
    NoSpellingExtendsAnother(roman, k);
  }

  /** After n, a consonant other than y and n starts a new syllable. */
  lemma NoRuleContinuesN(c: char)
    requires !IsVowel(c) && c != 'n' && c != 'y' && c != '\''
    ensures !IsPrefix(['n', c])
  {
    RowsAreGood();
    hide ROWS;
    forall i, j | 0 <= i < |ROWS| && 0 <= j < |ROWS[i]|
      ensures !(['n', c] <= ROWS[i][j].0)
    {
      assert GoodRow(ROWS[i]) && GoodRule(ROWS[i][j]);
    }
  }

  lemma KWaits()
    ensures ExactRule("k").None? && IsPrefix("k")
  {
    ExactRuleIsGood("k");
    assert "k" <= ROWS[1][0].0;
  }

  lemma NIsAPrefix()
    ensures IsPrefix("n")
  {
    assert ROWS[5] == N_ROW;
    assert "n" <= N_ROW[0].0;
  }

  lemma NWaits()
    ensures ExactRule("n").None? && IsPrefix("n")
  {
    hide ExactRule, IsPrefix;
    ExactRuleIsGood("n");
    NIsAPrefix();
  }

  lemma NConsonantIsNoRule(c: char)
    requires !IsVowel(c) && c != 'n' && c != '\''
    ensures ExactRule(['n', c]).None?
  {
    hide ExactRule;
    ExactRuleIsGood(['n', c]);
    assert Last(['n', c]) == c;
    assert ['n', c] != "nn" && ['n', c] != "n'" by {
      assert ['n', c][1] == c;
    }
  }

  lemma ApostropheIsARule()
    ensures ExactRule("n'").Some?
  {
    assert ROWS[16][1].0 == "n'";
    FindInRowsFinds(ROWS, "n'");
  }
}
