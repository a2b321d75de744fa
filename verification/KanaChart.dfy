/** The romaji table agrees with the order of the kana in Unicode. */
module KanaChart {
  import opened Common
  import opened KanaRules

  /** A vowel's place in the order a, i, u, e, o. */
  function Place(vowel: char): nat {
    match vowel
    case 'a' => 0
    case 'i' => 1
    case 'u' => 2
    case 'e' => 3
    case _ => 4
  }

  // Every column of the chart runs through the vowels in steps of one, two or three; voicing adds one
  // to a code point, the half-voiced mark two, and the small tsu takes a place before tsu.
  function Column(consonant: char, place: nat): nat
    decreases if consonant in {'g', 'z', 'd', 'b', 'p'} then 1 else 0
  {
    match consonant
    case 'k' => 0x304b + 2 * place
    case 'g' => Column('k', place) + 1
    case 's' => 0x3055 + 2 * place
    case 'z' => Column('s', place) + 1
    case 't' => 0x305f + 2 * place + (if place >= 2 then 1 else 0)
    case 'd' => Column('t', place) + 1
    case 'n' => 0x306a + place
    case 'h' => 0x306f + 3 * place
    case 'b' => Column('h', place) + 1
    case 'p' => Column('h', place) + 2
    case 'm' => 0x307e + place
    case 'y' => 0x3084 + place
    case 'r' => 0x3089 + place
    case 'w' => 0x308f + (if place == 4 then 3 else 0)
    case 'x' => 0x3041 + 2 * place
    case _ => 0x3042 + 2 * place
  }

  predicate IsOne(kana: string, code: nat) {
    |kana| == 1 && kana[0] as int == code
  }

  predicate AreTwo(kana: string, first: nat, second: nat) {
    |kana| == 2 && kana[0] as int == first && kana[1] as int == second
  }

  /** A kana, followed by the small one of this vowel unless the kana has the vowel itself. */
  predicate Glides(kana: string, code: nat, own: nat, small: nat, place: nat) {
    if place == own then IsOne(kana, code) else AreTwo(kana, code, small + (if small == SMALL_A then 2 else 1) * place)
  }

  const SMALL_A := 0x3041
  const SMALL_YA := 0x3083
  const SMALL_TSU := 0x3063
  const VU := 0x3094
  const NN := 0x3093

  /** The kana a two-letter spelling stands for. */
  predicate PairCharted(c: char, vowel: char, kana: string) {
    var v := Place(vowel);
    match c
    case 'n' => IsOne(kana, if IsVowel(vowel) then Column('n', v) else NN)
    case 'f' => Glides(kana, Column('h', 2), 2, SMALL_A, v)
    case 'v' => Glides(kana, VU, 2, SMALL_A, v)
    case 'j' => Glides(kana, Column('z', 1), 1, SMALL_YA, v)
    case _ => IsOne(kana, Column(c, v))
  }

  /** Three letters: a glide, sh and ch, or tsu. */
  predicate TripleCharted(c: char, middle: char, vowel: char, kana: string) {
    var v := Place(vowel);
    match middle
    case 'y' => if c == 'x' then IsOne(kana, SMALL_YA + v) else AreTwo(kana, Column(c, 1), SMALL_YA + v)
    case 'h' => Glides(kana, Column(if c == 's' then 's' else 't', 1), 1, SMALL_YA, v)
    case 't' => IsOne(kana, SMALL_TSU)
    case _ => IsOne(kana, Column('t', 2))
  }

  /** The spelling gives the kana of its column and vowel; glides end in a small kana. */
  predicate Charted(r: Rule) {
    match |r.0|
    case 1 => IsOne(r.1, Column(' ', Place(r.0[0])))
    case 2 => PairCharted(r.0[0], r.0[1], r.1)
    case 3 => TripleCharted(r.0[0], r.0[1], r.0[2], r.1)
    case _ => IsOne(r.1, SMALL_TSU)
  }

  predicate ChartedRow(row: seq<Rule>) {
    forall j :: 0 <= j < |row| ==> Charted(row[j])
  }

  lemma VowelRowIsCharted()
    ensures ChartedRow(VOWEL_ROW)
  {
  }

  lemma KRowIsCharted()
    ensures ChartedRow(K_ROW)
  {
  }

  lemma SRowIsCharted()
    ensures ChartedRow(S_ROW)
  {
  }

  lemma ShRowIsCharted()
    ensures ChartedRow(SH_ROW)
  {
  }

  lemma TRowIsCharted()
    ensures ChartedRow(T_ROW)
  {
  }

  lemma NRowIsCharted()
    ensures ChartedRow(N_ROW)
  {
  }

  lemma HRowIsCharted()
    ensures ChartedRow(H_ROW)
  {
  }

  lemma MRowIsCharted()
    ensures ChartedRow(M_ROW)
  {
  }

  lemma YrwRowIsCharted()
    ensures ChartedRow(YRW_ROW)
  {
  }

  lemma GRowIsCharted()
    ensures ChartedRow(G_ROW)
  {
  }

  lemma ZRowIsCharted()
    ensures ChartedRow(Z_ROW)
  {
  }

  lemma DRowIsCharted()
    ensures ChartedRow(D_ROW)
  {
  }

  lemma BRowIsCharted()
    ensures ChartedRow(B_ROW)
  {
  }

  lemma PRowIsCharted()
    ensures ChartedRow(P_ROW)
  {
  }

  lemma FvRowIsCharted()
    ensures ChartedRow(FV_ROW)
  {
  }

  lemma XRowIsCharted()
    ensures ChartedRow(X_ROW)
  {
  }

  lemma NnRowIsCharted()
    ensures ChartedRow(NN_ROW)
  {
  }

  lemma RowsAreCharted()
    ensures forall i :: 0 <= i < |ROWS| ==> ChartedRow(ROWS[i])
  {
    hide Charted;
    VowelRowIsCharted();
    KRowIsCharted();
    SRowIsCharted();
    ShRowIsCharted();
    TRowIsCharted();
    NRowIsCharted();
    HRowIsCharted();
    MRowIsCharted();
    YrwRowIsCharted();
    GRowIsCharted();
    ZRowIsCharted();
    DRowIsCharted();
    BRowIsCharted();
    PRowIsCharted();
    FvRowIsCharted();
    XRowIsCharted();
    NnRowIsCharted();
  }

  /** Whatever spelling the table knows, it gives the kana of its column and vowel. */
  lemma RulesFollowTheChart(roman: string)
    ensures ExactRule(roman).Some? ==> Charted((roman, ExactRule(roman).value))
  {
    RowsAreCharted();
    hide ROWS, Charted;
    FindInRowsFinds(ROWS, roman);
  }
}
