/**
 * The question bank of script.js and the answer-option shuffle of
 * `showQuestion`, with the correctness test of `selectAnswer`.
 */
module Questions {
  import opened Shuffle

  /** Number of levels in the game. */
  const LevelCount: nat := 10

  /** Number of answer options every question offers. */
  const OptionsPerQuestion: nat := 4

  /**
   * One question record: the prompt, the options in their stored order, the
   * position of the right option among them, and the icon shown beside it.
   */
  datatype Question = Question(prompt: string, options: seq<int>, correct: nat, emoji: string)

  /** A question a player can answer: four different options, one of them right. */
  predicate WellFormed(q: Question) {
    |q.options| == OptionsPerQuestion && q.correct < |q.options| && Distinct(q.options)
  }

  /*
   * `questionDatabase`: six questions per level. In every record the right
   * answer is stored first; the option shuffle moves it.
   */
  const Level1: seq<Question> := [
    Question("5 + 3 = ?", [8, 7, 9, 6], 0, "🔢"),
    Question("10 - 4 = ?", [6, 7, 5, 8], 0, "➖"),
    Question("7 + 2 = ?", [9, 8, 10, 7], 0, "➕"),
    Question("4 + 6 = ?", [10, 9, 11, 8], 0, "🔢"),
    Question("8 - 3 = ?", [5, 4, 6, 7], 0, "➖"),
    Question("6 + 1 = ?", [7, 6, 8, 5], 0, "➕")
  ]

  const Level2: seq<Question> := [
    Question("12 + 8 = ?", [20, 19, 21, 18], 0, "🔢"),
    Question("15 - 7 = ?", [8, 9, 7, 6], 0, "➖"),
    Question("9 + 6 = ?", [15, 14, 16, 13], 0, "➕"),
    Question("11 + 9 = ?", [20, 19, 21, 18], 0, "🔢"),
    Question("16 - 8 = ?", [8, 7, 9, 6], 0, "➖"),
    Question("13 + 4 = ?", [17, 16, 18, 15], 0, "➕")
  ]

  const Level3: seq<Question> := [
    Question("25 + 15 = ?", [40, 39, 41, 38], 0, "🔢"),
    Question("30 - 12 = ?", [18, 19, 17, 20], 0, "➖"),
    Question("14 + 17 = ?", [31, 30, 32, 29], 0, "➕"),
    Question("22 + 18 = ?", [40, 39, 41, 38], 0, "🔢"),
    Question("35 - 16 = ?", [19, 18, 20, 17], 0, "➖"),
    Question("26 + 14 = ?", [40, 39, 41, 38], 0, "➕")
  ]

  const Level4: seq<Question> := [
    Question("6 × 4 = ?", [24, 22, 26, 20], 0, "✖️"),
    Question("15 ÷ 3 = ?", [5, 4, 6, 3], 0, "➗"),
    Question("7 × 3 = ?", [21, 20, 22, 19], 0, "✖️"),
    Question("5 × 6 = ?", [30, 29, 31, 28], 0, "✖️"),
    Question("18 ÷ 2 = ?", [9, 8, 10, 7], 0, "➗"),
    Question("4 × 8 = ?", [32, 31, 33, 30], 0, "✖️")
  ]

  const Level5: seq<Question> := [
    Question("8 × 7 = ?", [56, 54, 58, 52], 0, "✖️"),
    Question("36 ÷ 6 = ?", [6, 5, 7, 4], 0, "➗"),
    Question("9 × 5 = ?", [45, 44, 46, 43], 0, "✖️"),
    Question("7 × 8 = ?", [56, 54, 58, 52], 0, "✖️"),
    Question("42 ÷ 7 = ?", [6, 5, 7, 4], 0, "➗"),
    Question("6 × 9 = ?", [54, 53, 55, 52], 0, "✖️")
  ]

  const Level6: seq<Question> := [
    Question("12 × 8 = ?", [96, 94, 98, 92], 0, "✖️"),
    Question("72 ÷ 9 = ?", [8, 7, 9, 6], 0, "➗"),
    Question("11 × 6 = ?", [66, 64, 68, 62], 0, "✖️"),
    Question("9 × 12 = ?", [108, 106, 110, 104], 0, "✖️"),
    Question("81 ÷ 9 = ?", [9, 8, 10, 7], 0, "➗"),
    Question("7 × 11 = ?", [77, 75, 79, 73], 0, "✖️")
  ]

  const Level7: seq<Question> := [
    Question("มีลูกอม 24 เม็ด แบ่งให้เด็ก 6 คน เท่าๆ กัน คนละกี่เม็ด?", [4, 3, 5, 6], 0, "🍭"),
    Question("ซื้อดินสอ 3 แท่ง แท่งละ 15 บาท ใช้เงินทั้งหมดกี่บาท?", [45, 40, 50, 35], 0, "✏️"),
    Question("ในห้องมีโต๊ะ 8 ตัว โต๊ะละ 4 ขา รวมกี่ขา?", [32, 30, 34, 28], 0, "🪑"),
    Question("มีขนม 36 ชิ้น แบ่งใส่จาน 9 ใบ เท่าๆ กัน จานละกี่ชิ้น?", [4, 3, 5, 6], 0, "🍪"),
    Question("ซื้อหนังสือ 5 เล่ม เล่มละ 12 บาท ใช้เงินทั้งหมดกี่บาท?", [60, 55, 65, 50], 0, "📖"),
    Question("สวนมีต้นไม้ 7 แถว แถวละ 6 ต้น รวมกี่ต้น?", [42, 40, 44, 38], 0, "🌲")
  ]

  const Level8: seq<Question> := [
    Question("รถบัสมี 45 ที่นั่ง มีผู้โดยสาร 28 คน เหลือที่นั่งว่างกี่ที่?", [17, 16, 18, 15], 0, "🚌"),
    Question("ซื้อของเล่น 6 ชิ้น ชิ้นละ 25 บาท ใช้เงินทั้งหมดกี่บาท?", [150, 145, 155, 140], 0, "🧸"),
    Question("มีเหรียญ 10 บาท จำนวน 12 เหรียญ รวมเป็นเงินกี่บาท?", [120, 115, 125, 110], 0, "🪙"),
    Question("โรงภาพยนตร์มี 8 แถว แถวละ 15 ที่นั่ง รวมกี่ที่นั่ง?", [120, 115, 125, 110], 0, "🎬"),
    Question("มีลูกบอล 84 ลูก ใส่กล่องละ 12 ลูก ได้กี่กล่อง?", [7, 6, 8, 5], 0, "⚽"),
    Question("ร้านขายปากกา 9 แพ็ค แพ็คละ 18 บาท รวมเป็นเงินกี่บาท?", [162, 160, 164, 158], 0, "🖊️")
  ]

  const Level9: seq<Question> := [
    Question("สวนมีต้นไผ่ 144 ต้น ปลูกเป็น 12 แถว แถวละกี่ต้น?", [12, 11, 13, 10], 0, "🎋"),
    Question("ห้องสมุดมีหนังสือ 15 ชั้น ชั้นละ 24 เล่ม รวมกี่เล่ม?", [360, 350, 370, 340], 0, "📚"),
    Question("แบ่งลูกกวาด 96 เม็ด ใส่ถุง 8 ถุง เท่าๆ กัน ถุงละกี่เม็ด?", [12, 11, 13, 10], 0, "🍬"),
    Question("โรงงานผลิตขนม 16 ชั่วโมง ชั่วโมงละ 45 ชิ้น รวมกี่ชิ้น?", [720, 710, 730, 700], 0, "🏭"),
    Question("มีดอกไม้ 168 ดอก จัดช่อละ 14 ดอก ได้กี่ช่อ?", [12, 11, 13, 10], 0, "💐"),
    Question("ร้านอาหารมี 18 โต๊ะ โต๊ะละ 6 ที่นั่ง รวมกี่ที่นั่ง?", [108, 106, 110, 104], 0, "🍽️")
  ]

  const Level10: seq<Question> := [
    Question("25 + 37 = ?", [62, 61, 63, 60], 0, "➕"),
    Question("84 - 29 = ?", [55, 54, 56, 53], 0, "➖"),
    Question("13 × 7 = ?", [91, 89, 93, 87], 0, "✖️"),
    Question("144 ÷ 12 = ?", [12, 11, 13, 10], 0, "➗"),
    Question("โรงเรียนมีนักเรียน 18 ห้อง ห้องละ 35 คน รวมกี่คน?", [630, 620, 640, 610], 0, "🏫"),
    Question("ร้านขายไข่ 252 ฟอง บรรจุกล่องละ 12 ฟอง ได้กี่กล่อง?", [21, 20, 22, 19], 0, "🥚")
  ]

  /**
   * `questionDatabase[level] || []`: the questions of a level in stored
   * order, and none for a number that is not a level.
   */
  function LevelQuestions(level: int): (qs: seq<Question>)
    ensures 1 <= level <= LevelCount <==> qs != []
    ensures 1 <= level <= LevelCount ==> |qs| == 6
  {
    match level
    case 1 => Level1
    case 2 => Level2
    case 3 => Level3
    case 4 => Level4
    case 5 => Level5
    case 6 => Level6
    case 7 => Level7
    case 8 => Level8
    case 9 => Level9
    case 10 => Level10
    case _ => []
  }

  lemma Level1WellFormed()
    ensures forall k | 0 <= k < |Level1| :: WellFormed(Level1[k])
  {
  }

  lemma Level2WellFormed()
    ensures forall k | 0 <= k < |Level2| :: WellFormed(Level2[k])
  {
  }

  lemma Level3WellFormed()
    ensures forall k | 0 <= k < |Level3| :: WellFormed(Level3[k])
  {
  }

  lemma Level4WellFormed()
    ensures forall k | 0 <= k < |Level4| :: WellFormed(Level4[k])
  {
  }

  lemma Level5WellFormed()
    ensures forall k | 0 <= k < |Level5| :: WellFormed(Level5[k])
  {
  }

  lemma Level6WellFormed()
    ensures forall k | 0 <= k < |Level6| :: WellFormed(Level6[k])
  {
  }

  lemma Level7WellFormed()
    ensures forall k | 0 <= k < |Level7| :: WellFormed(Level7[k])
  {
  }

  lemma Level8WellFormed()
    ensures forall k | 0 <= k < |Level8| :: WellFormed(Level8[k])
  {
  }

  lemma Level9WellFormed()
    ensures forall k | 0 <= k < |Level9| :: WellFormed(Level9[k])
  {
  }

  lemma Level10WellFormed()
    ensures forall k | 0 <= k < |Level10| :: WellFormed(Level10[k])
  {
  }

  /** Every question in the bank can be answered: four distinct options, one of them right. */
  lemma CatalogWellFormed(level: int)
    ensures forall q | q in LevelQuestions(level) :: WellFormed(q)
  {
    match level
    case 1 => Level1WellFormed();
    case 2 => Level2WellFormed();
    case 3 => Level3WellFormed();
    case 4 => Level4WellFormed();
    case 5 => Level5WellFormed();
    case 6 => Level6WellFormed();
    case 7 => Level7WellFormed();
    case 8 => Level8WellFormed();
    case 9 => Level9WellFormed();
    case 10 => Level10WellFormed();
    case _ =>
  }

  /**
   * The questions of a level in any order the shuffle may give are still
   * the level's questions, and every one of them can be answered.
   */
  lemma ShuffledLevelWellFormed(level: int, picks: seq<nat>)
    requires ValidPicks(picks, |LevelQuestions(level)|)
    ensures var qs := FisherYates(LevelQuestions(level), picks);
      multiset(qs) == multiset(LevelQuestions(level)) && forall q | q in qs :: WellFormed(q)
  {
    var stored := LevelQuestions(level);
    var qs := FisherYates(stored, picks);
    FisherYatesPermutes(stored, picks);
    CatalogWellFormed(level);
    forall q | q in qs ensures WellFormed(q) {
      assert q in multiset(stored);
    }
  }

  /** What `showQuestion` puts on screen for one question. */
  datatype Shown = Shown(emoji: string, prompt: string, options: seq<int>, correctIndex: int)

  /**
   * The screen for question q when the option shuffle draws `picks`: the
   * icon (a question mark when the record has none), the prompt, the
   * shuffled options and the position where the right answer ended up,
   * found by value as `indexOf` does.
   */
  function Display(q: Question, picks: seq<nat>): Shown
    requires q.correct < |q.options| && ValidPicks(picks, |q.options|)
  {
    var options := FisherYates(q.options, picks);
    Shown(if q.emoji == "" then "❓" else q.emoji, q.prompt, options, IndexOf(options, q.options[q.correct]))
  }

  /**
   * The option shuffle keeps the options and the right answer: the options
   * on screen are a rearrangement of the stored ones, and the recomputed
   * position holds the stored right answer.
   */
  lemma DisplayKeepsAnswer(q: Question, picks: seq<nat>)
    requires q.correct < |q.options| && ValidPicks(picks, |q.options|)
    ensures var v := Display(q, picks);
      |v.options| == |q.options| && multiset(v.options) == multiset(q.options) &&
      0 <= v.correctIndex < |v.options| && v.options[v.correctIndex] == q.options[q.correct]
  {
    var options := FisherYates(q.options, picks);
    FisherYatesPermutes(q.options, picks);
    assert q.options[q.correct] in multiset(options);
  }

  /**
   * The option-shuffle part of `showQuestion`: copy the options, remember
   * the right answer, shuffle the copy and look the answer up again.
   */
  method PresentQuestion(q: Question, picks: seq<nat>) returns (v: Shown)
    requires q.correct < |q.options| && ValidPicks(picks, |q.options|)
    ensures v == Display(q, picks)
    ensures multiset(v.options) == multiset(q.options)
    ensures 0 <= v.correctIndex < |v.options| && v.options[v.correctIndex] == q.options[q.correct]
  {
    var correctAnswer := q.options[q.correct];
    var shuffledOptions := ShuffleArray(q.options, picks);
    var newCorrectIndex := IndexOf(shuffledOptions, correctAnswer);
    v := Shown(if q.emoji == "" then "❓" else q.emoji, q.prompt, shuffledOptions, newCorrectIndex);
    DisplayKeepsAnswer(q, picks);
  }

  /** The test of `selectAnswer`: the answer is right when its position is. */
  function IsCorrect(selectedIndex: int, correctIndex: int): bool {
    selectedIndex == correctIndex
  }

  /**
   * Judging by position agrees with judging by value: on a question with
   * distinct options, the chosen button is judged right exactly when it
   * shows the stored right answer.
   */
  lemma JudgedByValue(q: Question, picks: seq<nat>, selectedIndex: int)
    requires WellFormed(q) && ValidPicks(picks, |q.options|)
    requires 0 <= selectedIndex < |q.options|
    ensures var v := Display(q, picks);
      IsCorrect(selectedIndex, v.correctIndex) <==> v.options[selectedIndex] == q.options[q.correct]
  {
    var v := Display(q, picks);
    DisplayKeepsAnswer(q, picks);
    RearrangedStaysDistinct(q.options, v.options);
  }

  /** A rearrangement of distinct elements has distinct elements. */
  lemma RearrangedStaysDistinct<T>(a: seq<T>, b: seq<T>)
    requires Distinct(a) && multiset(a) == multiset(b)
    ensures Distinct(b)
  {
    forall i, j | 0 <= i < j < |b| ensures b[i] != b[j] {
      if b[i] == b[j] {
        TwiceCountsTwice(b, i, j);
        DistinctCountsOnce(a, b[i]);
        assert false;
      }
    }
  }

  /** In distinct elements every value occurs at most once. */
  lemma {:induction false} DistinctCountsOnce<T>(a: seq<T>, x: T)
    requires Distinct(a)
    ensures multiset(a)[x] <= 1
  {
    if |a| > 0 {
      var rest := a[1..];
      assert Distinct(rest);
      DistinctCountsOnce(rest, x);
      assert a == [a[0]] + rest;
      assert multiset(a) == multiset{a[0]} + multiset(rest);
      if a[0] == x {
        assert x !in rest;
      }
    }
  }

  /** A value at two positions occurs at least twice. */
  lemma TwiceCountsTwice<T>(b: seq<T>, i: nat, j: nat)
    requires i < j < |b| && b[i] == b[j]
    ensures multiset(b)[b[i]] >= 2
  {
    var x := b[i];
    assert b == b[..i] + [x] + b[i + 1..j] + [x] + b[j + 1..];
    assert multiset(b) == multiset(b[..i]) + multiset{x} + multiset(b[i + 1..j]) + multiset{x} + multiset(b[j + 1..]);
  }
}
