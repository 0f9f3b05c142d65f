/**
 * The game object of script.js (`gameState`) and the handlers that change
 * it: starting and restarting a level, showing a question, judging an
 * answer, moving to the next question, finishing a level, clicking a level
 * card and switching the sound. Screens, sounds and timers are left out;
 * an action the source delays with a timer happens here at once.
 */
module Game {
  import opened Shuffle
  import opened Questions
  import opened Progression

  datatype Option<T> = None | Some(value: T)

  /** The question screen: level, question number (from 1), count, and the question shown. */
  datatype QuestionView = QuestionView(level: int, number: int, total: int, shown: Shown)

  /**
   * What `showQuestion` displays for question `index` of `qs` while
   * `level` is played, when the option shuffle draws `picks`; nothing when
   * there is no such question.
   */
  function ViewAt(level: int, qs: seq<Question>, index: int, picks: seq<nat>): (v: Option<QuestionView>)
    requires forall q | q in qs :: WellFormed(q)
    requires ValidPicks(picks, OptionsPerQuestion)
    ensures v.Some? <==> 0 <= index < |qs|
    ensures v.Some? ==>
      var q := qs[index];
      var s := v.value.shown;
      && v.value.level == level && v.value.number == index + 1 && v.value.total == |qs|
      && s.prompt == q.prompt && WellFormed(q)
      && multiset(s.options) == multiset(q.options)
      && 0 <= s.correctIndex < |s.options| && s.options[s.correctIndex] == q.options[q.correct]
  {
    if 0 <= index < |qs| then
      var q := qs[index];
      assert WellFormed(q);
      DisplayKeepsAnswer(q, picks);
      Some(QuestionView(level, index + 1, |qs|, Display(q, picks)))
    else None
  }

  /** The sound button's icon. */
  function SoundIcon(enabled: bool): (icon: string)
    ensures icon == "🔊" <==> enabled
    ensures icon == "🔇" <==> !enabled
  {
    if enabled then "🔊" else "🔇"
  }

  /** `gameState`: the progress, the questions of the level being played and the sound switch. */
  class GameState {
    var currentLevel: int
    var totalStars: int
    var tickets: int
    var levelStars: array<int>
    var questions: seq<Question>
    var currentQuestionIndex: int
    var soundEnabled: bool

    /** The progress part of the state as a value. */
    function Snapshot(): Progress
      reads this, levelStars
    {
      Progress(currentLevel, totalStars, tickets, levelStars[..])
    }

    /**
     * The invariant every handler keeps: consistent progress, a question
     * cursor within the level's questions (at the end once the level is
     * done), and questions that can be answered.
     */
    ghost predicate Valid()
      reads this, levelStars
    {
      && Consistent(Snapshot())
      && 0 <= currentQuestionIndex <= |questions|
      && (forall q | q in questions :: WellFormed(q))
    }

    /** The state of a fresh page: level 1, no stars, no ticket, no questions, sound on. */
    constructor()
      ensures Valid() && fresh(levelStars)
      ensures Snapshot() == Initial
      ensures questions == [] && currentQuestionIndex == 0 && soundEnabled
    {
      currentLevel := 1;
      totalStars := 0;
      tickets := 0;
      levelStars := new int[LevelCount](_ => 0);
      questions := [];
      currentQuestionIndex := 0;
      soundEnabled := true;
      new;
      assert levelStars[..] == Initial.levelStars;
      InitialConsistent();
    }

    /** `toggleSound`: flips the switch and returns the icon the button then shows. */
    method ToggleSound() returns (icon: string)
      requires Valid()
      modifies this`soundEnabled
      ensures Valid()
      ensures soundEnabled == !old(soundEnabled)
      ensures icon == SoundIcon(soundEnabled)
    {
      soundEnabled := !soundEnabled;
      icon := SoundIcon(soundEnabled);
    }

    /**
     * `showQuestion`: the screen for the question under the cursor, with
     * its options shuffled by `optionPicks`; nothing past the last question.
     */
    method ShowQuestion(optionPicks: seq<nat>) returns (view: Option<QuestionView>)
      requires Valid() && ValidPicks(optionPicks, OptionsPerQuestion)
      ensures view == ViewAt(currentLevel, questions, currentQuestionIndex, optionPicks)
    {
      if currentQuestionIndex >= |questions| {
        return None;
      }
      var question := questions[currentQuestionIndex];
      assert WellFormed(question);
      var shown := PresentQuestion(question, optionPicks);
      view := Some(QuestionView(currentLevel, currentQuestionIndex + 1, |questions|, shown));
    }

    /**
     * `startLevel`: the level becomes the current one, its six questions
     * are shuffled by `questionPicks` with the cursor on the first, and
     * that question is shown.
     */
    method StartLevel(level: int, questionPicks: seq<nat>, optionPicks: seq<nat>) returns (view: Option<QuestionView>)
      requires Valid() && 1 <= level <= LevelCount
      requires ValidPicks(questionPicks, |LevelQuestions(level)|) && ValidPicks(optionPicks, OptionsPerQuestion)
      modifies this
      ensures Valid() && levelStars == old(levelStars) && soundEnabled == old(soundEnabled)
      ensures Snapshot() == Start(old(Snapshot()), level)
      ensures questions == FisherYates(LevelQuestions(level), questionPicks) && currentQuestionIndex == 0
      ensures multiset(questions) == multiset(LevelQuestions(level))
      ensures view == ViewAt(level, questions, 0, optionPicks) && view.Some?
    {
      currentLevel := level;
      var levelQuestions := LevelQuestions(level);
      questions := ShuffleArray(levelQuestions, questionPicks);
      currentQuestionIndex := 0;
      ShuffledLevelWellFormed(level, questionPicks);
      view := ShowQuestion(optionPicks);
    }

    /** `restartLevel`: start the current level over; the progress stays as it was. */
    method RestartLevel(questionPicks: seq<nat>, optionPicks: seq<nat>) returns (view: Option<QuestionView>)
      requires Valid()
      requires ValidPicks(questionPicks, |LevelQuestions(currentLevel)|) && ValidPicks(optionPicks, OptionsPerQuestion)
      modifies this
      ensures Valid() && levelStars == old(levelStars) && soundEnabled == old(soundEnabled)
      ensures Snapshot() == old(Snapshot())
      ensures questions == FisherYates(LevelQuestions(currentLevel), questionPicks) && currentQuestionIndex == 0
      ensures view == ViewAt(currentLevel, questions, 0, optionPicks) && view.Some?
    {
      view := StartLevel(currentLevel, questionPicks, optionPicks);
    }

    /**
     * `selectAnswer` with the feedback that follows it: a right answer
     * leaves everything as it is (the player goes on with NextQuestion); a
     * wrong one restarts the level, questions reshuffled, progress kept.
     */
    method SelectAnswer(selectedIndex: int, correctIndex: int, questionPicks: seq<nat>, optionPicks: seq<nat>)
      returns (correct: bool, view: Option<QuestionView>)
      requires Valid()
      requires ValidPicks(questionPicks, |LevelQuestions(currentLevel)|) && ValidPicks(optionPicks, OptionsPerQuestion)
      modifies this
      ensures Valid() && levelStars == old(levelStars) && soundEnabled == old(soundEnabled)
      ensures correct == IsCorrect(selectedIndex, correctIndex)
      ensures Snapshot() == old(Snapshot())
      ensures correct ==> questions == old(questions) && currentQuestionIndex == old(currentQuestionIndex) && view == None
      ensures !correct ==> questions == FisherYates(LevelQuestions(currentLevel), questionPicks) && currentQuestionIndex == 0
      ensures !correct ==> view == ViewAt(currentLevel, questions, 0, optionPicks)
    {
      correct := IsCorrect(selectedIndex, correctIndex);
      view := None;
      if !correct {
        view := RestartLevel(questionPicks, optionPicks);
      }
    }

    /**
     * `finishLevel`: a first completion stars the level and counts the
     * star, and the tenth star earns the ticket (`earnedTicket` says the
     * reward window opens); then the next level is unlocked.
     */
    method FinishLevel() returns (earnedTicket: bool)
      requires Valid()
      modifies this, levelStars
      ensures Valid() && levelStars == old(levelStars)
      ensures Snapshot() == Finish(old(Snapshot()))
      ensures questions == old(questions) && currentQuestionIndex == old(currentQuestionIndex) && soundEnabled == old(soundEnabled)
      ensures earnedTicket <==> tickets == old(tickets) + 1
    {
      ghost var before := Snapshot();
      earnedTicket := false;
      if levelStars[currentLevel - 1] == 0 {
        levelStars[currentLevel - 1] := 1;
        totalStars := totalStars + 1;
        if totalStars == LevelCount {
          tickets := tickets + 1;
          earnedTicket := true;
        }
      }
      if currentLevel < LevelCount {
        currentLevel := currentLevel + 1;
      }
      assert levelStars[..] == Finish(before).levelStars;
      FinishKeepsConsistent(before);
    }

    /**
     * `nextQuestion`: move the cursor on; show the next question, or after
     * the last one finish the level and go back to the level screen.
     */
    method NextQuestion(optionPicks: seq<nat>) returns (view: Option<QuestionView>)
      requires Valid() && currentQuestionIndex < |questions|
      requires ValidPicks(optionPicks, OptionsPerQuestion)
      modifies this, levelStars
      ensures Valid() && levelStars == old(levelStars)
      ensures questions == old(questions) && currentQuestionIndex == old(currentQuestionIndex) + 1
      ensures soundEnabled == old(soundEnabled)
      ensures currentQuestionIndex < |questions| ==> Snapshot() == old(Snapshot()) && view == ViewAt(currentLevel, questions, currentQuestionIndex, optionPicks)
      ensures currentQuestionIndex == |questions| ==> Snapshot() == Finish(old(Snapshot())) && view == None
    {
      currentQuestionIndex := currentQuestionIndex + 1;
      if currentQuestionIndex < |questions| {
        view := ShowQuestion(optionPicks);
      } else {
        var _ := FinishLevel();
        view := None;
      }
    }

    /**
     * A click on level card `level`: a locked card ignores it, any other
     * starts the level.
     */
    method ChooseLevel(level: int, questionPicks: seq<nat>, optionPicks: seq<nat>)
      returns (started: bool, view: Option<QuestionView>)
      requires Valid() && 1 <= level <= LevelCount
      requires ValidPicks(questionPicks, |LevelQuestions(level)|) && ValidPicks(optionPicks, OptionsPerQuestion)
      modifies this
      ensures Valid() && levelStars == old(levelStars) && soundEnabled == old(soundEnabled)
      ensures started <==> old(CardFor(levelStars[..], currentLevel, level)) != Locked
      ensures started ==> Snapshot() == Start(old(Snapshot()), level)
      ensures started ==> questions == FisherYates(LevelQuestions(level), questionPicks) && currentQuestionIndex == 0
      ensures started ==> view == ViewAt(level, questions, 0, optionPicks) && view.Some?
      ensures !started ==> Snapshot() == old(Snapshot()) && view == None
      ensures !started ==> questions == old(questions) && currentQuestionIndex == old(currentQuestionIndex)
    {
      started := !IsLocked(levelStars[..], currentLevel, level);
      view := None;
      if started {
        view := StartLevel(level, questionPicks, optionPicks);
      }
    }
  }

  /**
   * A first session: open the page, click the card of `level` and answer
   * every question right. On a fresh page only level 1 is open: another
   * card ignores the click and nothing changes. Level 1 played through ends
   * back on the level screen with its star, the only one, no ticket, and
   * level 2 as the current level.
   */
  method PlayFromFreshGame(level: int, questionPicks: seq<nat>, optionPicks: seq<seq<nat>>) returns (p: Progress)
    requires 1 <= level <= LevelCount
    requires ValidPicks(questionPicks, |LevelQuestions(level)|) && |optionPicks| == |LevelQuestions(level)|
    requires forall k | 0 <= k < |optionPicks| :: ValidPicks(optionPicks[k], OptionsPerQuestion)
    ensures level != 1 ==> p == Initial
    ensures level == 1 ==> p.levelStars == Initial.levelStars[level - 1 := 1]
    ensures level == 1 ==> p.totalStars == 1 && p.tickets == 0 && p.currentLevel == level + 1
  {
    var game := new GameState();
    var started, view := game.ChooseLevel(level, questionPicks, optionPicks[0]);
    if !started {
      return game.Snapshot();
    }
    ghost var begun := Start(Initial, level);
    while view.Some?
      invariant fresh(game.levelStars) && game.Valid() && |game.questions| == |optionPicks|
      invariant view.Some? ==> game.currentQuestionIndex < |game.questions| && game.Snapshot() == begun
      invariant view.None? ==> game.Snapshot() == Finish(begun)
      decreases |game.questions| - game.currentQuestionIndex + (if view.Some? then 1 else 0)
    {
      var i := game.currentQuestionIndex;
      var nextDraws := if i + 1 < |optionPicks| then optionPicks[i + 1] else optionPicks[i];
      var correct;
      correct, view := AnswerRightThenGoOn(game, questionPicks, optionPicks[i], nextDraws);
      assert correct;
    }
    p := game.Snapshot();
    FirstCompletion(level);
  }

  /**
   * One round of PlayFromFreshGame: the question is shown with the option
   * draws `optionPicks`, the button showing the stored right answer is
   * found by value and pressed, it is judged right, and the game moves on,
   * showing the next question with the draws `nextPicks`.
   */
  method AnswerRightThenGoOn(game: GameState, questionPicks: seq<nat>, optionPicks: seq<nat>, nextPicks: seq<nat>)
    returns (correct: bool, next: Option<QuestionView>)
    requires game.Valid() && game.currentQuestionIndex < |game.questions|
    requires ValidPicks(questionPicks, |LevelQuestions(game.currentLevel)|)
    requires ValidPicks(optionPicks, OptionsPerQuestion) && ValidPicks(nextPicks, OptionsPerQuestion)
    modifies game, game.levelStars
    ensures game.Valid() && game.levelStars == old(game.levelStars) && game.questions == old(game.questions)
    ensures correct
    ensures game.soundEnabled == old(game.soundEnabled)
    ensures game.currentQuestionIndex == old(game.currentQuestionIndex) + 1
    ensures next.Some? ==> next == ViewAt(game.currentLevel, game.questions, game.currentQuestionIndex, nextPicks)
    ensures next.Some? <==> game.currentQuestionIndex < |game.questions|
    ensures next.Some? ==> game.Snapshot() == old(game.Snapshot())
    ensures next.None? ==> game.Snapshot() == Finish(old(game.Snapshot()))
  {
    var q := game.questions[game.currentQuestionIndex];
    var view := game.ShowQuestion(optionPicks);
    var shown := view.value.shown;
    var choice := IndexOf(shown.options, q.options[q.correct]);
    assert WellFormed(q);
    JudgedByValue(q, optionPicks, choice);
    var restarted;
    correct, restarted := game.SelectAnswer(choice, shown.correctIndex, questionPicks, optionPicks);
    next := game.NextQuestion(nextPicks);
  }
}
