/**
 * The play screen's round engine, without its widgets: a session-wide
 * countdown (read once from the game manager, paused while a round loads,
 * never re-armed), the question of the round (hearts or carrots), four
 * answer buttons, and the scoring of an answer.
 *
 * Events that arrive from outside are methods: the fetch thread's success
 * (DisplayRound) or failure (FetchFailed), the image's "loaded or failed"
 * listener (ImageSettled), the timeline's one-second key frame (Tick), and
 * the player's clicks.
 */
module Play {
  import opened Game
  import opened AnswerOptions

  /** One question from the remote API: image URL, hearts count, carrots count. */
  datatype GameData = GameData(question: string, solution: int, carrots: int)

  /** The status of the JavaFX timeline that drives the countdown. */
  datatype Timeline = Stopped | Running | Paused

  /** The scene the screen manager was asked to show. */
  datatype Screen = PlayScreen | LeaderboardScreen | DifficultyScreen | HomeScreen

  /** The value a round asks for. */
  function AskedValue(data: GameData, askingForHearts: bool): (r: int)
    ensures r == data.solution || r == data.carrots
    ensures askingForHearts ==> r == data.solution
    ensures !askingForHearts ==> r == data.carrots
  {
    if askingForHearts then data.solution else data.carrots
  }

  /** The score after one answer, under the difficulty in force. */
  function ScoreAfterAnswer(score: int, difficulty: string, isCorrect: bool): (r: int)
    ensures isCorrect ==> r == score + PointsFor(difficulty)
    ensures !isCorrect && difficulty == Easy ==> r == score
    ensures !isCorrect && difficulty != Easy && score > 0 ==> r == score - 1
    ensures !isCorrect && difficulty != Easy && score <= 0 ==> r == 0
    ensures !isCorrect ==> score - 1 <= r <= (if score < 0 then 0 else score)
    ensures score >= 0 ==> r >= 0 && (r > score <==> isCorrect)
  {
    if isCorrect then score + PointsFor(difficulty)
    else if difficulty != Easy then
      var penalty := 1;
      if score - penalty < 0 then 0 else score - penalty
    else score
  }

  /** The score after a series of answers, true standing for a correct one. */
  function SessionScore(score: int, difficulty: string, answers: seq<bool>): int
    decreases |answers|
  {
    if answers == [] then score
    else SessionScore(ScoreAfterAnswer(score, difficulty, answers[0]), difficulty, answers[1..])
  }

  function CountCorrect(answers: seq<bool>): (n: nat)
    ensures n <= |answers|
    decreases |answers|
  {
    if answers == [] then 0 else (if answers[0] then 1 else 0) + CountCorrect(answers[1..])
  }

  /** Starting from zero or more, the score never goes negative, and grows by at most the points of every answer. */
  lemma {:induction false} SessionScoreBounds(score: int, difficulty: string, answers: seq<bool>)
    requires score >= 0
    ensures 0 <= SessionScore(score, difficulty, answers) <= score + CountCorrect(answers) * PointsFor(difficulty)
    decreases |answers|
  {
    if answers != [] {
      SessionScoreBounds(ScoreAfterAnswer(score, difficulty, answers[0]), difficulty, answers[1..]);
    }
  }

  /** On Easy a wrong answer costs nothing: the score is one point per correct answer. */
  lemma {:induction false} EasySessionScore(score: int, answers: seq<bool>)
    ensures SessionScore(score, Easy, answers) == score + CountCorrect(answers)
    decreases |answers|
  {
    if answers != [] {
      EasySessionScore(ScoreAfterAnswer(score, Easy, answers[0]), answers[1..]);
    }
  }

  /** Medium: a correct answer from 0 gives 3, a wrong one then gives 2; a wrong answer at 0 stays 0. */
  lemma MediumScenario()
    ensures SessionScore(0, Medium, [true]) == 3
    ensures SessionScore(0, Medium, [true, false]) == 2
    ensures SessionScore(0, Medium, [false]) == 0
  {
  }

  class PlayScreenController {
    /** The game manager the screen reads and scores into. */
    const gm: GameManager
    var timeRemaining: int
    var correctAnswer: int
    var isAskingForHearts: bool
    /** Whether the four answer buttons accept clicks. */
    var buttonsEnabled: bool
    /** The numbers shown on button1..button4. */
    var buttonValues: seq<int>
    var countdown: Timeline
    var screen: Screen
    /** Background fetches whose result has not yet been delivered. */
    var pendingFetches: nat
    /** Images whose "loaded or failed" event has not yet fired. */
    var pendingImages: nat
    /** Final scores handed to the score-saving thread at each game over. */
    var savedScores: seq<int>

    /** While the buttons accept clicks they show four distinct numbers, one of them the correct answer. */
    ghost predicate Valid()
      reads this
    {
      buttonsEnabled ==>
        |buttonValues| == OptionCount && Distinct(buttonValues) && multiset(buttonValues)[correctAnswer] == 1
    }

    /**
     * initialize: the countdown gets the manager's timer value once, the
     * timeline is created stopped, and the first round is requested.
     */
    constructor (gm: GameManager)
      ensures this.gm == gm && Valid()
      ensures timeRemaining == gm.timerValue
      ensures countdown == Stopped && !buttonsEnabled && screen == PlayScreen
      ensures pendingFetches == 1 && pendingImages == 0 && savedScores == []
    {
      this.gm := gm;
      timeRemaining := gm.timerValue;
      correctAnswer, isAskingForHearts := 0, false;
      buttonsEnabled, buttonValues := false, [];
      countdown, screen := Stopped, PlayScreen;
      pendingFetches, pendingImages, savedScores := 0, 0, [];
      new;
      LoadNewRound();
    }

    /**
     * Disables the buttons, pauses the countdown (a pause acts only on a
     * running timeline) and starts a fetch.
     */
    method LoadNewRound()
      modifies this
      ensures !buttonsEnabled && Valid()
      ensures countdown == (if old(countdown) == Running then Paused else old(countdown))
      ensures pendingFetches == old(pendingFetches) + 1
      ensures timeRemaining == old(timeRemaining) && correctAnswer == old(correctAnswer)
      ensures isAskingForHearts == old(isAskingForHearts) && buttonValues == old(buttonValues)
      ensures screen == old(screen) && pendingImages == old(pendingImages) && savedScores == old(savedScores)
    {
      buttonsEnabled := false;
      if countdown == Running {
        countdown := Paused;
      }
      pendingFetches := pendingFetches + 1;
    }

    /**
     * A fetch failed: the countdown stops and the difficulty screen is shown.
     * The score is not touched.
     */
    method FetchFailed()
      requires pendingFetches > 0
      modifies this
      ensures countdown == Stopped && screen == DifficultyScreen
      ensures pendingFetches == old(pendingFetches) - 1
      ensures timeRemaining == old(timeRemaining) && correctAnswer == old(correctAnswer)
      ensures buttonsEnabled == old(buttonsEnabled) && buttonValues == old(buttonValues)
      ensures isAskingForHearts == old(isAskingForHearts)
      ensures pendingImages == old(pendingImages) && savedScores == old(savedScores)
    {
      pendingFetches := pendingFetches - 1;
      countdown := Stopped;
      screen := DifficultyScreen;
    }

    /**
     * A fetch delivered its question: the image starts loading (or its
     * constructor throws and the countdown starts at once), the round asks
     * for hearts or carrots, the buttons get the generated options and are
     * enabled. Nothing checks whether the player has left the screen.
     */
    method DisplayRound(data: GameData, askForHearts: bool, imageThrows: bool, draws: seq<int>, swaps: seq<int>)
      requires pendingFetches > 0
      requires forall k :: 0 <= k < |draws| ==> InDrawRange(draws[k])
      requires |Collect([AskedValue(data, askForHearts)], draws)| == OptionCount
      requires ShuffleDraws(swaps, OptionCount)
      modifies this
      ensures Valid() && buttonsEnabled
      ensures isAskingForHearts == askForHearts
      ensures correctAnswer == (if askForHearts then data.solution else data.carrots)
      ensures multiset(buttonValues) == multiset(Collect([correctAnswer], draws))
      ensures forall i :: 0 <= i < |buttonValues| && buttonValues[i] != correctAnswer ==> InDrawRange(buttonValues[i])
      ensures countdown == (if imageThrows then Running else old(countdown))
      ensures pendingImages == old(pendingImages) + (if imageThrows then 0 else 1)
      ensures pendingFetches == old(pendingFetches) - 1
      ensures timeRemaining == old(timeRemaining) && screen == old(screen) && savedScores == old(savedScores)
    {
      pendingFetches := pendingFetches - 1;
      if imageThrows {
        countdown := Running;
      } else {
        pendingImages := pendingImages + 1;
      }
      isAskingForHearts := askForHearts;
      if isAskingForHearts {
        correctAnswer := data.solution;
      } else {
        correctAnswer := data.carrots;
      }
      var answers := GenerateAnswerOptions(correctAnswer, draws, swaps);
      buttonValues := answers;
      buttonsEnabled := true;
    }

    /** The image finished loading or failed to load: either way the countdown plays. */
    method ImageSettled()
      requires pendingImages > 0
      modifies this
      ensures countdown == Running
      ensures pendingImages == old(pendingImages) - 1
      ensures timeRemaining == old(timeRemaining) && correctAnswer == old(correctAnswer)
      ensures buttonsEnabled == old(buttonsEnabled) && buttonValues == old(buttonValues)
      ensures isAskingForHearts == old(isAskingForHearts) && screen == old(screen)
      ensures pendingFetches == old(pendingFetches) && savedScores == old(savedScores)
    {
      pendingImages := pendingImages - 1;
      countdown := Running;
    }

    /**
     * One second of the timeline. The key frame fires only while the
     * timeline runs; it takes one second off and ends the game at zero or
     * below.
     */
    method Tick()
      modifies this
      ensures old(countdown) != Running ==> unchanged(this)
      ensures old(countdown) == Running ==> timeRemaining == old(timeRemaining) - 1
      ensures old(countdown) == Running && timeRemaining <= 0 ==>
        countdown == Stopped && screen == LeaderboardScreen && savedScores == old(savedScores) + [gm.score]
      ensures old(countdown) == Running && timeRemaining > 0 ==>
        countdown == Running && screen == old(screen) && savedScores == old(savedScores)
      ensures correctAnswer == old(correctAnswer) && buttonsEnabled == old(buttonsEnabled)
      ensures buttonValues == old(buttonValues) && isAskingForHearts == old(isAskingForHearts)
      ensures pendingFetches == old(pendingFetches) && pendingImages == old(pendingImages)
    {
      if countdown == Running {
        timeRemaining := timeRemaining - 1;
        if timeRemaining <= 0 {
          HandleGameOver();
        }
      }
    }

    /** Stops the countdown, hands the final score to the saving thread and shows the leaderboard. */
    method HandleGameOver()
      modifies this
      ensures countdown == Stopped && screen == LeaderboardScreen
      ensures savedScores == old(savedScores) + [gm.score]
      ensures timeRemaining == old(timeRemaining) && correctAnswer == old(correctAnswer)
      ensures buttonsEnabled == old(buttonsEnabled) && buttonValues == old(buttonValues)
      ensures isAskingForHearts == old(isAskingForHearts)
      ensures pendingFetches == old(pendingFetches) && pendingImages == old(pendingImages)
    {
      countdown := Stopped;
      savedScores := savedScores + [gm.score];
      screen := LeaderboardScreen;
    }

    /**
     * Scores the selected number against the round's correct answer, then
     * loads the next round. The countdown keeps its remaining time.
     */
    method CheckAnswer(selected: int)
      modifies this, gm
      ensures gm.score == ScoreAfterAnswer(old(gm.score), old(gm.difficulty), selected == old(correctAnswer))
      ensures gm.difficulty == old(gm.difficulty) && gm.timerValue == old(gm.timerValue)
      ensures !buttonsEnabled && Valid()
      ensures countdown == (if old(countdown) == Running then Paused else old(countdown))
      ensures pendingFetches == old(pendingFetches) + 1
      ensures timeRemaining == old(timeRemaining) && correctAnswer == old(correctAnswer)
      ensures buttonValues == old(buttonValues) && isAskingForHearts == old(isAskingForHearts)
      ensures screen == old(screen) && pendingImages == old(pendingImages) && savedScores == old(savedScores)
    {
      if selected == correctAnswer {
        var points := gm.PointsForDifficulty();
        gm.AddScore(points);
        LoadNewRound();
      } else {
        if gm.difficulty != Easy {
          var penalty := 1;
          var currentScore := gm.score;
          gm.SetScore(if currentScore - penalty < 0 then 0 else currentScore - penalty);
        }
        LoadNewRound();
      }
    }

    /** A click on answer button `button` (0..3); a disabled button delivers no click. */
    method HandleAnswer(button: nat)
      requires Valid() && button < OptionCount
      modifies this, gm
      ensures Valid() && !buttonsEnabled
      ensures old(buttonsEnabled) ==>
        gm.score == ScoreAfterAnswer(old(gm.score), old(gm.difficulty), old(buttonValues[button]) == old(correctAnswer))
        && pendingFetches == old(pendingFetches) + 1
        && countdown == (if old(countdown) == Running then Paused else old(countdown))
      ensures correctAnswer == old(correctAnswer) && buttonValues == old(buttonValues)
      ensures isAskingForHearts == old(isAskingForHearts)
      ensures pendingImages == old(pendingImages) && savedScores == old(savedScores)
      ensures !old(buttonsEnabled) ==> unchanged(this, gm)
      ensures gm.difficulty == old(gm.difficulty) && gm.timerValue == old(gm.timerValue)
      ensures timeRemaining == old(timeRemaining) && screen == old(screen)
    {
      if buttonsEnabled {
        CheckAnswer(buttonValues[button]);
      }
    }

    /** The exit button stops the countdown and shows the home screen. */
    method HandleExit()
      modifies this
      ensures countdown == Stopped && screen == HomeScreen
      ensures timeRemaining == old(timeRemaining) && correctAnswer == old(correctAnswer)
      ensures buttonsEnabled == old(buttonsEnabled) && buttonValues == old(buttonValues)
      ensures isAskingForHearts == old(isAskingForHearts) && savedScores == old(savedScores)
      ensures pendingFetches == old(pendingFetches) && pendingImages == old(pendingImages)
    {
      countdown := Stopped;
      screen := HomeScreen;
    }

    /**
     * The home button stops the countdown and asks for confirmation. On OK
     * the home screen is shown; otherwise the countdown plays again with its
     * remaining time, whatever its status was before the click.
     */
    method HandleHomeButton(confirmed: bool)
      modifies this
      ensures countdown == (if confirmed then Stopped else Running)
      ensures screen == (if confirmed then HomeScreen else old(screen))
      ensures timeRemaining == old(timeRemaining) && correctAnswer == old(correctAnswer)
      ensures buttonsEnabled == old(buttonsEnabled) && buttonValues == old(buttonValues)
      ensures isAskingForHearts == old(isAskingForHearts) && savedScores == old(savedScores)
      ensures pendingFetches == old(pendingFetches) && pendingImages == old(pendingImages)
    {
      countdown := Stopped;
      if confirmed {
        screen := HomeScreen;
      } else {
        countdown := Running;
      }
    }
  }

  /**
   * A Medium game (with the corrected difficulty selection): a correct
   * answer from 0 gives 3 points, a wrong answer next round leaves 2, and
   * the countdown holds Medium's 30 seconds throughout.
   */
  method MediumGame() returns (timer: int, afterCorrect: int, afterWrong: int)
    ensures timer == MediumTimer && afterCorrect == 3 && afterWrong == 2
  {
    var gm := new GameManager();
    gm.SelectDifficulty(Medium);
    var play := new PlayScreenController(gm);
    play.DisplayRound(GameData("heart.png", 5, 2), true, false, [1, 2, 3], [0, 0, 0]);
    play.ImageSettled();
    assert play.correctAnswer in multiset(play.buttonValues);
    var right :| 0 <= right < OptionCount && play.buttonValues[right] == play.correctAnswer;
    play.HandleAnswer(right);
    afterCorrect := gm.score;
    play.DisplayRound(GameData("heart.png", 4, 7), false, false, [1, 2, 3], [0, 0, 0]);
    play.ImageSettled();
    var wrong := if play.buttonValues[0] != play.correctAnswer then 0 else 1;
    play.HandleAnswer(wrong);
    afterWrong := gm.score;
    timer := play.timeRemaining;
  }

  /**
   * A question fetched before the player exits still reaches the screen:
   * its image restarts the countdown although the home screen is showing.
   */
  method LateRoundAfterExit() returns (countdown: Timeline, screen: Screen)
    ensures countdown == Running && screen == HomeScreen
  {
    var gm := new GameManager();
    var play := new PlayScreenController(gm);
    play.HandleExit();
    play.DisplayRound(GameData("heart.png", 3, 1), true, false, [0, 1, 2], [0, 0, 0]);
    play.ImageSettled();
    countdown, screen := play.countdown, play.screen;
  }
}
