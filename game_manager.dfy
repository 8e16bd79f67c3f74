/**
 * The game-state manager: the running score, the difficulty name and the
 * countdown length, with the constant tables that map a difficulty name to
 * its countdown length and its points per correct answer.
 */
module Game {

  const Easy: string := "Easy"
  const Medium: string := "Medium"
  const Hard: string := "Hard"

  const EasyTimer: int := 45
  const MediumTimer: int := 30
  const HardTimer: int := 20

  const EasyPoints: int := 1
  const MediumPoints: int := 3
  const HardPoints: int := 5

  /** Countdown seconds for a difficulty name; any name other than Medium or Hard gets Easy's. */
  function TimerFor(difficulty: string): (t: int)
    ensures t > 0
    ensures t == EasyTimer || t == MediumTimer || t == HardTimer
    ensures t == EasyTimer <==> difficulty != Medium && difficulty != Hard
    ensures difficulty == Medium ==> t == MediumTimer
    ensures difficulty == Hard ==> t == HardTimer
  {
    match difficulty
    case "Easy" => EasyTimer
    case "Medium" => MediumTimer
    case "Hard" => HardTimer
    case _ => EasyTimer
  }

  /** Points for a correct answer under a difficulty name; any other name gets Easy's. */
  function PointsFor(difficulty: string): (p: int)
    ensures p > 0
    ensures p == EasyPoints || p == MediumPoints || p == HardPoints
    ensures p == EasyPoints <==> difficulty != Medium && difficulty != Hard
    ensures difficulty == Medium ==> p == MediumPoints
    ensures difficulty == Hard ==> p == HardPoints
  {
    match difficulty
    case "Easy" => EasyPoints
    case "Medium" => MediumPoints
    case "Hard" => HardPoints
    case _ => EasyPoints
  }

  /** The two tables rank the difficulties the same way: less time always means more points. */
  lemma LessTimeMorePoints(d: string, e: string)
    ensures TimerFor(d) < TimerFor(e) <==> PointsFor(d) > PointsFor(e)
    ensures TimerFor(d) == TimerFor(e) <==> PointsFor(d) == PointsFor(e)
  {
  }

  class GameManager {
    var score: int
    var difficulty: string
    var timerValue: int

    /** The constructor runs resetGame. */
    constructor ()
      ensures score == 0 && difficulty == Easy && timerValue == EasyTimer
    {
      new;
      ResetGame();
    }

    method ResetGame()
      modifies this
      ensures score == 0 && difficulty == Easy && timerValue == EasyTimer
    {
      score := 0;
      difficulty := Easy;
      timerValue := EasyTimer;
    }

    /** Stores the name verbatim and looks up its countdown; the score is kept. */
    method SetDifficulty(d: string)
      modifies this
      ensures difficulty == d && timerValue == TimerFor(d) && timerValue > 0
      ensures score == old(score)
    {
      difficulty := d;
      match d {
        case "Easy" => timerValue := EasyTimer;
        case "Medium" => timerValue := MediumTimer;
        case "Hard" => timerValue := HardTimer;
        case _ => timerValue := EasyTimer;
      }
    }

    method AddScore(points: int)
      modifies this
      ensures score == old(score) + points
      ensures difficulty == old(difficulty) && timerValue == old(timerValue)
    {
      score := score + points;
    }

    /** The same state change as AddScore(1). */
    method IncrementScore()
      modifies this
      ensures score == old(score) + 1
      ensures difficulty == old(difficulty) && timerValue == old(timerValue)
    {
      score := score + 1;
    }

    function PointsForDifficulty(): (p: int)
      reads this
      ensures p > 0 && p == PointsFor(difficulty)
    {
      PointsFor(difficulty)
    }

    method SetScore(s: int)
      modifies this
      ensures score == s
      ensures difficulty == old(difficulty) && timerValue == old(timerValue)
    {
      score := s;
    }

    method SetTimerValue(t: int)
      modifies this
      ensures timerValue == t
      ensures score == old(score) && difficulty == old(difficulty)
    {
      timerValue := t;
    }

    /**
     * What a difficulty button of the difficulty screen does: setDifficulty
     * with the chosen name, then resetGame. The reset overwrites the choice,
     * so every button starts an Easy game.
     */
    method SelectDifficultyAsWritten(choice: string)
      modifies this
      ensures score == 0 && difficulty == Easy && timerValue == EasyTimer
    {
      SetDifficulty(choice);
      ResetGame();
    }

    /** The evidently intended selection: reset first, then apply the choice. */
    method SelectDifficulty(choice: string)
      modifies this
      ensures score == 0 && difficulty == choice && timerValue == TimerFor(choice)
    {
      ResetGame();
      SetDifficulty(choice);
    }
  }

  /** A Hard selection made as the difficulty screen makes it yields Easy's timer and points. */
  method HardSelectionIsLost() returns (timer: int, points: int)
    ensures timer == EasyTimer && points == EasyPoints
    ensures timer != TimerFor(Hard) && points != PointsFor(Hard)
  {
    var gm := new GameManager();
    gm.SelectDifficultyAsWritten(Hard);
    timer, points := gm.timerValue, gm.PointsForDifficulty();
  }

  /** With the corrected selection, a Hard game gets Hard's timer and points. */
  method HardSelectionTakesEffect() returns (timer: int, points: int)
    ensures timer == HardTimer && points == HardPoints
  {
    var gm := new GameManager();
    gm.SelectDifficulty(Hard);
    timer, points := gm.timerValue, gm.PointsForDifficulty();
  }
}
