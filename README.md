# Heart-counting quiz game: round engine and managers

This project models the core of a JavaFX quiz game. Each round shows an image
fetched from a remote "heart game" API and asks how many hearts, or how many
carrots, it contains. The player picks one of four numbers and scores according
to the difficulty. One countdown runs for the whole session.

What is modelled:

- **Round engine** (`Play`, play_screen.dfy). The play screen's controller is a
  class. Its fields are the remaining time, the correct answer, the
  hearts/carrots choice, the four button values and their enabled flag, the
  timeline status (`Stopped`, `Running`, `Paused`, with JavaFX's rules: `pause`
  acts only on a running timeline, `play` always leaves it running) and the
  screen shown. Events from outside are methods: a fetch result
  (`DisplayRound`), a fetch failure (`FetchFailed`), the image's "loaded or
  failed" event (`ImageSettled`), one key frame of the timeline (`Tick`) and the
  player's clicks. The countdown is a session-wide budget. It is read once from
  the game manager, paused while a round loads, and never re-armed, so every
  method except `Tick` keeps `timeRemaining`. Scoring is the pure function
  `ScoreAfterAnswer`, and `CheckAnswer` is proved against it.
- **Answer options** (`AnswerOptions`, answer_options.dfy).
  `generateAnswerOptions` is a loop that collects draws of `nextInt(15)`. It is
  proved against `Collect`, the list that loop holds after consuming a draw
  sequence. `Collections.shuffle` is a loop of swaps driven by its own draws.
- **Game manager** (`Game`, game_manager.dfy). This holds score, difficulty and
  timer. `TimerFor` and `PointsFor` are the constant tables, with the "any
  other name" fallback.
- **Session** (`Session`, game_session.dfy). This is the identity state
  machine, with Java null as `Option.None`. Guest names and ids use the
  decimal rendering of `Decimal` (decimal.dfy), which is proved to read back.
- **Sound manager mute logic** (`Sound`, sound_manager.dfy).
- **Leaderboard** (`Leaderboard`, leaderboard.dfy). The sort-and-rank step.
  `List.sort` with a reversed score comparator is a library call. It is
  modelled by `SortByScore`, a stable insertion sort proved sorted, a
  permutation and stable. The ranking loop is a method proved against it.

Randomness and the clock are parameters:

- `nextBoolean` is `askForHearts`.
- The `nextInt(15)` draws are `draws`.
- The shuffle's `nextInt(i)` draws are `swaps`.
- The guest `nextInt(9999)` is `draw`.
- `currentTimeMillis` is `millis`.

The model follows the code in four places where a reader might expect otherwise:

- The countdown is not armed per round when a fetch succeeds. It is paused
  during the load and played again when the image loads or fails.
- The penalty on a wrong answer depends on whether the difficulty name is
  exactly "Easy". There is no per-profile flag. An unknown difficulty name
  therefore gets Easy's timer and points but Medium's penalty.
- A fetch result that arrives after the player leaves is not discarded.
  `LateRoundAfterExit` shows that its image restarts the countdown while the
  home screen is showing.
- Declining the quit dialog plays the countdown whatever its status was. If
  the dialog is declined while a round is loading, the countdown runs during
  the load.

## Model

| member | source | states |
|---|---|---|
| Play.PlayScreenController.constructor | src/main/java/org/helitha/heartapigame/controllers/PlayScreenController.java:92-119 | initialize reads the countdown from the game manager once, leaves the timeline stopped, disables the buttons and launches the first fetch |
| Play.PlayScreenController.LoadNewRound | src/main/java/org/helitha/heartapigame/controllers/PlayScreenController.java:196-230 | all four buttons disabled, a running countdown paused (other states kept), one more fetch in flight, remaining time unchanged |
| Play.PlayScreenController.FetchFailed | src/main/java/org/helitha/heartapigame/controllers/PlayScreenController.java:216-228 | a failed fetch stops the countdown and shows the difficulty screen; the score cannot change (the game manager is outside the frame) |
| Play.PlayScreenController.DisplayRound | src/main/java/org/helitha/heartapigame/controllers/PlayScreenController.java:233-289 | correct answer is the hearts count when asking for hearts and the carrots count otherwise; the buttons are enabled only once they hold four distinct options with the correct one exactly once; the countdown starts at once only if the image constructor throws; remaining time and screen unchanged |
| Play.PlayScreenController.ImageSettled | src/main/java/org/helitha/heartapigame/controllers/PlayScreenController.java:240-261 | an image that loads or fails makes the countdown run, with its remaining time unchanged |
| Play.PlayScreenController.Tick | src/main/java/org/helitha/heartapigame/controllers/PlayScreenController.java:146-153 | no effect unless the timeline runs; otherwise exactly one second less, and at zero or below the game ends (timeline stopped, score handed over, leaderboard shown) |
| Play.PlayScreenController.HandleGameOver | src/main/java/org/helitha/heartapigame/controllers/PlayScreenController.java:402-414 | stops the timeline, hands the current score to the saving thread and shows the leaderboard |
| Play.PlayScreenController.CheckAnswer | src/main/java/org/helitha/heartapigame/controllers/PlayScreenController.java:337-400 | the new score is ScoreAfterAnswer of the old score, the difficulty and whether the selection equals the correct answer; always ends in loadNewRound's state; difficulty, timer value and remaining time unchanged |
| Play.PlayScreenController.HandleAnswer | src/main/java/org/helitha/heartapigame/controllers/PlayScreenController.java:317-335 | a click on an enabled button scores that button's number and ends in loadNewRound's state (a running countdown paused, one more fetch, round fields kept); a click on a disabled button changes nothing |
| Play.PlayScreenController.HandleExit | src/main/java/org/helitha/heartapigame/controllers/PlayScreenController.java:441-452 | the countdown is stopped and the home screen shown; remaining time unchanged |
| Play.PlayScreenController.HandleHomeButton | src/main/java/org/helitha/heartapigame/controllers/PlayScreenController.java:454-479 | confirming stops the countdown and shows the home screen; declining plays it again with the remaining time unchanged |
| Play.ScoreAfterAnswer | src/main/java/org/helitha/heartapigame/controllers/PlayScreenController.java:337-400 | a correct answer adds exactly the difficulty's points; a wrong one leaves the score on Easy and otherwise sets it to max(0, score - 1); from a non-negative score the score rises exactly when the answer is correct |
| Play.AskedValue | src/main/java/org/helitha/heartapigame/controllers/PlayScreenController.java:267-273 | the value asked for is the hearts count when asking for hearts and the carrots count otherwise |
| Play.SessionScoreBounds | src/main/java/org/helitha/heartapigame/controllers/PlayScreenController.java:337-400 | over any series of answers from a non-negative start the score stays non-negative and grows by at most the points of the correct answers |
| Play.EasySessionScore | src/main/java/org/helitha/heartapigame/controllers/PlayScreenController.java:364-395 | on Easy the score after a series of answers is the start plus the number of correct answers |
| Play.MediumScenario | src/main/java/org/helitha/heartapigame/controllers/PlayScreenController.java:348-377 | on Medium: correct from 0 gives 3, then wrong gives 2; wrong at 0 stays 0 |
| Play.MediumGame | src/main/java/org/helitha/heartapigame/controllers/PlayScreenController.java:337-400 | a Medium game (with the corrected difficulty selection) has a 30-second countdown; clicking the correct button then a wrong button gives 3 then 2 |
| Play.LateRoundAfterExit | src/main/java/org/helitha/heartapigame/controllers/PlayScreenController.java:204-261 | a fetch launched before the exit still fills the round, and its image restarts the countdown while the home screen is shown |
| AnswerOptions.GenerateAnswerOptions | src/main/java/org/helitha/heartapigame/controllers/PlayScreenController.java:291-307 | exactly four pairwise-distinct options, a permutation of the collected list, the correct value exactly once, every other option one of the draws and in 0..14 |
| AnswerOptions.Shuffle | src/main/java/org/helitha/heartapigame/controllers/PlayScreenController.java:304 | the shuffle only reorders: same length and same multiset |
| AnswerOptions.Collect | src/main/java/org/helitha/heartapigame/controllers/PlayScreenController.java:296-301 | the list the collection loop holds after consuming the draws: it extends the starting list, holds no more than four entries unless it started with more, and every entry is a starting entry or a draw |
| AnswerOptions.CollectShape | src/main/java/org/helitha/heartapigame/controllers/PlayScreenController.java:292-301 | the collection loop keeps the starting list as a prefix, adds only draws, stays duplicate-free and never exceeds four entries |
| AnswerOptions.CollectKeeps | src/main/java/org/helitha/heartapigame/controllers/PlayScreenController.java:296-301 | every drawn value is collected unless the list filled up first |
| AnswerOptions.CollectReachesFour | src/main/java/org/helitha/heartapigame/controllers/PlayScreenController.java:296-301 | three distinct draws other than the correct value are enough for the loop to reach four options, whatever the correct value's range |
| Game.TimerFor | src/main/java/org/helitha/heartapigame/managers/GameManager.java:61-78 | the countdown for a difficulty name is positive and one of 45, 30, 20; it is 45 exactly for names other than Medium and Hard, 30 for Medium and 20 for Hard |
| Game.PointsFor | src/main/java/org/helitha/heartapigame/managers/GameManager.java:97-108 | the points for a difficulty name are positive and one of 1, 3, 5; they are 1 exactly for names other than Medium and Hard, 3 for Medium and 5 for Hard |
| Game.LessTimeMorePoints | src/main/java/org/helitha/heartapigame/managers/GameManager.java:27-35 | the two tables order difficulties the same way: a shorter countdown always comes with more points |
| Game.GameManager.constructor | src/main/java/org/helitha/heartapigame/managers/GameManager.java:37-40 | a new manager is in the reset state: score 0, Easy, 45 seconds |
| Game.GameManager.ResetGame | src/main/java/org/helitha/heartapigame/managers/GameManager.java:52-56 | score 0, difficulty Easy, timer 45 |
| Game.GameManager.SetDifficulty | src/main/java/org/helitha/heartapigame/managers/GameManager.java:61-78 | the name is stored verbatim, the timer is its positive table value, the score is kept |
| Game.GameManager.AddScore | src/main/java/org/helitha/heartapigame/managers/GameManager.java:83-85 | only the score changes, by exactly the argument |
| Game.GameManager.IncrementScore | src/main/java/org/helitha/heartapigame/managers/GameManager.java:90-92 | the same state change as AddScore(1) |
| Game.GameManager.PointsForDifficulty | src/main/java/org/helitha/heartapigame/managers/GameManager.java:97-108 | the points for the stored difficulty, always positive |
| Game.GameManager.SetScore | src/main/java/org/helitha/heartapigame/managers/GameManager.java:124-126 | overwrites the score only |
| Game.GameManager.SetTimerValue | src/main/java/org/helitha/heartapigame/managers/GameManager.java:128-130 | overwrites the timer only |
| Game.GameManager.SelectDifficultyAsWritten | src/main/java/org/helitha/heartapigame/controllers/DifficultyScreenController.java:34-35 | setDifficulty(X) then resetGame() leaves Easy, 45 seconds and score 0 whatever X was |
| Game.GameManager.SelectDifficulty | src/main/java/org/helitha/heartapigame/controllers/DifficultyScreenController.java:44-45 | with reset first, the chosen name and its table timer take effect, with score 0 |
| Game.HardSelectionIsLost | src/main/java/org/helitha/heartapigame/controllers/DifficultyScreenController.java:52-58 | the Hard button, as written, yields Easy's 45 seconds and 1 point instead of Hard's |
| Game.HardSelectionTakesEffect | src/main/java/org/helitha/heartapigame/controllers/DifficultyScreenController.java:54-55 | with the corrected order, a Hard game gets 20 seconds and 5 points |
| Session.GameSession.constructor | src/main/java/org/helitha/heartapigame/managers/GameSession.java:27-33 | a fresh session is neither logged in nor a guest |
| Session.GameSession.IsLoggedIn | src/main/java/org/helitha/heartapigame/managers/GameSession.java:98-100 | logged in exactly when both the user id and the display name are non-null |
| Session.GameSession.SetUser | src/main/java/org/helitha/heartapigame/managers/GameSession.java:50-54 | stores both values, clears the guest flag; logged in exactly when both are non-null |
| Session.GameSession.CreateGuestUser | src/main/java/org/helitha/heartapigame/managers/GameSession.java:65-71 | display name "Guest" plus the guest number 1..9999, id "guest_" plus the clock reading, guest flag set, logged in |
| Session.GameSession.ClearSession | src/main/java/org/helitha/heartapigame/managers/GameSession.java:79-83 | no id, no name, not a guest, not logged in |
| Session.GuestName | src/main/java/org/helitha/heartapigame/managers/GameSession.java:67-68 | starts with "Guest", followed by one to four digits without a leading zero that read back as the guest number |
| Session.GuestUserId | src/main/java/org/helitha/heartapigame/managers/GameSession.java:69 | starts with "guest_"; for a non-negative clock reading the rest is its digits, reading back as that value |
| Session.GuestNamesDiffer | src/main/java/org/helitha/heartapigame/managers/GameSession.java:67-68 | different guest numbers give different guest names |
| Decimal.NatToString | src/main/java/org/helitha/heartapigame/managers/GameSession.java:68 | Java's decimal form of a non-negative number: at least one digit, digits only, no leading zero |
| Decimal.StringToNatOfNatToString | src/main/java/org/helitha/heartapigame/managers/GameSession.java:68 | reading back a rendered number gives the number |
| Decimal.NatToStringInjective | src/main/java/org/helitha/heartapigame/managers/GameSession.java:68 | different numbers render differently |
| Decimal.NatToStringLength | src/main/java/org/helitha/heartapigame/managers/GameSession.java:67-68 | a number below 10^k takes at most k digits |
| Decimal.IntToString | src/main/java/org/helitha/heartapigame/managers/GameSession.java:69 | Java's decimal form of a signed number: a minus sign exactly for negatives, followed by digits that read back as the magnitude |
| Sound.ToggleMuteFlags | src/main/java/org/helitha/heartapigame/managers/SoundManager.java:173-184 | both flags end equal, and the result is muted exactly when the input was not |
| Sound.ToggleTwice | src/main/java/org/helitha/heartapigame/managers/SoundManager.java:173-184 | two toggles restore a state whose flags agree; a mixed state ends fully on |
| Sound.SoundManager.constructor | src/main/java/org/helitha/heartapigame/managers/SoundManager.java:18-23 | both flags start on, so the manager is not muted |
| Sound.SoundManager.IsMuted | src/main/java/org/helitha/heartapigame/managers/SoundManager.java:192-194 | muted exactly when both the music and the sound effects are disabled |
| Sound.SoundManager.ToggleMute | src/main/java/org/helitha/heartapigame/managers/SoundManager.java:173-187 | flags become ToggleMuteFlags of the old flags; the returned value equals isMuted afterwards and is the negation of the old mute state; the player pauses or plays to match |
| Sound.SoundManager.SetMusicEnabled | src/main/java/org/helitha/heartapigame/managers/SoundManager.java:139-147 | sets only the music flag and pauses or plays a loaded player to match |
| Sound.SoundManager.SetSoundEffectsEnabled | src/main/java/org/helitha/heartapigame/managers/SoundManager.java:151-153 | sets only the effects flag |
| Sound.SoundManager.PlayBackgroundMusic | src/main/java/org/helitha/heartapigame/managers/SoundManager.java:83-88 | the music plays only when a player is loaded and music is enabled |
| Sound.SoundManager.StopBackgroundMusic | src/main/java/org/helitha/heartapigame/managers/SoundManager.java:93-98 | a loaded player is stopped; flags unchanged |
| Sound.SoundManager.PauseBackgroundMusic | src/main/java/org/helitha/heartapigame/managers/SoundManager.java:103-107 | a loaded player is paused; flags unchanged |
| Sound.SoundManager.PlayClickSound | src/main/java/org/helitha/heartapigame/managers/SoundManager.java:112-116 | a click is heard exactly when the clip is loaded and sound effects are enabled |
| Leaderboard.SortByScore | src/main/java/org/helitha/heartapigame/controllers/LeaderboardScreenController.java:89 | the sort keeps the length and the multiset of entries |
| Leaderboard.SortByScoreSorted | src/main/java/org/helitha/heartapigame/controllers/LeaderboardScreenController.java:89 | the sorted list has non-increasing scores |
| Leaderboard.SortByScoreStable | src/main/java/org/helitha/heartapigame/controllers/LeaderboardScreenController.java:89 | entries with equal scores keep their fetched relative order |
| Leaderboard.LoadAllScoresSorted | src/main/java/org/helitha/heartapigame/controllers/LeaderboardScreenController.java:86-96 | one row per fetched entry, row i has rank i+1, scores non-increasing, the same multiset of (name, score) pairs as fetched, and for every score the entries with that score in their fetched order |

## Findings

| source | as written | input that shows it | evidently intended | confidence | as-written member | corrected member |
|---|---|---|---|---|---|---|
| src/main/java/org/helitha/heartapigame/controllers/DifficultyScreenController.java:44-45 | each difficulty button calls setDifficulty(X) and then resetGame(), and the reset puts back Easy and 45 seconds | pressing Medium or Hard: the game runs with 45 seconds, 1 point per correct answer and no penalty | the chosen difficulty's timer, points and penalty apply (reset first, then set the difficulty) | high; not executed | Game.GameManager.SelectDifficultyAsWritten, Game.HardSelectionIsLost | Game.GameManager.SelectDifficulty, Game.HardSelectionTakesEffect |

## Left out

- Presentation: labels, colours, button texts, notifications and alert dialogs are not modelled. The quit dialog's answer is the `confirmed` parameter, and the image's progress and error listeners are one "loaded or failed" event.
- Threads, `Platform.runLater` and `Timeline` scheduling are not modelled. Each event is a method call. A fetch result or image event can only follow a launched fetch or image (the `pendingFetches` and `pendingImages` counters), in any order the caller chooses.
- Persistence: `saveScoreToFirebase` is reduced to appending the score to `savedScores`. The player name it reads from the session, and the Firebase call itself, are foreign I/O.
- The remote API call and its JSON decoding are not modelled. A fetch is either a `GameData` value or a failure.
- AnswerOptions.GenerateAnswerOptions requires a draw sequence that lets the loop reach four options. Java keeps drawing forever, which terminates only with probability one. `CollectReachesFour` states when a finite sequence is enough.
- Statistical properties of the random draws (uniform shuffle, uniform guest numbers) are not modelled. Only set and range facts are proved.
- Game.GameManager.AddScore: Java's 32-bit wrap-around of the score is not modelled. Integers are unbounded, and an overflow would need hundreds of millions of correct answers.
- Game.GameManager.SetDifficulty: a null argument, which makes the Java switch throw, is not modelled. Difficulty names are non-null strings.
- Sound volume setters (clamping of doubles) are not modelled, and neither is the loading of media resources. A loaded player or clip is a constructor parameter.
- The getters of the managers are plain field reads of the Dafny classes.
- The `LeaderboardEntry` class and `FirebaseService.getAllScores` are not part of this model. The fetched scores are an input sequence of (username, score) entries.
- Screen navigation, the application bootstrap, login, registration and the other thin screen controllers are not modelled. Only the difficulty screen's call order is kept (`SelectDifficultyAsWritten`).
