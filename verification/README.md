# Math Adventure Quest — a Dafny model of the game engine

Math Adventure Quest is a browser quiz game for children with ten levels of
six arithmetic questions. Each level card carries one of three labels
(`getLevelDescription`): addition/subtraction for levels 1-3,
multiplication/division for levels 4-6 and word problems for levels 7-10;
the questions under a label need not all be of that kind. A level is
cleared by answering all six questions right in a row. A wrong answer restarts the
level with the questions reshuffled. The first clear of a level earns its
star, and the tenth star earns the one reward ticket.

This project models the engine of `script.js`:

- `shuffle.dfy` (module `Shuffle`): the Fisher–Yates shuffle `shuffleArray`.
  It is an in-place loop over an array, proved against the function
  `FisherYates`. The function is shown to give a rearrangement of its input,
  to reach every rearrangement, and, on distinct elements, to give
  different orders for different draws.
- `questions.dfy` (module `Questions`): the question bank `questionDatabase`,
  the option shuffle of `showQuestion`, and the answer test of
  `selectAnswer`.
- `progression.dfy` (module `Progression`): the progress part of
  `gameState` as a value. It holds `startLevel` and `finishLevel` on that
  value, the lock and card rules of `generateLevelGrid`, and
  `getLevelDescription`.
- `game.dfy` (module `Game`): `gameState` as a class. Its methods are the
  handlers `toggleSound`, `startLevel`, `showQuestion`, `selectAnswer`
  (together with the feedback that follows it), `nextQuestion`,
  `finishLevel`, `restartLevel` and the level-card click. The
  state-changing methods are stated against the value functions of
  `Progression`.

Randomness is a parameter. `Math.floor(Math.random() * (i + 1))` at loop
index `i` becomes `picks[i]`, with `0 <= picks[i] <= i` (`ValidPicks`). This
makes every shuffle a function of its draws.

`startLevel` assigns `currentLevel = level` (script.js:219), so starting an
earlier level moves the frontier back. An unstarred later level is then
locked again, until an open level just before it is finished: finishing
level k makes k + 1 the frontier (script.js:315). `Start`
sets the frontier to the chosen level, and `StartRelocks` states the
consequence.

## Model

| member | source | states |
|---|---|---|
| Shuffle.ShuffleArray | script.js:168-175 | The in-place loop on a copy returns exactly `FisherYates(input, picks)`, has the input's length and is a rearrangement of it. The input is untouched. |
| Shuffle.FisherYatesPermutes | script.js:168-175 | The shuffle neither loses nor adds an element: the multiset of the result is the multiset of the input. |
| Shuffle.SwapPermutes | script.js:172 | The destructuring swap of two positions leaves the multiset of elements unchanged. |
| Shuffle.EveryPermutationReachable | script.js:168-175 | Every rearrangement of the input is the outcome of some valid sequence of draws. |
| Shuffle.DrawsDetermined | script.js:168-175 | On distinct elements, two draw sequences that give the same order agree on every draw used. Draws and orders therefore correspond one to one. |
| Shuffle.FisherYatesUsesFirstDraws | script.js:170-171 | The shuffle of n elements depends only on the draws made at indices below n. |
| Shuffle.IndexOf | script.js:247 | `indexOf` gives -1 exactly when the value is absent. Otherwise it gives a position holding the value, with no earlier occurrence. |
| Questions.LevelQuestions | script.js:84-165 | `questionDatabase[level] \|\| []` is non-empty exactly for levels 1 to 10, and each level has six questions. |
| Questions.CatalogWellFormed | script.js:84-165 | Every stored question has four distinct options and a stored right-answer position inside them. |
| Questions.ShuffledLevelWellFormed | script.js:220-221 | The shuffled questions of a level are a rearrangement of the stored ones, and every one of them can be answered. |
| Questions.DisplayKeepsAnswer | script.js:241-247 | After the option shuffle, the options shown are a rearrangement of the stored ones. The recomputed `newCorrectIndex` is a valid position holding the stored right answer. |
| Questions.PresentQuestion | script.js:237-247 | The option-shuffle code (copy, remember the answer, shuffle, `indexOf`) produces the screen `Display` describes: a rearrangement with the correct index on the right answer. |
| Questions.JudgedByValue | script.js:262-264 | Judging by position (`selectedIndex === correctIndex`) agrees with judging by value: the chosen button is right exactly when it shows the stored answer. |
| Questions.RearrangedStaysDistinct | script.js:241-246 | Shuffling distinct options keeps them distinct, so exactly one button shows the right answer. |
| Progression.InitialConsistent | script.js:2-10 | The initial state (level 1, no stars, no ticket, ten unset flags) satisfies the progress invariant. |
| Progression.CardFor | script.js:186-206 | A card is Completed exactly when the level has its star. It is Locked exactly when the level lies past the frontier and has no star. It is Current exactly when it is the unstarred frontier level. |
| Progression.UnlockedLevels | script.js:186-206 | A starred level, or any level up to the frontier, is never locked. |
| Progression.Start | script.js:218-219 | Setting the frontier to any level keeps progress consistent. |
| Progression.StartRelocks | script.js:187-188 | After starting an earlier level, a later level is locked exactly when it has no star. |
| Progression.FinishKeepsConsistent | script.js:302-317 | Finishing a level keeps the invariant: stars equal the number of set flags, and the ticket is held exactly when all ten are set. |
| Progression.FinishStarsLevel | script.js:303-307 | After finishing, the finished level's flag is set and no other flag changed. A first completion adds exactly one star and a replay adds none. |
| Progression.FinishGrantsTicket | script.js:303-313 | A finish grants a ticket exactly when it is the first completion of a level while nine stars were held. A replay changes neither flags, stars nor tickets. |
| Progression.FinishAdvancesFrontier | script.js:315 | The frontier moves one level on, and stays at 10 after the last level. The next level is then open. |
| Progression.TicketAtMostOnce | script.js:309-312 | At most one ticket is ever held, and one is held exactly when every level is starred. |
| Progression.TicketMeansAllStarred | script.js:309-312 | From a state without a ticket, a finish yields the ticket exactly when afterwards all ten levels are starred. |
| Progression.FirstCompletion | script.js:302-317 | On a fresh session, finishing the chosen level stars only that level, gives one star and no ticket, and unlocks the next level. |
| Progression.DescriptionBands | script.js:212-216 | `getLevelDescription` gives two levels the same label exactly when they lie in the same band: 1-3, 4-6 or 7 and up. |
| Game.ViewAt | script.js:230-247 | There is a screen exactly when the cursor is on a question. It shows the level, number = cursor + 1, total = number of questions and the prompt. Its options are a rearrangement with the correct index on the right answer. |
| Game.GameState.constructor | script.js:2-10 | The fresh state is the initial progress, with no questions, cursor 0 and sound on, and it satisfies the invariant. |
| Game.GameState.ToggleSound | script.js:76-81 | Sound flips, the icon returned is 🔊 exactly when sound is now on and 🔇 otherwise, and nothing else changes. |
| Game.GameState.ShowQuestion | script.js:230-247 | The screen is `ViewAt` for the current level, questions and cursor, and is nothing past the last question. |
| Game.GameState.StartLevel | script.js:218-228 | The progress becomes `Start(old, level)`. The questions are the level's questions shuffled by the draws, the cursor is 0, and the first question is shown. The invariant is kept. |
| Game.GameState.RestartLevel | script.js:319-321 | Progress is unchanged, the level's questions are reshuffled, the cursor is back at 0, and the first question is shown. |
| Game.GameState.SelectAnswer | script.js:262-293 | The verdict is `selectedIndex === correctIndex`. A right answer changes nothing. A wrong one restarts the level with progress kept. |
| Game.GameState.NextQuestion | script.js:295-300 | The cursor moves on and the questions and sound switch stay. Either the next question is shown with progress unchanged, or after the last one the progress becomes `Finish(old)`. |
| Game.GameState.FinishLevel | script.js:302-317 | Progress becomes `Finish(old)` and the invariant is kept. The reward window opens exactly when a ticket was added. |
| Game.GameState.ChooseLevel | script.js:204-206 | A click starts the level exactly when its card is not locked: progress becomes `Start(old, level)`, the questions are the level's shuffled by the draws, the cursor is 0 and the first question is shown. A locked card leaves progress, questions and cursor as they were. The sound switch stays either way. |
| Game.AnswerRightThenGoOn | script.js:262-300 | Pressing the button that shows the stored right answer (found by value) returns the verdict "right". The cursor then moves on as `nextQuestion` does, showing the next question with its own draws, and the sound switch is kept. |
| Game.PlayFromFreshGame | script.js:182-317 | On a fresh game a click on any card but level 1's changes nothing. Level 1 clicked and all six questions answered right, each with its own option draws, leaves only level 1 starred, one star, no ticket, and level 2 current. |

## Left out

- Sound, the Web Audio cues and the sound indicator are left out; the sound flag is modelled only as a switch.
- The page itself is left out: screens, buttons, button disabling, CSS classes, the reward and ticket windows (`showRewardModal`, `showTickets` and their close handlers), and `updateDisplay`. `FinishLevel` returns whether the reward window opens.
- Timers are left out. The 900 ms feedback delay, the 1.5 s restart delay and the 1.2 s reward delay become immediate sequential steps, so interleavings with clicks during those delays are not modelled.
- `Math.random` is replaced by explicit draws. Uniformity is not modelled; `DrawsDetermined` and `EveryPermutationReachable` give, on distinct elements, the one-to-one correspondence that uniformity would rest on.
- The progress bar percentage is left out (`updateDisplay` computes it with floating point).
- The arithmetic in the prompt texts is left out. Prompts are opaque strings, and the stored right answer is taken as given.
- The option shuffle in `showQuestion` (script.js:243-246) repeats the loop of `shuffleArray`, so it is modelled by `ShuffleArray` itself.
- Game.GameState.StartLevel requires a level from 1 to 10. The only callers are the level grid and `restartLevel`, and both pass such a level. The `|| []` fallback is still modelled in `LevelQuestions`.
- Game.GameState.NextQuestion requires the cursor to be on a question. Its only caller is the "next" button of a question's feedback.
- `initializeGame` and `backToLevels` only redraw the page and are left out.
