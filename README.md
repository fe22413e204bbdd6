# Kids AI playground: level progression and scoring

This project models the part of the SmartPlay Academy web app that has
behaviour under its markup. The app teaches AI concepts through levels. A
level is a fixed list of steps: intro, activity, explanation and quiz.

- **Level catalog** (`levels.dfy`, module `Levels`). The three shipped levels,
  kept as constant data, with lemmas that the catalog is well formed.
- **Step presenters** (`step_presenter.dfy`, `machine_learning_game.dfy`,
  `problem_solving_game.dfy`, `pattern_game.dfy`). Each presenter shows one
  step. It is a class with the three state variables `selectedAnswer`,
  `showResult` and `hasAnswered`. An answer is one-shot. The presenters differ
  in what they send to the runner:
  - machine learning: `(100, isCorrect)` on Continue;
  - problem solving: 100 or 75 on Continue, with no correctness flag;
  - pattern: 100 or 50 as soon as an option is chosen, with no correctness flag.
- **Level runner** (`level_runner.dfy`, module `LevelRunner`). The class
  `GameLevel` holds the four state variables of the React component and walks
  the steps. The pure function `Transition` specifies one step completion. The
  runner counts graded steps and the correct answers among them. On the last
  step it reports `stars * 100`: 1 star when something was graded and nothing
  was correct, 5 when nothing was graded or every graded answer was correct,
  and 3 otherwise.
- **Hub page** (`index_page.dfy`, module `IndexPage`). The class `Index` holds
  the open level id and the set of completed level ids.
- **Whole plays** (`play_through.dfy`, module `PlayThrough`). These lemmas
  join the user's choices, a fresh presenter per step, the runner and the
  catalog.

Two behaviours of the code as written are modelled faithfully and proved:

- The score sent to the hub is computed from the counters of the last render.
  The increments for the final step's own answer are not yet applied. The
  completion screen is rendered afterwards, from the updated counters. So the
  reported stars leave out the final quiz, while the screen counts it
  (`LevelRunner.FullRunStars`). On level 3, with the activity right and the
  quiz wrong, the report says 500 and the screen shows 3 stars
  (`PlayThrough.Level3ReportDiffersFromScreen`).
- Only the machine-learning presenter passes a correctness flag. So levels 1
  and 2 never count a correct answer and always report 100. Level 3 reports
  500 exactly when its activity was answered correctly. A report of 300 cannot
  happen with the shipped catalog (`PlayThrough.NoThreeStarReport`).

A step has one `explanation` text and no separate text for a wrong answer:
after a wrong answer the presenters show the same explanation, and only the
machine-learning presenter adds the option it reveals as correct.

## Model

| member | source | states |
|---|---|---|
| `StepPresenter.Answer` | src/components/games/MachineLearningGame.tsx:18-24 | The first answer records the index and sets `showResult` and `hasAnswered`. Any later answer is ignored. Reachable presenter states stay reachable. |
| `StepPresenter.AnswerIsOneShot` | src/components/games/ProblemSolvingGame.tsx:18-23 | Answering a second time leaves the state of the first answer unchanged. |
| `StepPresenter.Matches` | src/components/games/MachineLearningGame.tsx:66 | `step.correctAnswer === selectedAnswer` holds exactly when both are numbers and equal. An absent correct answer never matches, and neither does a missing selection. |
| `StepPresenter.FreshIsNotCorrect` | src/components/games/MachineLearningGame.tsx:14 | Before any answer the selection is `null`, so it grades as wrong. |
| `StepPresenter.ResultShownOnlyAfterAnswer` | src/components/games/PatternGame.tsx:102 | The result panel, with its explanation and any Continue button, appears only after an answer. Once it appears, the option buttons are disabled. |
| `MachineLearning.ContinueCompletion` | src/components/games/MachineLearningGame.tsx:26-29 | Continue reports score 100 with a flag that is true exactly when the selection equals the correct answer. |
| `MachineLearning.RevealedOption` | src/components/games/MachineLearningGame.tsx:137-145 | The option shown as correct is `options[correctAnswer or 0]`. It is absent when there are no options or the index is outside them. It is the correct option when that index is in range. |
| `MachineLearning.RevealShownAfterWrongAnswer` | src/components/games/MachineLearningGame.tsx:137-145 | The "correct answer was" box appears exactly when the result panel is shown and the selection differs from the correct answer, so only after a wrong answer. On a step whose correct answer indexes its options, the option it names is that correct option. |
| `MachineLearning.UserCompletion` | src/components/games/MachineLearningGame.tsx:31-35 | Intro and explanation steps complete with 100 and no flag. A graded step completes only when the chosen button exists and the step has an explanation, which is what makes Continue appear. It then completes with 100 and the correctness of the choice. |
| `MachineLearning.MachineLearningGame.constructor` | src/components/games/MachineLearningGame.tsx:14-16 | A mounted presenter starts unanswered. |
| `MachineLearning.MachineLearningGame.HandleAnswer` | src/components/games/MachineLearningGame.tsx:18-24 | The fields change as `Answer` says: one-shot. |
| `MachineLearning.MachineLearningGame.IsCorrect` | src/components/games/MachineLearningGame.tsx:66 | `isCorrect` holds exactly when an answer was given and it equals the correct answer. |
| `MachineLearning.MachineLearningGame.HandleContinue` | src/components/games/MachineLearningGame.tsx:26-29 | Emits `(100, isCorrect)` for the current selection. |
| `MachineLearning.MachineLearningGame.HandleIntroOrExplanationContinue` | src/components/games/MachineLearningGame.tsx:31-33 | Emits 100 with no correctness flag. |
| `ProblemSolving.Score` | src/components/games/ProblemSolvingGame.tsx:30-31 | The score is 100 exactly when the selection is correct, and 75 otherwise. |
| `ProblemSolving.ContinueCompletion` | src/components/games/ProblemSolvingGame.tsx:29-33 | Continue reports 100 or 75 and never a correctness flag. |
| `ProblemSolving.UserCompletion` | src/components/games/ProblemSolvingGame.tsx:35-39 | Intro and explanation steps complete with 100. A graded step completes only via the Continue button in the result panel: the chosen button must exist and the step must have an explanation. There is never a correctness flag. |
| `ProblemSolving.ProblemSolvingGame.constructor` | src/components/games/ProblemSolvingGame.tsx:14-16 | A mounted presenter starts unanswered. |
| `ProblemSolving.ProblemSolvingGame.HandleAnswer` | src/components/games/ProblemSolvingGame.tsx:18-27 | One-shot state change that emits nothing; the score it computes is dropped. |
| `ProblemSolving.ProblemSolvingGame.HandleContinue` | src/components/games/ProblemSolvingGame.tsx:29-33 | Emits the 100/75 score of the current selection with no flag. |
| `ProblemSolving.ProblemSolvingGame.HandleIntroOrExplanationContinue` | src/components/games/ProblemSolvingGame.tsx:35-37 | Emits 100 with no flag. |
| `Pattern.AnswerCompletion` | src/components/games/PatternGame.tsx:25-29 | The scheduled completion is 100 exactly when the answer is correct, and 50 otherwise. It has no flag. |
| `Pattern.UserCompletion` | src/components/games/PatternGame.tsx:33-37 | Intro and explanation steps complete with 100. A graded step completes with the answer's own completion as soon as an existing option is chosen. No explanation is needed. |
| `Pattern.PatternGame.constructor` | src/components/games/PatternGame.tsx:14-16 | A mounted presenter starts unanswered. |
| `Pattern.PatternGame.HandleAnswer` | src/components/games/PatternGame.tsx:18-31 | The first answer records the choice and schedules its completion. Later answers change nothing and schedule nothing. |
| `Pattern.PatternGame.HandleContinue` | src/components/games/PatternGame.tsx:33-35 | Emits 100 with no flag. |
| `Pattern.PatternGame.ExplanationShown` | src/components/games/PatternGame.tsx:102 | On a graded step the explanation panel is shown exactly when an answer was given and the step has an explanation; when shown, a selection is recorded. |
| `Pattern.AnswerTwice` | src/components/games/PatternGame.tsx:19 | Two answers on one presenter schedule exactly one completion, the first answer's. |
| `LevelRunner.Stars` | src/components/GameLevel.tsx:77-80 | The rating is 1, 3 or 5. It is 1 exactly when something was graded and nothing was correct. It is 5 exactly when nothing was graded or every graded answer was correct. |
| `LevelRunner.StarsMatchAccuracy` | src/components/GameLevel.tsx:77-80 | The integer rule agrees with the source's rule on the ratio `correct / total`, or 1 when nothing was graded: 0 gives 1 star, below 1 gives 3, otherwise 5. |
| `LevelRunner.Transition` | src/components/GameLevel.tsx:59-86 | Intro and explanation steps leave both counters unchanged. A graded step adds one question, plus one correct answer exactly when the flag is true. A non-final step advances the index by one, leaves `isComplete` alone and reports nothing. The final step sets `isComplete` and reports `100 * Stars` of the counters from before this step. `correctAnswers <= totalQuestions` and the index bound are preserved. |
| `LevelRunner.DisplayedStars` | src/components/GameLevel.tsx:100-103 | The completion screen's rating is 1, 3 or 5, computed from the updated counters. |
| `LevelRunner.PresenterCompletion` | src/components/GameLevel.tsx:28-57 | The presenter is chosen by game type. Only the machine-learning presenter can pass a correctness flag. Intro and explanation steps always complete with 100. |
| `LevelRunner.AdvanceRemountsPresenter` | src/components/GameLevel.tsx:33 | Every advance changes the presenter key (level id and step index), so each step gets a freshly mounted presenter. |
| `LevelRunner.StepScoreIgnored` | src/components/GameLevel.tsx:59 | The step score passed by a presenter has no effect on the runner. |
| `LevelRunner.ReportLagsDisplay` | src/components/GameLevel.tsx:75-85 | The final step always produces a report. When that step is not graded, the report agrees with the completion screen. |
| `LevelRunner.GradedCount` | src/components/GameLevel.tsx:62-64 | The number of graded steps is at most the number of steps. |
| `LevelRunner.CorrectCount` | src/components/GameLevel.tsx:65-67 | The number of correctly answered graded steps is at most the number of graded steps. |
| `LevelRunner.Run` | src/components/GameLevel.tsx:70-74 | Feeding events keeps the step index inside the level. |
| `LevelRunner.RunFromStart` | src/components/GameLevel.tsx:20-25 | From the start, after k events with k below the step count, the runner is on step k, not complete, with no report. After exactly as many events as steps it is complete on the last step with exactly one report. The counters count the graded steps seen and the correct answers among them. |
| `LevelRunner.FullRunStars` | src/components/GameLevel.tsx:64-66 | After a whole level, the screen rates all graded steps, while the single report rates all but the last step. |
| `LevelRunner.GameLevel.constructor` | src/components/GameLevel.tsx:20-23 | A runner starts on step 0 with zero counters, not complete. |
| `LevelRunner.GameLevel.HandleStepComplete` | src/components/GameLevel.tsx:59-86 | The fields and the emitted report are exactly those of `Transition`; the runner's invariant is kept. |
| `LevelRunner.GameLevel.StarsShown` | src/components/GameLevel.tsx:100-108 | The number of lit stars on the completion screen is 1, 3 or 5. |
| `IndexPage.Find` | src/pages/Index.tsx:25 | The lookup finds nothing exactly when no level has the id. Otherwise it returns the first level with that id. |
| `IndexPage.FindMember` | src/pages/Index.tsx:25-26 | With unique ids, looking up any level's id returns that level. |
| `IndexPage.ProgressStars` | src/pages/Index.tsx:65 | The progress stars are `min(5, count)`. |
| `IndexPage.ProgressStarsCountCompleted` | src/pages/Index.tsx:61-65 | Completed levels come from the three-level catalog, so the count is at most 3 and the stars shown equal it. |
| `IndexPage.Index.constructor` | src/pages/Index.tsx:11-12 | No level is open and none is completed. |
| `IndexPage.Index.Screen` | src/pages/Index.tsx:24-35 | A level is played exactly when the open id names a catalog level, and the played level has that id. Otherwise the level selection is shown. |
| `IndexPage.Index.OnPlay` | src/pages/Index.tsx:92 | A card opens its own level, which the hub then plays. The completed set is unchanged. |
| `IndexPage.Index.HandleLevelComplete` | src/pages/Index.tsx:14-18 | The level id joins the completed set, so its card is marked completed, and the selection is shown again. No card loses its mark. A repeated completion leaves the set unchanged. Catalog-only completions keep the set within the catalog. |
| `IndexPage.Index.HandleBackToLevels` | src/pages/Index.tsx:20-22 | Returns to the selection and leaves the completed set unchanged. |
| `IndexPage.Index.IsCompleted` | src/pages/Index.tsx:91 | A level card is marked completed only for a catalog level (ids 1, 2 and 3). `HandleLevelComplete` marks its level and unmarks none. |
| `IndexPage.Index.ProgressCount` | src/pages/Index.tsx:61 | The progress count is at most the catalog size, and it equals the number of stars shown. |
| `Levels.CatalogIds` | src/data/levels.ts:6-90 | The catalog's ids are 1, 2 and 3. |
| `Levels.Level1WellFormed` | src/data/levels.ts:14-45 | Level 1's four steps are intro, activity, explanation, quiz. Each graded step has options, an in-range correct answer and an explanation, and the others have neither options nor a correct answer. |
| `Levels.Level2WellFormed` | src/data/levels.ts:56-87 | The same shape holds for level 2. |
| `Levels.Level3WellFormed` | src/data/levels.ts:98-129 | The same shape holds for level 3. |
| `Levels.CatalogWellFormed` | src/data/levels.ts:4-131 | The ids are unique, every level has that four-step shape ending in a quiz, and the game types are pattern, problem solving and machine learning in that order. |
| `PlayThrough.CatalogCompletable` | src/data/levels.ts:26-28 | On a catalog level, any choice of existing buttons completes every step. |
| `PlayThrough.NoFlagNoCorrect` | src/components/games/PatternGame.tsx:29 | On pattern and problem-solving levels no answer is ever counted as correct. |
| `PlayThrough.OneGradedBeforeQuiz` | src/data/levels.ts:14-45 | In the intro, activity, explanation, quiz shape, exactly one graded step precedes the final quiz. |
| `PlayThrough.Level1AlwaysReports100` | src/components/games/PatternGame.tsx:25-30 | Every play of level 1 sends exactly one report, of score 100. |
| `PlayThrough.Level2AlwaysReports100` | src/components/games/ProblemSolvingGame.tsx:29-33 | Every play of level 2 sends exactly one report, of score 100. |
| `PlayThrough.Level3ReportsActivityOnly` | src/components/GameLevel.tsx:75-85 | Every play of level 3 reports 500 if and only if the activity was answered correctly, and 100 otherwise. The quiz answer has no effect. |
| `PlayThrough.NoThreeStarReport` | src/components/GameLevel.tsx:77-84 | No play of a shipped level reports 300. |
| `PlayThrough.Level3ReportDiffersFromScreen` | src/components/GameLevel.tsx:100-103 | Level 3 with the activity right and the quiz wrong reports 500 while its completion screen shows 3 stars. |

## Left out

- Rendering, CSS classes, icons, emoji and animations are not modelled; only
  which controls exist and what their handlers do.
- The `setTimeout` delays (1 s before an advance, 2 s before the report, 2 s
  before a pattern answer's completion) are modelled as immediate. Under that
  reading a second Continue press during the advance delay is not modelled; in
  the running app it would reach the runner again and count the same graded
  step twice.
- Back navigation that unmounts a runner while a timer is pending is not
  modelled, for the same reason.
- `LevelRunner.Transition` accepts events after completion. The app never
  delivers any, because the completion screen replaces the presenter.
- `LevelRunner.StarsMatchAccuracy` compares exact ratios, not IEEE
  floating-point division. The two agree for any counters this app can reach.
- `LevelRunner.PresenterKey` is the pair (level id, step index) rather than the
  string `${level.id}-${currentStep}`. The string is injective for the app's
  non-negative ids and indices.
- The floating-point progress percentage and the "Step n of N" badge are
  display only and not modelled.
- The score passed to `handleLevelComplete` is only logged; the log is not
  modelled.
- Saving completions, authentication (`src/pages/Auth.tsx`) and the level
  card (`src/components/LevelCard.tsx`) are not part of this model.
- The comic panels of a step are kept as an optional field; no shipped step
  has one and no component reads it.
- The test files describe a pattern presenter with a Continue button and
  messages that the component does not have; the model follows the component.
