/** What the three step presenters have in common: the one-shot answer
    state (`selectedAnswer`, `showResult`, `hasAnswered`), the completion
    event they send to the level runner, and the strict equality they use
    to grade a selection. */
module StepPresenter {
  import opened LevelTypes

  /** The three state variables of a presenter instance. */
  datatype AnswerState = AnswerState(selectedAnswer: Option<int>, showResult: bool, hasAnswered: bool)

  /** The state of a freshly mounted presenter. */
  const Fresh := AnswerState(None, false, false)

  /** The arguments of one `onStepComplete(score, isCorrect?)` call. */
  datatype Completion = Completion(score: int, isCorrect: Option<bool>)

  /** The only states a presenter can be in: fresh, or answered with the
      selection recorded and the result revealed. */
  predicate Reachable(s: AnswerState) {
    s == Fresh || (s.hasAnswered && s.showResult && s.selectedAnswer.Some?)
  }

  /** `handleAnswer(answerIndex)`: ignored once an answer was given,
      otherwise records the answer and reveals the result. */
  function Answer(s: AnswerState, answerIndex: int): (r: AnswerState)
    ensures Reachable(s) ==> Reachable(r)
    ensures r.hasAnswered
    ensures s.hasAnswered ==> r == s
    ensures !s.hasAnswered ==> r.selectedAnswer == Some(answerIndex)
  {
    if s.hasAnswered then s
    else AnswerState(Some(answerIndex), true, true)
  }

  /** `step.correctAnswer === selected`, where the left side is a number or
      `undefined` and the right side a number or `null`: strict equality
      holds only when both are numbers and equal. */
  function Matches(correctAnswer: Option<int>, selected: Option<int>): (r: bool)
    ensures r <==> correctAnswer.Some? && selected == Some(correctAnswer.value)
  {
    match correctAnswer
    case None => false
    case Some(c) => selected.Some? && selected.value == c
  }

  /** Whether the option buttons can be pressed: the step shows options
      (`step.options &&`) and no answer was given yet (`disabled={hasAnswered}`). */
  predicate ChoiceEnabled(step: GameStep, s: AnswerState, index: int) {
    IsGraded(step.stepType) && step.options.Some? && 0 <= index < |step.options.value| && !s.hasAnswered
  }

  /** Whether the result panel is on screen: `showResult && step.explanation`. */
  predicate ResultShown(step: GameStep, s: AnswerState) {
    IsGraded(step.stepType) && s.showResult && HasExplanation(step)
  }

  /** A second answer changes nothing: the first one is locked in. */
  lemma AnswerIsOneShot(s: AnswerState, i: int, j: int)
    ensures Answer(Answer(s, i), j) == Answer(s, i)
    ensures Answer(s, i).selectedAnswer == Answer(Fresh, i).selectedAnswer || s.hasAnswered
  {
  }

  /** Before any answer nothing is selected, so the selection grades as wrong
      whatever the step's correct answer is. */
  lemma FreshIsNotCorrect(step: GameStep)
    ensures !Matches(step.correctAnswer, Fresh.selectedAnswer)
  {
  }

  /** The result panel appears only after an answer, and every reachable
      state with the panel shown holds a selection. */
  lemma ResultShownOnlyAfterAnswer(step: GameStep, s: AnswerState)
    requires Reachable(s)
    ensures ResultShown(step, s) ==> s.hasAnswered && s.selectedAnswer.Some?
    ensures ResultShown(step, s) ==> forall i :: !ChoiceEnabled(step, s, i)
  {
  }
}
