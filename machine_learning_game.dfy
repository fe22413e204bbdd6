/** The "teach the pet" presenter. The only one of the three that reports
    whether the answer was right: Continue sends `(100, isCorrect)`. */
module MachineLearning {
  import opened LevelTypes
  import opened StepPresenter

  /** `handleContinue`: a nominal score of 100 together with the grade of the
      current selection. */
  function ContinueCompletion(step: GameStep, s: AnswerState): (c: Completion)
    ensures c.score == 100 && c.isCorrect.Some?
    ensures c.isCorrect.value <==> s.selectedAnswer.Some? && step.correctAnswer == s.selectedAnswer
  {
    Completion(100, Some(Matches(step.correctAnswer, s.selectedAnswer)))
  }

  /** `handleIntroOrExplanationContinue`: 100 and no correctness flag. */
  const AcknowledgeCompletion := Completion(100, None)

  /** `step.correctAnswer || 0`: zero when the correct answer is absent (and,
      trivially, when it is zero). */
  function CorrectOrZero(step: GameStep): int {
    match step.correctAnswer
    case None => 0
    case Some(c) => c
  }

  /** `step.options?.[step.correctAnswer || 0]`: the option revealed as the
      right one after a wrong answer; `undefined` when there are no options
      or the index is outside them. */
  function RevealedOption(step: GameStep): (r: Option<string>)
    ensures r.Some? <==> step.options.Some? && 0 <= CorrectOrZero(step) < |step.options.value|
    ensures step.options.Some? && step.correctAnswer.Some? && 0 <= step.correctAnswer.value < |step.options.value|
            ==> r == Some(step.options.value[step.correctAnswer.value])
  {
    match step.options
    case None => None
    case Some(opts) =>
      var k := CorrectOrZero(step);
      if 0 <= k < |opts| then Some(opts[k]) else None
  }

  /** The "correct answer was" box is inside the result panel and only shown
      for a wrong selection. */
  predicate RevealShown(step: GameStep, s: AnswerState) {
    ResultShown(step, s) && !Matches(step.correctAnswer, s.selectedAnswer)
  }

  /** The "correct answer was" box appears only after a wrong answer, and on
      a step whose correct answer indexes its options it names that option. */
  lemma RevealShownAfterWrongAnswer(step: GameStep, s: AnswerState)
    requires Reachable(s)
    ensures RevealShown(step, s) ==> s.hasAnswered && s.selectedAnswer.Some? && s.selectedAnswer != step.correctAnswer
    ensures ResultShown(step, s) && s.selectedAnswer != step.correctAnswer ==> RevealShown(step, s)
    ensures RevealShown(step, s) && step.options.Some? && step.correctAnswer.Some? &&
            0 <= step.correctAnswer.value < |step.options.value| ==>
            RevealedOption(step) == Some(step.options.value[step.correctAnswer.value])
  {
  }

  /** The completion a user produces on a freshly mounted presenter: the
      acknowledgement on an intro or explanation step; on a graded step,
      pressing option `choice` and then Continue, which exists only when the
      option button and the result panel do. */
  function UserCompletion(step: GameStep, choice: int): (r: Option<Completion>)
    ensures IsInformational(step.stepType) ==> r == Some(AcknowledgeCompletion)
    ensures IsGraded(step.stepType) ==>
      (r.Some? <==> ChoiceEnabled(step, Fresh, choice) && HasExplanation(step))
    ensures IsGraded(step.stepType) && r.Some? ==>
      r.value.score == 100 && r.value.isCorrect == Some(step.correctAnswer == Some(choice))
  {
    if IsInformational(step.stepType) then Some(AcknowledgeCompletion)
    else
      var s := Answer(Fresh, choice);
      if ChoiceEnabled(step, Fresh, choice) && ResultShown(step, s) then Some(ContinueCompletion(step, s))
      else None
  }

  class MachineLearningGame {
    const step: GameStep
    var selectedAnswer: Option<int>
    var showResult: bool
    var hasAnswered: bool

    function State(): AnswerState
      reads this
    {
      AnswerState(selectedAnswer, showResult, hasAnswered)
    }

    ghost predicate Valid()
      reads this
    {
      Reachable(State())
    }

    /** A presenter is mounted afresh for every step. */
    constructor(step: GameStep)
      ensures this.step == step && Valid() && State() == Fresh
    {
      this.step := step;
      selectedAnswer, showResult, hasAnswered := None, false, false;
    }

    method HandleAnswer(answerIndex: int)
      requires Valid()
      modifies this
      ensures Valid()
      ensures State() == Answer(old(State()), answerIndex)
    {
      if hasAnswered {
        return;
      }
      selectedAnswer := Some(answerIndex);
      showResult := true;
      hasAnswered := true;
    }

    /** `isCorrect` as the graded view derives it on every render. */
    function IsCorrect(): (r: bool)
      reads this
      requires Valid()
      ensures r ==> hasAnswered && selectedAnswer == step.correctAnswer
      ensures hasAnswered && selectedAnswer == step.correctAnswer ==> r
    {
      Matches(step.correctAnswer, selectedAnswer)
    }

    method HandleContinue() returns (c: Completion)
      requires Valid()
      ensures c == ContinueCompletion(step, State())
      ensures c.isCorrect == Some(IsCorrect())
    {
      var isCorrect := Matches(step.correctAnswer, selectedAnswer);
      c := Completion(100, Some(isCorrect));
    }

    method HandleIntroOrExplanationContinue() returns (c: Completion)
      ensures c == AcknowledgeCompletion
    {
      c := Completion(100, None);
    }
  }
}
