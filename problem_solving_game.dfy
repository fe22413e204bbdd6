/** The problem-solving presenter. Continue reports 100 for a right answer
    and 75 for a wrong one, and never tells the runner which it was: its
    callback takes a score only. */
module ProblemSolving {
  import opened LevelTypes
  import opened StepPresenter

  /** The partial-credit score of a selection: 100 if right, else 75. */
  function Score(step: GameStep, selected: Option<int>): (r: int)
    ensures r == 100 || r == 75
    ensures r == 100 <==> selected.Some? && step.correctAnswer == selected
  {
    if Matches(step.correctAnswer, selected) then 100 else 75
  }

  /** `handleContinue`: the score of the selection, no correctness flag. */
  function ContinueCompletion(step: GameStep, s: AnswerState): (c: Completion)
    ensures c.isCorrect == None
    ensures c.score == 100 <==> s.selectedAnswer.Some? && step.correctAnswer == s.selectedAnswer
    ensures c.score != 100 ==> c.score == 75
  {
    Completion(Score(step, s.selectedAnswer), None)
  }

  /** `handleIntroOrExplanationContinue`: 100 and no correctness flag. */
  const AcknowledgeCompletion := Completion(100, None)

  /** The completion a user produces on a freshly mounted presenter: the
      acknowledgement on an intro or explanation step; on a graded step,
      pressing option `choice` and then Continue, which is inside the result
      panel and so needs an explanation. */
  function UserCompletion(step: GameStep, choice: int): (r: Option<Completion>)
    ensures IsInformational(step.stepType) ==> r == Some(AcknowledgeCompletion)
    ensures IsGraded(step.stepType) ==>
      (r.Some? <==> ChoiceEnabled(step, Fresh, choice) && HasExplanation(step))
    ensures r.Some? ==> r.value.isCorrect == None
    ensures IsGraded(step.stepType) && r.Some? ==>
      (r.value.score == 100 <==> step.correctAnswer == Some(choice))
  {
    if IsInformational(step.stepType) then Some(AcknowledgeCompletion)
    else
      var s := Answer(Fresh, choice);
      if ChoiceEnabled(step, Fresh, choice) && ResultShown(step, s) then Some(ContinueCompletion(step, s))
      else None
  }

  class ProblemSolvingGame {
    const step: GameStep
    var selectedAnswer: Option<int>
    var showResult: bool
    var hasAnswered: bool

    function State(): AnswerState
      reads this
    {
      AnswerState(selectedAnswer, showResult, hasAnswered)
    }

    ghost predicate Valid()
      reads this
    {
      Reachable(State())
    }

    constructor(step: GameStep)
      ensures this.step == step && Valid() && State() == Fresh
    {
      this.step := step;
      selectedAnswer, showResult, hasAnswered := None, false, false;
    }

    /** Records the first answer; emits nothing (the score it computes is
        dropped). */
    method HandleAnswer(answerIndex: int)
      requires Valid()
      modifies this
      ensures Valid()
      ensures State() == Answer(old(State()), answerIndex)
    {
      if hasAnswered {
        return;
      }
      selectedAnswer := Some(answerIndex);
      showResult := true;
      hasAnswered := true;
      var discarded := Score(step, Some(answerIndex));
    }

    method HandleContinue() returns (c: Completion)
      requires Valid()
      ensures c == ContinueCompletion(step, State())
    {
      var isCorrect := Matches(step.correctAnswer, selectedAnswer);
      var score := if isCorrect then 100 else 75;
      c := Completion(score, None);
    }

    method HandleIntroOrExplanationContinue() returns (c: Completion)
      ensures c == AcknowledgeCompletion
    {
      c := Completion(100, None);
    }
  }
}
