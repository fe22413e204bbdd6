/** The pattern presenter. It has no Continue button on graded steps: the
    first answer schedules the completion itself, 100 if right and 50 if
    wrong, without a correctness flag. The two-second timer is modelled as
    the completion being handed back by the answer handler. */
module Pattern {
  import opened LevelTypes
  import opened StepPresenter

  /** The completion scheduled by the first answer. */
  function AnswerCompletion(step: GameStep, answerIndex: int): (c: Completion)
    ensures c.isCorrect == None
    ensures c.score == 100 || c.score == 50
    ensures c.score == 100 <==> step.correctAnswer == Some(answerIndex)
  {
    Completion(if Matches(step.correctAnswer, Some(answerIndex)) then 100 else 50, None)
  }

  /** `handleContinue`, wired only to the intro/explanation view. */
  const ContinueCompletion := Completion(100, None)

  /** The completion a user produces on a freshly mounted presenter: the
      acknowledgement on an intro or explanation step; on a graded step, the
      completion scheduled by pressing option `choice`. */
  function UserCompletion(step: GameStep, choice: int): (r: Option<Completion>)
    ensures IsInformational(step.stepType) ==> r == Some(ContinueCompletion)
    ensures IsGraded(step.stepType) ==> (r.Some? <==> ChoiceEnabled(step, Fresh, choice))
    ensures r.Some? ==> r.value.isCorrect == None
    ensures IsGraded(step.stepType) && r.Some? ==>
      (r.value.score == 100 <==> step.correctAnswer == Some(choice))
  {
    if IsInformational(step.stepType) then Some(ContinueCompletion)
    else if ChoiceEnabled(step, Fresh, choice) then Some(AnswerCompletion(step, choice))
    else None
  }

  class PatternGame {
    const step: GameStep
    var selectedAnswer: Option<int>
    var showResult: bool
    var hasAnswered: bool

    function State(): AnswerState
      reads this
    {
      AnswerState(selectedAnswer, showResult, hasAnswered)
    }

    ghost predicate Valid()
      reads this
    {
      Reachable(State())
    }

    constructor(step: GameStep)
      ensures this.step == step && Valid() && State() == Fresh
    {
      this.step := step;
      selectedAnswer, showResult, hasAnswered := None, false, false;
    }

    /** Records the first answer and schedules its completion; every later
        call is ignored, so at most one completion is scheduled per mounted
        instance. */
    method HandleAnswer(answerIndex: int) returns (scheduled: Option<Completion>)
      requires Valid()
      modifies this
      ensures Valid()
      ensures State() == Answer(old(State()), answerIndex)
      ensures old(hasAnswered) ==> scheduled == None
      ensures !old(hasAnswered) ==> scheduled == Some(AnswerCompletion(step, answerIndex))
    {
      if hasAnswered {
        return None;
      }
      selectedAnswer := Some(answerIndex);
      showResult := true;
      hasAnswered := true;
      var isCorrect := Matches(step.correctAnswer, Some(answerIndex));
      var score := if isCorrect then 100 else 50;
      scheduled := Some(Completion(score, None));
    }

    method HandleContinue() returns (c: Completion)
      ensures c == ContinueCompletion
    {
      c := Completion(100, None);
    }

    /** The explanation panel: only after an answer, and only when the step
        has an explanation. */
    predicate ExplanationShown()
      reads this
      requires Valid()
      ensures ExplanationShown() ==> hasAnswered && selectedAnswer.Some? && HasExplanation(step)
      ensures hasAnswered && IsGraded(step.stepType) && HasExplanation(step) ==> ExplanationShown()
    {
      ResultShown(step, State())
    }
  }

  /** Answering twice schedules exactly one completion: the second call
      finds `hasAnswered` set. */
  method AnswerTwice(g: PatternGame, first: int, second: int) returns (a: Option<Completion>, b: Option<Completion>)
    requires g.Valid() && g.State() == Fresh
    modifies g
    ensures a == Some(AnswerCompletion(g.step, first)) && b == None
    ensures g.selectedAnswer == Some(first)
  {
    a := g.HandleAnswer(first);
    b := g.HandleAnswer(second);
  }
}
