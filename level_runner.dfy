/** The level runner (`GameLevel`): it walks the steps of one level, counts
    the graded steps and the correct answers among them, and on the last step
    reports `stars * 100` to the hub.

    As written, the reported stars are computed from the counters as they
    were when the runner last rendered: the increments queued for the last
    step are not yet applied. The completion screen renders afterwards and
    uses the updated counters. `Transition` keeps that order. */
module LevelRunner {
  import opened LevelTypes
  import opened StepPresenter
  import MachineLearning
  import ProblemSolving
  import Pattern

  /** The star rule, on the integer counters. `accuracy` is `correct / total`,
      or 1 when nothing was graded; 0 gives one star, below 1 three, else five. */
  function Stars(correct: nat, total: nat): (stars: nat)
    ensures stars == 1 || stars == 3 || stars == 5
    ensures stars == 1 <==> total > 0 && correct == 0
    ensures stars == 5 <==> total == 0 || correct >= total
  {
    if total == 0 then 5
    else if correct == 0 then 1
    else if correct < total then 3
    else 5
  }

  /** The same rule stated on the accuracy as an exact ratio, as the source
      writes it. */
  function Accuracy(correct: nat, total: nat): real {
    if total > 0 then correct as real / total as real else 1.0
  }

  function StarsOfAccuracy(accuracy: real): nat {
    if accuracy == 0.0 then 1
    else if accuracy < 1.0 then 3
    else 5
  }

  /** The integer rule and the ratio rule agree on every pair of counters. */
  lemma StarsMatchAccuracy(correct: nat, total: nat)
    ensures Stars(correct, total) == StarsOfAccuracy(Accuracy(correct, total))
  {
    if total > 0 {
      var a := correct as real / total as real;
      assert a * total as real == correct as real;
      if correct > 0 && correct < total {
        assert a < 1.0;
      }
    }
  }

  /** The runner's four state variables. */
  datatype RunState = RunState(currentStep: nat, correctAnswers: nat, totalQuestions: nat, isComplete: bool)

  const Start := RunState(0, 0, 0, false)

  /** `onComplete(levelId, score)`. */
  datatype Report = Report(levelId: int, score: int)

  /** The new state after one step completion and the report it emits, if any. */
  datatype StepResult = StepResult(next: RunState, report: Option<Report>)

  ghost predicate Invariant(level: Level, s: RunState) {
    s.currentStep < |level.steps| && s.correctAnswers <= s.totalQuestions
  }

  /** `handleStepComplete(stepScore, isCorrect)`. The step score is not used. */
  function Transition(level: Level, s: RunState, c: Completion): (r: StepResult)
    requires s.currentStep < |level.steps|
    ensures Invariant(level, s) ==> Invariant(level, r.next)
    ensures IsInformational(level.steps[s.currentStep].stepType) ==>
      r.next.totalQuestions == s.totalQuestions && r.next.correctAnswers == s.correctAnswers
    ensures IsGraded(level.steps[s.currentStep].stepType) ==>
      r.next.totalQuestions == s.totalQuestions + 1 &&
      r.next.correctAnswers == s.correctAnswers + (if c.isCorrect == Some(true) then 1 else 0)
    ensures s.currentStep < |level.steps| - 1 ==>
      r.next.currentStep == s.currentStep + 1 && r.next.isComplete == s.isComplete && r.report == None
    ensures s.currentStep == |level.steps| - 1 ==>
      r.next.currentStep == s.currentStep && r.next.isComplete &&
      r.report == Some(Report(level.id, 100 * Stars(s.correctAnswers, s.totalQuestions)))
  {
    var step := level.steps[s.currentStep];
    var graded := IsGraded(step.stepType);
    var total := if graded then s.totalQuestions + 1 else s.totalQuestions;
    var correct := if graded && c.isCorrect == Some(true) then s.correctAnswers + 1 else s.correctAnswers;
    if s.currentStep < |level.steps| - 1 then
      StepResult(RunState(s.currentStep + 1, correct, total, s.isComplete), None)
    else
      StepResult(RunState(s.currentStep, correct, total, true),
                 Some(Report(level.id, Stars(s.correctAnswers, s.totalQuestions) * 100)))
  }

  /** The stars on the completion screen, from the counters after the update. */
  function DisplayedStars(s: RunState): (stars: nat)
    ensures stars == 1 || stars == 3 || stars == 5
  {
    Stars(s.correctAnswers, s.totalQuestions)
  }

  /** The presenter the runner renders for the current step, chosen by game
      type, and the completion it produces when the user picks `choice` (or
      just acknowledges a non-graded step). None when the step offers no way
      to complete it. */
  function PresenterCompletion(level: Level, currentStep: nat, choice: int): (r: Option<Completion>)
    requires currentStep < |level.steps|
    ensures level.gameType != MachineLearning && r.Some? ==> r.value.isCorrect == None
    ensures IsInformational(level.steps[currentStep].stepType) ==> r == Some(Completion(100, None))
  {
    var step := level.steps[currentStep];
    match level.gameType
    case Pattern => Pattern.UserCompletion(step, choice)
    case ProblemSolving => ProblemSolving.UserCompletion(step, choice)
    case MachineLearning => MachineLearning.UserCompletion(step, choice)
  }

  /** The React key of the current presenter: level id and step index. */
  function PresenterKey(levelId: int, s: RunState): (int, nat) {
    (levelId, s.currentStep)
  }

  /** Every advance changes the key, so the next step's presenter is mounted
      afresh with an unanswered state. */
  lemma AdvanceRemountsPresenter(level: Level, s: RunState, c: Completion)
    requires s.currentStep < |level.steps| - 1
    ensures PresenterKey(level.id, Transition(level, s, c).next) != PresenterKey(level.id, s)
  {
  }

  /** The step score has no effect on the runner. */
  lemma StepScoreIgnored(level: Level, s: RunState, a: int, b: int, isCorrect: Option<bool>)
    requires s.currentStep < |level.steps|
    ensures Transition(level, s, Completion(a, isCorrect)) == Transition(level, s, Completion(b, isCorrect))
  {
  }

  /** The final report reads the counters from before the last step. When
      the last step is an intro or an explanation those counters did not
      change, and the reported and displayed ratings agree. */
  lemma ReportLagsDisplay(level: Level, s: RunState, c: Completion)
    requires s.currentStep == |level.steps| - 1
    ensures Transition(level, s, c).report.Some?
    ensures IsInformational(level.steps[s.currentStep].stepType) ==>
      Transition(level, s, c).report.value.score == 100 * DisplayedStars(Transition(level, s, c).next)
  {
  }

  /** The number of graded steps in `steps`. */
  function GradedCount(steps: seq<GameStep>): (n: nat)
    ensures n <= |steps|
  {
    if steps == [] then 0
    else GradedCount(steps[..|steps| - 1]) + (if IsGraded(steps[|steps| - 1].stepType) then 1 else 0)
  }

  /** The number of graded steps whose completion event (the event at the
      same index) carried `isCorrect == true`. */
  function CorrectCount(steps: seq<GameStep>, events: seq<Completion>): (n: nat)
    requires |events| == |steps|
    ensures n <= GradedCount(steps)
  {
    if steps == [] then 0
    else
      var k := |steps| - 1;
      CorrectCount(steps[..k], events[..k]) +
        (if IsGraded(steps[k].stepType) && events[k].isCorrect == Some(true) then 1 else 0)
  }

  /** The result of feeding completion events, in order, to a runner. */
  datatype RunResult = RunResult(state: RunState, reports: seq<Report>)

  function Run(level: Level, s: RunState, events: seq<Completion>): (r: RunResult)
    requires s.currentStep < |level.steps|
    ensures r.state.currentStep < |level.steps|
  {
    if events == [] then RunResult(s, [])
    else
      var before := Run(level, s, events[..|events| - 1]);
      var t := Transition(level, before.state, events[|events| - 1]);
      RunResult(t.next, before.reports + (if t.report.Some? then [t.report.value] else []))
  }

  /** The state a fresh runner is in after `k` completion events: on step
      `k` while `k` is below the step count, complete on the last step after
      exactly as many events as there are steps, and with counters that
      count the graded steps seen and the correct answers among them. */
  ghost function AfterEvents(level: Level, events: seq<Completion>): RunState
    requires 0 < |level.steps| && |events| <= |level.steps|
  {
    var k := |events|;
    RunState(if k < |level.steps| then k else k - 1,
             CorrectCount(level.steps[..k], events),
             GradedCount(level.steps[..k]),
             k == |level.steps|)
  }

  /** Walking a level from the start: one event per step, no report before
      the last step, exactly one report on it, with the stars of the counters
      as they stood before the last step. */
  lemma {:induction false} RunFromStart(level: Level, events: seq<Completion>)
    requires 0 < |level.steps| && |events| <= |level.steps|
    ensures Run(level, Start, events).state == AfterEvents(level, events)
    ensures |events| < |level.steps| ==> Run(level, Start, events).reports == []
    ensures |events| == |level.steps| ==>
      var n := |level.steps| - 1;
      Run(level, Start, events).reports ==
        [Report(level.id, 100 * Stars(CorrectCount(level.steps[..n], events[..n]), GradedCount(level.steps[..n])))]
  {
    var k := |events|;
    if k == 0 {
      assert level.steps[..0] == [];
    } else {
      var prev := events[..k - 1];
      RunFromStart(level, prev);
      var before := Run(level, Start, prev);
      assert before.state.currentStep == k - 1 && !before.state.isComplete;
      assert before.reports == [];
      assert level.steps[..k][..k - 1] == level.steps[..k - 1];
      assert events[..k - 1] == prev;
      assert level.steps[..k][k - 1] == level.steps[k - 1];
    }
  }

  /** After the whole level the completion screen shows the stars of all
      graded steps, while the report left out the last step's answer. */
  lemma FullRunStars(level: Level, events: seq<Completion>)
    requires 0 < |level.steps| && |events| == |level.steps|
    ensures var r := Run(level, Start, events);
      var n := |level.steps| - 1;
      r.state.isComplete &&
      DisplayedStars(r.state) == Stars(CorrectCount(level.steps, events), GradedCount(level.steps)) &&
      r.reports == [Report(level.id, 100 * Stars(CorrectCount(level.steps[..n], events[..n]), GradedCount(level.steps[..n])))]
  {
    RunFromStart(level, events);
    assert level.steps[..|events|] == level.steps;
  }

  class GameLevel {
    const level: Level
    var currentStep: nat
    var correctAnswers: nat
    var totalQuestions: nat
    var isComplete: bool

    function State(): RunState
      reads this
    {
      RunState(currentStep, correctAnswers, totalQuestions, isComplete)
    }

    ghost predicate Valid()
      reads this
    {
      Invariant(level, State())
    }

    /** A runner is created when the hub shows a level; the level must have
        at least one step, which the hub's catalog guarantees. */
    constructor(level: Level)
      requires |level.steps| > 0
      ensures this.level == level && Valid() && State() == Start
    {
      this.level := level;
      currentStep, correctAnswers, totalQuestions, isComplete := 0, 0, 0, false;
    }

    /** One completion event from the current presenter. The counters read
        for the star rating are the ones of the last render, taken before
        the updates of this step are applied. */
    method HandleStepComplete(stepScore: int, isCorrect: Option<bool>) returns (onComplete: Option<Report>)
      requires Valid()
      modifies this
      ensures Valid()
      ensures StepResult(State(), onComplete) == Transition(level, old(State()), Completion(stepScore, isCorrect))
    {
      var renderedCorrect, renderedTotal := correctAnswers, totalQuestions;
      var step := level.steps[currentStep];
      if step.stepType == Activity || step.stepType == Quiz {
        totalQuestions := totalQuestions + 1;
        if isCorrect == Some(true) {
          correctAnswers := correctAnswers + 1;
        }
      }
      if currentStep < |level.steps| - 1 {
        currentStep := currentStep + 1;
        onComplete := None;
      } else {
        var stars := 5;
        if renderedTotal > 0 {
          if renderedCorrect == 0 {
            stars := 1;
          } else if renderedCorrect < renderedTotal {
            stars := 3;
          }
        }
        isComplete := true;
        onComplete := Some(Report(level.id, stars * 100));
      }
    }

    /** The number of stars on the completion screen. */
    function StarsShown(): (stars: nat)
      reads this
      ensures stars == 1 || stars == 3 || stars == 5
    {
      DisplayedStars(State())
    }
  }
}
