/** Whole plays of a level: the user's choices go through a freshly mounted
    presenter per step, the presenter's completion events go to the runner,
    and the runner's report goes to the hub. */
module PlayThrough {
  import opened LevelTypes
  import opened StepPresenter
  import opened LevelRunner
  import Levels

  /** Every step of the play can be completed with the user's choice there. */
  predicate Completable(level: Level, choices: seq<int>)
    requires |choices| <= |level.steps|
  {
    forall k :: 0 <= k < |choices| ==> PresenterCompletion(level, k, choices[k]).Some?
  }

  /** The completion events of a play where `choices[k]` is the option picked
      on step `k` (unused on intro and explanation steps). */
  function Events(level: Level, choices: seq<int>): (events: seq<Completion>)
    requires |choices| <= |level.steps| && Completable(level, choices)
    ensures |events| == |choices|
  {
    seq(|choices|, k requires 0 <= k < |choices| => PresenterCompletion(level, k, choices[k]).value)
  }

  /** The reports the hub receives from one play through the whole level, or
      None if some step offers no way forward. */
  function Play(level: Level, choices: seq<int>): Option<seq<Report>>
    requires 0 < |level.steps| && |choices| == |level.steps|
  {
    if Completable(level, choices) then Some(Run(level, Start, Events(level, choices)).reports) else None
  }

  /** Choices that press an existing option button on every step of a
      catalog level, whose graded steps all have four options. */
  predicate CatalogChoices(choices: seq<int>) {
    forall k :: 0 <= k < |choices| ==> 0 <= choices[k] < 4
  }

  /** On a catalog level every in-range choice sequence can be played through. */
  lemma CatalogCompletable(level: Level, choices: seq<int>)
    requires level in Levels.Catalog && |choices| == 4 && CatalogChoices(choices)
    ensures Completable(level, choices)
  {
    Levels.CatalogWellFormed();
    forall k | 0 <= k < 4
      ensures PresenterCompletion(level, k, choices[k]).Some?
    {
      assert Levels.WellFormedStep(level.steps[k]);
    }
  }

  /** The pattern and problem-solving presenters never pass a correctness
      flag, so on their levels no answer is ever counted as correct. */
  lemma {:induction false} NoFlagNoCorrect(level: Level, choices: seq<int>)
    requires level.gameType != MachineLearning
    requires |choices| <= |level.steps| && Completable(level, choices)
    ensures CorrectCount(level.steps[..|choices|], Events(level, choices)) == 0
  {
    var k := |choices|;
    if k > 0 {
      var prev := choices[..k - 1];
      assert Completable(level, prev) by {
        forall j | 0 <= j < k - 1 ensures PresenterCompletion(level, j, prev[j]).Some? {
          assert prev[j] == choices[j];
        }
      }
      NoFlagNoCorrect(level, prev);
      assert Events(level, choices)[..k - 1] == Events(level, prev);
      assert level.steps[..k][..k - 1] == level.steps[..k - 1];
      assert Events(level, choices)[k - 1].isCorrect == None;
    }
  }

  /** Level 1 (pattern) always reports 100: its one graded step before the
      final quiz is never counted as correct. */
  lemma Level1AlwaysReports100(choices: seq<int>)
    requires |choices| == 4 && CatalogChoices(choices)
    ensures Play(Levels.Level1, choices) == Some([Report(1, 100)])
  {
    var level := Levels.Level1;
    Levels.Level1WellFormed();
    CatalogCompletable(level, choices);
    var events := Events(level, choices);
    FullRunStars(level, events);
    NoFlagNoCorrect(level, choices[..3]);
    assert Events(level, choices[..3]) == events[..3];
    OneGradedBeforeQuiz(level);
  }

  /** Level 2 (problem solving) always reports 100, for the same reason. */
  lemma Level2AlwaysReports100(choices: seq<int>)
    requires |choices| == 4 && CatalogChoices(choices)
    ensures Play(Levels.Level2, choices) == Some([Report(2, 100)])
  {
    var level := Levels.Level2;
    Levels.Level2WellFormed();
    CatalogCompletable(level, choices);
    var events := Events(level, choices);
    FullRunStars(level, events);
    NoFlagNoCorrect(level, choices[..3]);
    assert Events(level, choices[..3]) == events[..3];
    OneGradedBeforeQuiz(level);
  }

  /** Level 3 (machine learning) reports 500 if and only if its activity was
      answered correctly (option 0), and 100 otherwise; the final quiz's
      answer has no effect on the report. */
  lemma Level3ReportsActivityOnly(choices: seq<int>)
    requires |choices| == 4 && CatalogChoices(choices)
    ensures Play(Levels.Level3, choices) == Some([Report(3, if choices[1] == 0 then 500 else 100)])
  {
    var level := Levels.Level3;
    Levels.Level3WellFormed();
    CatalogCompletable(level, choices);
    var events := Events(level, choices);
    FullRunStars(level, events);
    OneGradedBeforeQuiz(level);
    var pre := level.steps[..3];
    assert pre[..2][..1] == level.steps[..1];
    assert events[..3][..2][..1] == events[..1];
    assert events[1].isCorrect == Some(choices[1] == 0);
  }

  /** In the intro, activity, explanation, quiz shape of every catalog level,
      the steps before the final quiz hold exactly one graded step. */
  lemma OneGradedBeforeQuiz(level: Level)
    requires Levels.FourStepQuizLevel(level)
    ensures GradedCount(level.steps[..3]) == 1
  {
    var s := level.steps;
    assert GradedCount(s[..1]) == 0 by {
      assert s[..1][..0] == [] && s[..1][0] == s[0];
    }
    assert GradedCount(s[..2]) == 1 by {
      assert s[..2][..1] == s[..1] && s[..2][1] == s[1];
    }
    assert s[..3][..2] == s[..2] && s[..3][2] == s[2];
  }

  /** No play of a shipped level reports 300: three stars cannot be reached. */
  lemma NoThreeStarReport(level: Level, choices: seq<int>)
    requires level in Levels.Catalog && |choices| == 4 && CatalogChoices(choices)
    ensures Play(level, choices).Some?
    ensures forall r :: r in Play(level, choices).value ==> r.score == 100 || r.score == 500
  {
    if level == Levels.Level1 {
      Level1AlwaysReports100(choices);
    } else if level == Levels.Level2 {
      Level2AlwaysReports100(choices);
    } else {
      Level3ReportsActivityOnly(choices);
    }
  }

  /** The report and the completion screen disagree on level 3 when the
      activity is right and the quiz wrong: the report says five stars, the
      screen, counting one right out of two, shows three. */
  lemma Level3ReportDiffersFromScreen()
    ensures Play(Levels.Level3, [0, 0, 0, 1]) == Some([Report(3, 500)])
    ensures DisplayedStars(Run(Levels.Level3, Start, Events(Levels.Level3, [0, 0, 0, 1])).state) == 3
  {
    var level := Levels.Level3;
    Levels.Level3WellFormed();
    var choices := [0, 0, 0, 1];
    Level3ReportsActivityOnly(choices);
    var events := Events(level, choices);
    FullRunStars(level, events);
    OneGradedBeforeQuiz(level);
    var s := level.steps;
    assert s[..3] == s[..4][..3] && s == s[..4];
    assert events[..3] == events[..4][..3] && events == events[..4];
    assert GradedCount(s) == 2;
    assert events[1].isCorrect == Some(true) && events[3].isCorrect == Some(false);
    assert CorrectCount(s, events) == 1;
  }
}
