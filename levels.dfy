/** The level catalog: a constant list of three levels, each of four steps.
    The text of every level and step is kept as written; the optional comic
    panels are absent from every step. */
module Levels {
  import opened LevelTypes

  const Level1 := Level(
    1,
    "Pattern Detective",
    "Learn how AI recognizes patterns by becoming a pattern detective! Discover how computers see patterns everywhere.",
    "🕵️",
    Easy,
    5,
    "Pattern Recognition",
    Pattern,
    [
      GameStep(1, Intro,
        "Welcome Pattern Detective!",
        "Hi there! Today you'll learn how AI is like a super smart detective that finds patterns everywhere. Just like you can spot that all cats have whiskers, AI can spot patterns in thousands of pictures at once!",
        None, None,
        None,
        None),
      GameStep(2, Activity,
        "Human vs Computer",
        "First, let's see how you do at finding patterns. Look at these shapes and find the one that doesn't belong:",
        Some(["🔴", "🔵", "🟢", "🔺"]), Some(3),
        Some("Great job! The triangle is different because it's not a circle. This took you a few seconds, but AI can do this with thousands of images in milliseconds!"),
        None),
      GameStep(3, Explanation,
        "How AI Sees Patterns",
        "AI looks at pictures like a puzzle made of tiny dots (pixels). It learns that cats usually have pointy ears, whiskers, and fur patterns. After seeing thousands of cat photos, it becomes amazing at spotting cats!",
        None, None,
        None,
        None),
      GameStep(4, Quiz,
        "Pattern Master Quiz",
        "Which of these would be HARDEST for early AI to recognize?",
        Some(["A stop sign (always red and octagonal)", "A cat (comes in many colors and positions)", "A circle (always round)", "The number 5 (always the same shape)"]), Some(1),
        Some("Exactly! Cats are tricky because they come in different colors, sizes, and positions. That's why AI needs to see lots of examples to get really good at it!"),
        None)
    ])

  const Level2 := Level(
    2,
    "Problem Solver Assistant",
    "Discover how AI helps solve problems by working together with humans. See the magic of human creativity + AI power!",
    "🤝",
    Easy,
    7,
    "Human-AI Collaboration",
    ProblemSolving,
    [
      GameStep(1, Intro,
        "Meet Your AI Assistant!",
        "Imagine having a super-fast helper who never gets tired and can remember everything! That's what AI is like. But here's the secret: AI works best when it teams up with creative humans like you!",
        None, None,
        None,
        None),
      GameStep(2, Activity,
        "The Messy Room Challenge",
        "Your room is messy and you need to clean it before friends come over. How would you solve this problem?",
        Some(["Throw everything under the bed", "Clean one area at a time", "Ask everyone to help", "Give up and meet friends outside"]), Some(1),
        Some("Smart thinking! Breaking big problems into smaller pieces is exactly how AI helps us solve complex problems!"),
        None),
      GameStep(3, Explanation,
        "How AI Helps Solve Problems",
        "Now imagine an AI helper for your room: It could make a map of your room, remind you where things belong, set timers for each area, and even play your favorite cleaning music! AI handles the boring parts so you can focus on the fun parts.",
        None, None,
        None,
        None),
      GameStep(4, Quiz,
        "Teamwork Challenge",
        "You're planning a birthday party. What would be the BEST job for your AI assistant?",
        Some(["Choosing the party theme (needs creativity)", "Sending invitations to all friends (repetitive task)", "Deciding what games to play (needs to know what's fun)", "Picking the perfect gift (needs to know the person)"]), Some(1),
        Some("Perfect! AI is great at repetitive tasks like sending messages. You're better at creative tasks like choosing themes and knowing what your friends will enjoy!"),
        None)
    ])

  const Level3 := Level(
    3,
    "Teaching Machine Game",
    "Experience how machine learning works by teaching a virtual pet! Understand how AI learns from examples, just like you do.",
    "🐱",
    Medium,
    8,
    "Machine Learning",
    MachineLearning,
    [
      GameStep(1, Intro,
        "Meet Your Virtual Pet!",
        "You just got a virtual pet that doesn't know anything yet! Just like teaching a real pet, you'll need to show it lots of examples so it can learn. This is exactly how machine learning works!",
        None, None,
        None,
        None),
      GameStep(2, Activity,
        "Teaching Your Pet",
        "Your pet sees a red ball. What should you teach it first?",
        Some(["This is a ball (what it is)", "This is red (the color)", "This is round (the shape)", "This is fun (how to feel about it)"]), Some(0),
        Some("Great choice! Just like teaching a baby, we start with the most basic concept. After many examples, your pet will learn to recognize balls of all colors and sizes!"),
        None),
      GameStep(3, Explanation,
        "How Machine Learning Works",
        "Machine learning is like being a teacher to a computer. You show it thousands of examples (photos of cats, sounds of music, etc.) and it starts to notice patterns. The more examples you give, the smarter it gets!",
        None, None,
        None,
        None),
      GameStep(4, Quiz,
        "Learning Expert Quiz",
        "After showing your pet 1000 photos of balls, what would it be BEST at recognizing?",
        Some(["A basketball (round ball it has seen)", "A football (oval shaped)", "A cube (completely different shape)", "A bicycle (not a ball at all)"]), Some(0),
        Some("Exactly! Your pet learned from round ball examples, so it's best at recognizing other round balls. This shows why AI needs diverse training data to work well!"),
        None)
    ])

  /** `levels`, in display order. */
  const Catalog: seq<Level> := [Level1, Level2, Level3]

  /** The ids of the catalog's levels. */
  function CatalogIds(): (ids: set<int>)
    ensures ids == {1, 2, 3}
  {
    set l | l in Catalog :: l.id
  }

  predicate UniqueIds(levels: seq<Level>) {
    forall i, j :: 0 <= i < j < |levels| ==> levels[i].id != levels[j].id
  }

  /** A graded step carries options, an in-range correct answer and an
      explanation (without which the Continue button never appears); an intro
      or explanation step carries neither options nor a correct answer. */
  predicate WellFormedStep(step: GameStep) {
    (IsGraded(step.stepType) ==>
       step.options.Some? && step.correctAnswer.Some? &&
       0 <= step.correctAnswer.value < |step.options.value| && HasExplanation(step)) &&
    (IsInformational(step.stepType) ==> step.options.None? && step.correctAnswer.None?)
  }

  /** A level that a runner can walk to the end: at least one step, every
      step well formed, and a quiz last. */
  predicate WellFormedLevel(level: Level) {
    |level.steps| > 0 &&
    (forall k :: 0 <= k < |level.steps| ==> WellFormedStep(level.steps[k])) &&
    level.steps[|level.steps| - 1].stepType == Quiz
  }

  /** The shape every catalog level shares. */
  predicate FourStepQuizLevel(l: Level) {
    WellFormedLevel(l) && |l.steps| == 4 &&
    l.steps[0].stepType == Intro && l.steps[1].stepType == Activity &&
    l.steps[2].stepType == Explanation && l.steps[3].stepType == Quiz
  }

  lemma Level1WellFormed()
    ensures FourStepQuizLevel(Level1)
  {
    var steps := Level1.steps;
    assert WellFormedStep(steps[0]) && WellFormedStep(steps[1]);
    assert WellFormedStep(steps[2]) && WellFormedStep(steps[3]);
  }

  lemma Level2WellFormed()
    ensures FourStepQuizLevel(Level2)
  {
    var steps := Level2.steps;
    assert WellFormedStep(steps[0]) && WellFormedStep(steps[1]);
    assert WellFormedStep(steps[2]) && WellFormedStep(steps[3]);
  }

  lemma Level3WellFormed()
    ensures FourStepQuizLevel(Level3)
  {
    var steps := Level3.steps;
    assert WellFormedStep(steps[0]) && WellFormedStep(steps[1]);
    assert WellFormedStep(steps[2]) && WellFormedStep(steps[3]);
  }

  /** The catalog is well formed: distinct ids, every level a four-step walk
      from intro to quiz with well-formed steps, one level per game type. */
  lemma CatalogWellFormed()
    ensures UniqueIds(Catalog)
    ensures forall l :: l in Catalog ==> FourStepQuizLevel(l)
    ensures Catalog[0].gameType == Pattern && Catalog[1].gameType == ProblemSolving &&
            Catalog[2].gameType == MachineLearning
  {
    Level1WellFormed();
    Level2WellFormed();
    Level3WellFormed();
  }
}
