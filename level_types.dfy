/** The records of a level and its steps, as the catalog and every component
    read them. Optional properties of the TypeScript interfaces become
    `Option` values; `number` becomes `int`. */
module LevelTypes {

  /** A value that may be absent: `undefined` for an optional property,
      `null` for a nullable state variable. */
  datatype Option<+T> = None | Some(value: T)

  datatype StepType = Intro | Activity | Explanation | Quiz

  datatype Difficulty = Easy | Medium | Hard

  datatype GameType = Pattern | ProblemSolving | MachineLearning

  datatype ComicPanel = ComicPanel(image: string, text: string)

  datatype GameStep = GameStep(
    id: int,
    stepType: StepType,
    title: string,
    content: string,
    options: Option<seq<string>>,
    correctAnswer: Option<int>,
    explanation: Option<string>,
    comic: Option<seq<ComicPanel>>)

  datatype Level = Level(
    id: int,
    title: string,
    description: string,
    icon: string,
    difficulty: Difficulty,
    estimatedTime: int,
    concept: string,
    gameType: GameType,
    steps: seq<GameStep>)

  /** Activity and quiz steps are the graded ones: they show options and
      count towards the star rating. */
  predicate IsGraded(t: StepType) {
    t == Activity || t == Quiz
  }

  /** Intro and explanation steps show content and a single
      acknowledgement button. */
  predicate IsInformational(t: StepType) {
    t == Intro || t == Explanation
  }

  /** `step.explanation` used as a condition: present and not the empty
      string. */
  predicate HasExplanation(step: GameStep) {
    step.explanation.Some? && step.explanation.value != ""
  }
}
