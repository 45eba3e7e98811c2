/** The application's shared records: quizzes as loaded, the results a session
    records, the summary of a finished session, the playback preferences and the
    settings of the prompt generator. Fields that the application may leave
    `undefined` or `null` are `Option`s. */
module Types {

  datatype Option<T> = None | Some(value: T)

  /** The kind of a question, `'multiple' | 'truefalse'`. */
  datatype QuestionType = Multiple | TrueFalse

  /** When explanations are shown, `'depois' | 'final' | 'nunca'`. */
  datatype ExplanationMode = Depois | Final | Nunca

  datatype Theme = Light | Dark

  datatype QuizOption = QuizOption(id: string, text: string, isCorrect: bool)

  /** `questionType` is the optional `type` field; a quiz built by the schema
      validator never carries one. */
  datatype QuizQuestion = QuizQuestion(
    id: string,
    text: string,
    options: seq<QuizOption>,
    explanation: Option<string>,
    questionType: Option<QuestionType>)

  datatype Quiz = Quiz(
    id: string,
    title: string,
    description: Option<string>,
    questions: seq<QuizQuestion>,
    language: Option<string>)

  /** One recorded answer; `selectedOptionId == None` marks a question whose time ran out. */
  datatype QuizResult = QuizResult(
    questionId: string,
    selectedOptionId: Option<string>,
    isCorrect: bool,
    timeTaken: int)

  datatype QuizSummary = QuizSummary(
    quizId: string,
    quizTitle: string,
    totalQuestions: int,
    correctAnswers: int,
    totalTime: int,
    results: seq<QuizResult>,
    completedAt: string,
    tentativeNumber: Option<int>)

  datatype UserPreferences = UserPreferences(
    timePerQuestion: int,
    restartOnError: bool,
    showExplanations: ExplanationMode,
    theme: Theme,
    shuffleQuestions: bool,
    shuffleOptions: bool)

  /** A numeric form field: `null`, the `NaN` that `parseInt` gives for an
      empty input, or an integer. */
  datatype Count = NullCount | NaNCount | IntCount(n: int)

  /** The prompt generator's settings; `difficulty == None` is a missing field. */
  datatype QuizSettings = QuizSettings(
    questionCount: Count,
    optionCount: Count,
    topic: string,
    questionTypes: seq<QuestionType>,
    language: string,
    includeExplanations: bool,
    difficulty: Option<string>)

  /** The string a mode is stored and compared as. */
  function ModeName(m: ExplanationMode): string {
    match m
    case Depois => "depois"
    case Final => "final"
    case Nunca => "nunca"
  }

  /** The string a question type is written as. */
  function TypeName(t: QuestionType): string {
    match t
    case Multiple => "multiple"
    case TrueFalse => "truefalse"
  }
}
