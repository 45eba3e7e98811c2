/** The quiz session provider: five state fields and the transitions the rest
    of the application calls. Each React state setter is a field assignment;
    the updates inside one handler are applied in order. */
module QuizSession {
  import opened Types

  /** The five fields of the provider, as one value. */
  datatype SessionState = SessionState(
    currentQuiz: Option<Quiz>,
    isQuizActive: bool,
    currentQuestionIndex: int,
    quizResults: seq<QuizResult>,
    quizSummary: Option<QuizSummary>)

  /** The question index is never negative, and it is positive only while it
      points at a question of the loaded quiz. */
  predicate IndexInRange(s: SessionState) {
    && 0 <= s.currentQuestionIndex
    && (s.currentQuestionIndex == 0
        || (s.currentQuiz.Some? && s.currentQuestionIndex < |s.currentQuiz.value.questions|))
  }

  /** The guard of `goToNextQuestion`: a quiz is loaded and the index is
      before its last question. */
  predicate CanAdvance(quiz: Option<Quiz>, index: int) {
    quiz.Some? && index < |quiz.value.questions| - 1
  }

  class QuizProvider {
    var currentQuiz: Option<Quiz>
    var isQuizActive: bool
    var currentQuestionIndex: int
    var quizResults: seq<QuizResult>
    var quizSummary: Option<QuizSummary>

    function State(): SessionState
      reads this
    {
      SessionState(currentQuiz, isQuizActive, currentQuestionIndex, quizResults, quizSummary)
    }

    ghost predicate Valid()
      reads this
    {
      IndexInRange(State())
    }

    /** The initial `useState` values. */
    constructor ()
      ensures Valid()
      ensures State() == SessionState(None, false, 0, [], None)
    {
      currentQuiz := None;
      isQuizActive := false;
      currentQuestionIndex := 0;
      quizResults := [];
      quizSummary := None;
    }

    /** Loads a quiz and then resets: any session in progress is discarded. */
    method SetQuiz(quiz: Quiz)
      modifies this
      ensures Valid()
      ensures State() == SessionState(Some(quiz), false, 0, [], None)
    {
      currentQuiz := Some(quiz);
      ResetQuiz();
    }

    /** Starts (or restarts) a session on the loaded quiz; the quiz is kept. */
    method StartQuiz()
      modifies this
      ensures Valid()
      ensures State() == SessionState(old(currentQuiz), true, 0, [], None)
    {
      isQuizActive := true;
      currentQuestionIndex := 0;
      quizResults := [];
      quizSummary := None;
    }

    /** Ends the session. It takes no arguments (the result lists callers pass
        are dropped) and only clears the active flag. */
    method EndQuiz()
      modifies this
      ensures Valid() == old(Valid())
      ensures State() == old(State()).(isQuizActive := false)
    {
      isQuizActive := false;
    }

    /** The `goToNextQuestion` closure of an earlier render, whose quiz and
        index were `seenQuiz` and `seenIndex`: the guard reads those, while
        the increment `prev => prev + 1` applies to the index as it is now.
        Nothing keeps the index in range. */
    method GoToNextQuestionAsSeen(seenQuiz: Option<Quiz>, seenIndex: int) returns (moved: bool)
      modifies this
      ensures moved <==> CanAdvance(seenQuiz, seenIndex)
      ensures State() == if moved then old(State()).(currentQuestionIndex := old(currentQuestionIndex) + 1)
                         else old(State())
    {
      if CanAdvance(seenQuiz, seenIndex) {
        currentQuestionIndex := currentQuestionIndex + 1;
        moved := true;
      } else {
        moved := false;
      }
    }

    /** The closure of the current render: the guard reads the index it
        increments, so the index stays in range. */
    method GoToNextQuestion() returns (moved: bool)
      modifies this
      ensures old(Valid()) ==> Valid()
      ensures moved <==> CanAdvance(old(currentQuiz), old(currentQuestionIndex))
      ensures State() == if moved then old(State()).(currentQuestionIndex := old(currentQuestionIndex) + 1)
                         else old(State())
    {
      moved := GoToNextQuestionAsSeen(currentQuiz, currentQuestionIndex);
    }

    /** Moves back only when the index is positive; otherwise nothing changes. */
    method GoToPreviousQuestion() returns (moved: bool)
      modifies this
      ensures old(Valid()) ==> Valid()
      ensures moved <==> old(currentQuestionIndex) > 0
      ensures State() == if moved then old(State()).(currentQuestionIndex := old(currentQuestionIndex) - 1)
                         else old(State())
    {
      if currentQuestionIndex > 0 {
        currentQuestionIndex := currentQuestionIndex - 1;
        moved := true;
      } else {
        moved := false;
      }
    }

    /** Appends one result at the end; nothing checks for an earlier result
        for the same question. */
    method AddResult(result: QuizResult)
      modifies this
      ensures Valid() == old(Valid())
      ensures State() == old(State()).(quizResults := old(quizResults) + [result])
    {
      quizResults := quizResults + [result];
    }

    /** Replaces the summary and nothing else. */
    method SetQuizSummary(summary: QuizSummary)
      modifies this
      ensures Valid() == old(Valid())
      ensures State() == old(State()).(quizSummary := Some(summary))
    {
      quizSummary := Some(summary);
    }

    /** Back to the settings screen of the same quiz. */
    method ResetQuiz()
      modifies this
      ensures Valid()
      ensures State() == SessionState(old(currentQuiz), false, 0, [], None)
    {
      isQuizActive := false;
      currentQuestionIndex := 0;
      quizResults := [];
      quizSummary := None;
    }
  }
}
