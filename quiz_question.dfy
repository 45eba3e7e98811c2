/** The question screen: its local state (selected option, countdown, whether
    the explanation is open, the verdict, the running interval, the start
    time), the countdown tick, and what follows an answer or a timeout.
    `Date.now()` is an input in milliseconds. A call the screen defers by
    1500 ms is returned as a `Pending` value; `RunPending` performs it. */
module QuestionFlow {
  import opened Types
  import opened QuizSession

  /** The delay before a deferred end-of-quiz or next-question call. */
  const FollowUpDelayMs := 1500

  /** What the screen does after a result is recorded. `AwaitNext` schedules
      nothing; the session then moves only through the Next button. */
  datatype FollowUp = ShowExplanation | EndQuizLater | NextQuestionLater | AwaitNext

  /** A deferred call. The end-of-quiz call carries the result list the
      screen passes to `endQuiz`, which ignores it. The next-question call is
      the `goToNextQuestion` closure of the render that scheduled it, so it
      carries the quiz and the index that render saw. */
  datatype Pending =
    | NothingPending
    | EndQuizAfterDelay(results: seq<QuizResult>)
    | NextQuestionAfterDelay(seenQuiz: Option<Quiz>, seenIndex: int)

  /** `currentQuiz?.questions[currentQuestionIndex]`. */
  function QuestionAt(quiz: Option<Quiz>, index: int): (q: Option<QuizQuestion>)
    ensures q.Some? <==> quiz.Some? && 0 <= index < |quiz.value.questions|
    ensures q.Some? ==> q.value == quiz.value.questions[index]
  {
    if quiz.Some? && 0 <= index < |quiz.value.questions| then Some(quiz.value.questions[index]) else None
  }

  /** `currentQuestionIndex === (currentQuiz?.questions.length || 0) - 1`. */
  predicate IsLastQuestion(quiz: Option<Quiz>, index: int) {
    index == (if quiz.Some? then |quiz.value.questions| else 0) - 1
  }

  /** An explanation counts only when it is a non-empty string. */
  predicate HasExplanation(q: QuizQuestion) {
    q.explanation.Some? && q.explanation.value != ""
  }

  /** The screen renders, and its handlers exist, only while a quiz is active
      and the index points at one of its questions. */
  predicate Shown(s: SessionState) {
    s.isQuizActive && QuestionAt(s.currentQuiz, s.currentQuestionIndex).Some?
  }

  function Current(s: SessionState): QuizQuestion
    requires Shown(s)
  {
    QuestionAt(s.currentQuiz, s.currentQuestionIndex).value
  }

  predicate HasResultFor(results: seq<QuizResult>, questionId: string) {
    exists i :: 0 <= i < |results| && results[i].questionId == questionId
  }

  /** `Math.round(ms / 1000)`: JavaScript rounds halves up, which is the floor
      of `ms / 1000 + 1/2`. */
  function RoundedSeconds(ms: int): (t: int)
    ensures 1000 * t - 500 <= ms < 1000 * t + 500
  {
    (ms + 500) / 1000
  }

  /** The recorded time: rounded seconds since the question appeared, capped at
      the time limit. Nothing raises it to zero, so only a non-negative
      elapsed time is sure to give a non-negative result. */
  function TimeTaken(elapsedMs: int, timePerQuestion: int): (t: int)
    ensures t <= timePerQuestion && t <= RoundedSeconds(elapsedMs)
    ensures t == timePerQuestion || t == RoundedSeconds(elapsedMs)
    ensures t < timePerQuestion ==> t == RoundedSeconds(elapsedMs)
    ensures 0 <= elapsedMs && 0 <= timePerQuestion ==> 0 <= t
  {
    if RoundedSeconds(elapsedMs) < timePerQuestion then RoundedSeconds(elapsedMs) else timePerQuestion
  }

  /** The result of a click: the question's id, the option's id and flag,
      and the capped time. */
  function AnswerResult(q: QuizQuestion, option: QuizOption, elapsedMs: int, timePerQuestion: int): (r: QuizResult)
    ensures r.questionId == q.id && r.selectedOptionId == Some(option.id) && r.isCorrect == option.isCorrect
    ensures r.timeTaken == TimeTaken(elapsedMs, timePerQuestion) && r.timeTaken <= timePerQuestion
  {
    QuizResult(q.id, Some(option.id), option.isCorrect, TimeTaken(elapsedMs, timePerQuestion))
  }

  /** The result of a timeout: no option, wrong, and the whole time limit. */
  function TimeoutResult(q: QuizQuestion, timePerQuestion: int): (r: QuizResult)
    ensures r.questionId == q.id && r.selectedOptionId.None? && !r.isCorrect && r.timeTaken == timePerQuestion
  {
    QuizResult(q.id, None, false, timePerQuestion)
  }

  /** After an answer. A wrong answer under restart-on-error never advances:
      it opens the explanation in mode `'depois'` and otherwise ends the quiz.
      In every other case an explanation in mode `'depois'` comes first, then
      the end of the quiz on the last question, then the next question, which
      is scheduled only outside mode `'depois'`. */
  function AnswerFollowUp(correct: bool, prefs: UserPreferences, hasExplanation: bool, isLast: bool): (f: FollowUp)
    ensures !correct && prefs.restartOnError ==>
              f == if prefs.showExplanations == Depois then ShowExplanation else EndQuizLater
    ensures f == ShowExplanation <==>
              prefs.showExplanations == Depois && (hasExplanation || (!correct && prefs.restartOnError))
    ensures f == EndQuizLater <==>
              if !correct && prefs.restartOnError then prefs.showExplanations != Depois
              else isLast && !(prefs.showExplanations == Depois && hasExplanation)
    ensures f == NextQuestionLater <==>
              (correct || !prefs.restartOnError) && !isLast && prefs.showExplanations != Depois
    ensures f == AwaitNext <==>
              (correct || !prefs.restartOnError) && !isLast && prefs.showExplanations == Depois && !hasExplanation
  {
    if !correct && prefs.restartOnError then
      (if prefs.showExplanations == Depois then ShowExplanation else EndQuizLater)
    else if prefs.showExplanations == Depois && hasExplanation then ShowExplanation
    else if isLast then EndQuizLater
    else if prefs.showExplanations != Depois then NextQuestionLater
    else AwaitNext
  }

  /** After a timeout: restart-on-error and the last question both end the
      quiz; otherwise the next question follows. Nothing waits for a click. */
  function TimeoutFollowUp(restartOnError: bool, isLast: bool): (f: FollowUp)
    ensures f == NextQuestionLater <==> !restartOnError && !isLast
    ensures f == EndQuizLater <==> restartOnError || isLast
  {
    if restartOnError then EndQuizLater else if isLast then EndQuizLater else NextQuestionLater
  }

  function PendingFor(f: FollowUp, results: seq<QuizResult>, seen: SessionState): Pending {
    match f
    case EndQuizLater => EndQuizAfterDelay(results)
    case NextQuestionLater => NextQuestionAfterDelay(seen.currentQuiz, seen.currentQuestionIndex)
    case _ => NothingPending
  }

  datatype TimerColor = SuccessColor | WarningColor | DangerColor

  /** The bar colour for `timeLeft / timePerQuestion * 100`, above 50 and then
      above 20, as exact arithmetic. A zero limit makes the ratio infinite
      (positive time left) or not a number (no time left). */
  function TimerColorFor(timeLeft: int, timePerQuestion: int): (c: TimerColor)
    ensures timePerQuestion > 0 ==> (c == SuccessColor <==> 2 * timeLeft > timePerQuestion)
    ensures timePerQuestion > 0 ==> (c == DangerColor <==> 5 * timeLeft <= timePerQuestion)
    ensures timePerQuestion == 0 ==> (c == SuccessColor <==> timeLeft > 0) && c != WarningColor
  {
    if timePerQuestion > 0 then
      (if 100 * timeLeft > 50 * timePerQuestion then SuccessColor
       else if 100 * timeLeft > 20 * timePerQuestion then WarningColor
       else DangerColor)
    else if timePerQuestion < 0 then
      (if 100 * timeLeft < 50 * timePerQuestion then SuccessColor
       else if 100 * timeLeft < 20 * timePerQuestion then WarningColor
       else DangerColor)
    else if timeLeft > 0 then SuccessColor
    else DangerColor
  }

  /** With less time left the bar is never in a greener band. */
  lemma TimerColorMonotone(t1: int, t2: int, timePerQuestion: int)
    requires timePerQuestion > 0 && t1 <= t2
    ensures TimerColorFor(t2, timePerQuestion) == DangerColor ==> TimerColorFor(t1, timePerQuestion) == DangerColor
    ensures TimerColorFor(t1, timePerQuestion) == SuccessColor ==> TimerColorFor(t2, timePerQuestion) == SuccessColor
  {
  }

  /** Performs a deferred call on the session as it is by then. The
      next-question call tests the quiz and index its render saw and
      increments the live index, so two of them scheduled from the same
      question both pass and can move the index past the last question. */
  method RunPending(session: QuizProvider, pending: Pending)
    modifies session
    ensures !pending.NextQuestionAfterDelay? ==> session.Valid() == old(session.Valid())
    ensures pending.NothingPending? ==> session.State() == old(session.State())
    ensures pending.EndQuizAfterDelay? ==> session.State() == old(session.State()).(isQuizActive := false)
    ensures pending.NextQuestionAfterDelay? ==>
              session.State() == if CanAdvance(pending.seenQuiz, pending.seenIndex)
                                 then old(session.State()).(currentQuestionIndex := old(session.currentQuestionIndex) + 1)
                                 else old(session.State())
  {
    match pending
    case NothingPending =>
    case EndQuizAfterDelay(_) => session.EndQuiz();
    case NextQuestionAfterDelay(quiz, index) => var _ := session.GoToNextQuestionAsSeen(quiz, index);
  }

  /** The deferred calls with the guard read again when the call runs: the
      next-question call is the current render's `goToNextQuestion`, and the
      index stays in range. */
  method RunPendingRechecked(session: QuizProvider, pending: Pending)
    modifies session
    ensures old(session.Valid()) ==> session.Valid()
    ensures pending.NothingPending? ==> session.State() == old(session.State())
    ensures pending.EndQuizAfterDelay? ==> session.State() == old(session.State()).(isQuizActive := false)
    ensures pending.NextQuestionAfterDelay? ==>
              session.State() == if CanAdvance(old(session.currentQuiz), old(session.currentQuestionIndex))
                                 then old(session.State()).(currentQuestionIndex := old(session.currentQuestionIndex) + 1)
                                 else old(session.State())
  {
    match pending
    case NothingPending =>
    case EndQuizAfterDelay(_) => session.EndQuiz();
    case NextQuestionAfterDelay(_, _) => var _ := session.GoToNextQuestion();
  }

  class QuestionView {
    var selectedOption: Option<string>
    var timeLeft: int
    var showExplanation: bool
    var isCorrect: Option<bool>
    var timerRunning: bool
    var startTime: int

    /** The initial `useState`/`useRef` values, with the clock read once. */
    constructor (prefs: UserPreferences, nowMs: int)
      ensures selectedOption == None && timeLeft == prefs.timePerQuestion
      ensures !showExplanation && isCorrect == None && !timerRunning && startTime == nowMs
    {
      selectedOption := None;
      timeLeft := prefs.timePerQuestion;
      showExplanation := false;
      isCorrect := None;
      timerRunning := false;
      startTime := nowMs;
    }

    /** The effect that runs when the index, the active flag or the time limit
        changes: the previous interval is cleared, and when the screen is shown
        the per-question state is reset and a new interval starts. */
    method EnterQuestion(session: QuizProvider, prefs: UserPreferences, nowMs: int)
      modifies this
      ensures Shown(session.State()) ==>
                && selectedOption == None && !showExplanation && isCorrect == None
                && timeLeft == prefs.timePerQuestion && startTime == nowMs && timerRunning
      ensures !Shown(session.State()) ==>
                && selectedOption == old(selectedOption) && showExplanation == old(showExplanation)
                && isCorrect == old(isCorrect) && timeLeft == old(timeLeft) && startTime == old(startTime)
                && !timerRunning
    {
      timerRunning := false;
      if Shown(session.State()) {
        selectedOption := None;
        showExplanation := false;
        isCorrect := None;
        timeLeft := prefs.timePerQuestion;
        startTime := nowMs;
        timerRunning := true;
      }
    }

    /** One interval tick. From a value of at most 1 the countdown stops at 0,
        the interval is cleared and the timeout handler runs, once; otherwise
        one second is taken off. */
    method Tick(session: QuizProvider, prefs: UserPreferences) returns (pending: Pending)
      requires session.Valid() && Shown(session.State()) && timerRunning
      modifies this, session
      ensures session.Valid()
      ensures timeLeft >= 0
      ensures old(timeLeft) > 1 ==>
                && timeLeft == old(timeLeft) - 1 && timerRunning && pending == NothingPending
                && session.State() == old(session.State())
                && selectedOption == old(selectedOption) && isCorrect == old(isCorrect)
      ensures old(timeLeft) <= 1 ==>
                var result := TimeoutResult(Current(old(session.State())), prefs.timePerQuestion);
                && timeLeft == 0 && !timerRunning
                && session.State() == old(session.State()).(quizResults := old(session.quizResults) + [result])
                && selectedOption == old(selectedOption) && isCorrect == Some(false)
                && pending == PendingFor(TimeoutFollowUp(prefs.restartOnError,
                                                         IsLastQuestion(old(session.currentQuiz), old(session.currentQuestionIndex))),
                                         old(session.quizResults) + [result], old(session.State()))
      ensures showExplanation == old(showExplanation) && startTime == old(startTime)
    {
      if timeLeft <= 1 {
        timerRunning := false;
        pending := TimeUp(session, prefs);
        timeLeft := 0;
      } else {
        timeLeft := timeLeft - 1;
        pending := NothingPending;
      }
    }

    /** The timeout handler: it records an unanswered, wrong result at the full
        time limit. It leaves `selectedOption` as it was, so a later click on
        the same question is still accepted. */
    method TimeUp(session: QuizProvider, prefs: UserPreferences) returns (pending: Pending)
      requires session.Valid() && Shown(session.State())
      modifies this, session
      ensures session.Valid()
      ensures var result := TimeoutResult(Current(old(session.State())), prefs.timePerQuestion);
              && session.State() == old(session.State()).(quizResults := old(session.quizResults) + [result])
              && pending == PendingFor(TimeoutFollowUp(prefs.restartOnError,
                                                       IsLastQuestion(old(session.currentQuiz), old(session.currentQuestionIndex))),
                                       old(session.quizResults) + [result], old(session.State()))
      ensures isCorrect == Some(false)
      ensures selectedOption == old(selectedOption) && timeLeft == old(timeLeft)
      ensures showExplanation == old(showExplanation) && timerRunning == old(timerRunning) && startTime == old(startTime)
    {
      var q := Current(session.State());
      var isLast := IsLastQuestion(session.currentQuiz, session.currentQuestionIndex);
      var result := TimeoutResult(q, prefs.timePerQuestion);
      var seen := session.State();
      session.AddResult(result);
      isCorrect := Some(false);
      pending := PendingFor(TimeoutFollowUp(prefs.restartOnError, isLast), seen.quizResults + [result], seen);
    }

    /** A click on an option. Once an option is selected further clicks are
        ignored. Otherwise the interval stops, the result (the question's id,
        the option's id and flag, the capped time) is appended, and the
        follow-up is chosen by `AnswerFollowUp`. */
    method OptionSelect(session: QuizProvider, option: QuizOption, nowMs: int, prefs: UserPreferences)
      returns (pending: Pending)
      requires session.Valid() && Shown(session.State())
      requires option in Current(session.State()).options
      modifies this, session
      ensures session.Valid()
      ensures old(selectedOption).Some? ==>
                && session.State() == old(session.State()) && pending == NothingPending
                && selectedOption == old(selectedOption) && isCorrect == old(isCorrect)
                && showExplanation == old(showExplanation) && timerRunning == old(timerRunning)
      ensures old(selectedOption).None? ==>
                var q := Current(old(session.State()));
                var result := AnswerResult(q, option, nowMs - old(startTime), prefs.timePerQuestion);
                var f := AnswerFollowUp(option.isCorrect, prefs, HasExplanation(q),
                                        IsLastQuestion(old(session.currentQuiz), old(session.currentQuestionIndex)));
                && session.State() == old(session.State()).(quizResults := old(session.quizResults) + [result])
                && selectedOption == Some(option.id) && isCorrect == Some(option.isCorrect) && !timerRunning
                && showExplanation == (old(showExplanation) || f == ShowExplanation)
                && pending == PendingFor(f, old(session.quizResults) + [result], old(session.State()))
      ensures timeLeft == old(timeLeft) && startTime == old(startTime)
    {
      if selectedOption.Some? {
        return NothingPending;
      }
      timerRunning := false;
      var q := Current(session.State());
      var isLast := IsLastQuestion(session.currentQuiz, session.currentQuestionIndex);
      var result := AnswerResult(q, option, nowMs - startTime, prefs.timePerQuestion);
      selectedOption := Some(option.id);
      isCorrect := Some(option.isCorrect);
      var seen := session.State();
      session.AddResult(result);
      var f := AnswerFollowUp(option.isCorrect, prefs, HasExplanation(q), isLast);
      if f == ShowExplanation {
        showExplanation := true;
      }
      pending := PendingFor(f, seen.quizResults + [result], seen);
    }

    /** The Next button. On the last question it ends the quiz at once, but
        only if a result for the current question exists; on any other
        question it advances, whatever the verdict and the restart setting. */
    method Next(session: QuizProvider)
      requires session.Valid() && Shown(session.State())
      modifies session
      ensures session.Valid()
      ensures IsLastQuestion(old(session.currentQuiz), old(session.currentQuestionIndex)) ==>
                session.State() == if HasResultFor(old(session.quizResults), Current(old(session.State())).id)
                                   then old(session.State()).(isQuizActive := false)
                                   else old(session.State())
      ensures !IsLastQuestion(old(session.currentQuiz), old(session.currentQuestionIndex)) ==>
                session.State() == old(session.State()).(currentQuestionIndex := old(session.currentQuestionIndex) + 1)
    {
      var q := Current(session.State());
      if IsLastQuestion(session.currentQuiz, session.currentQuestionIndex) {
        if exists i :: 0 <= i < |session.quizResults| && session.quizResults[i].questionId == q.id {
          session.EndQuiz();
        }
      } else {
        var _ := session.GoToNextQuestion();
      }
    }
  }

  /** A two-question quiz used by the two runs below. */
  function TwoQuestionQuiz(): (quiz: Quiz)
    ensures |quiz.questions| == 2 && |quiz.questions[0].options| == 1
  {
    var q0 := QuizQuestion("q1", "First", [QuizOption("q1-1", "A", true)], None, None);
    var q1 := QuizQuestion("q2", "Second", [QuizOption("q2-1", "B", true)], None, None);
    Quiz("quiz", "Quiz", None, [q0, q1], None)
  }

  /** The first question of a two-question quiz, with a one-second limit,
      no restart on error and explanations at the end: the countdown runs
      out, which schedules the next question, and a click inside the 1500 ms
      delay is still accepted and schedules it again. Both stale closures
      pass the guard for index 0, so the session is left active at index 2,
      past the last question, with two results. */
  method DoubleAdvance() returns (index: int, count: int, active: bool)
    ensures index == 2 && count == 2 && active
  {
    var quiz := TwoQuestionQuiz();
    var session := new QuizProvider();
    session.SetQuiz(quiz);
    session.StartQuiz();
    var prefs := UserPreferences(1, false, Final, Light, false, false);
    var view := new QuestionView(prefs, 0);
    view.EnterQuestion(session, prefs, 0);
    var p1 := view.Tick(session, prefs);
    var p2 := view.OptionSelect(session, quiz.questions[0].options[0], 1200, prefs);
    RunPending(session, p1);
    RunPending(session, p2);
    index, count, active := session.currentQuestionIndex, |session.quizResults|, session.isQuizActive;
  }

  /** The same run with the guard read when each deferred call fires: the
      second call finds the index on the last question and does nothing. */
  method DoubleAdvanceRechecked() returns (index: int, count: int, active: bool)
    ensures index == 1 && count == 2 && active
  {
    var quiz := TwoQuestionQuiz();
    var session := new QuizProvider();
    session.SetQuiz(quiz);
    session.StartQuiz();
    var prefs := UserPreferences(1, false, Final, Light, false, false);
    var view := new QuestionView(prefs, 0);
    view.EnterQuestion(session, prefs, 0);
    var p1 := view.Tick(session, prefs);
    var p2 := view.OptionSelect(session, quiz.questions[0].options[0], 1200, prefs);
    RunPendingRechecked(session, p1);
    RunPendingRechecked(session, p2);
    index, count, active := session.currentQuestionIndex, |session.quizResults|, session.isQuizActive;
  }
}
