/** The results screen: the count of correct answers, the percentage score,
    the total and average time, the `m:ss` formatter, the feedback band and
    the per-result rows. All of it is computed from the loaded quiz, the
    recorded results and the explanation setting. */
module QuizResults {
  import opened Types
  import opened JsText

  /** `results.filter(r => r.isCorrect).length`. */
  function CountCorrect(results: seq<QuizResult>): (n: nat)
    ensures n <= |results|
  {
    if results == [] then 0 else (if results[0].isCorrect then 1 else 0) + CountCorrect(results[1..])
  }

  /** `results.reduce((sum, r) => sum + r.timeTaken, 0)`. */
  function TotalTime(results: seq<QuizResult>): int {
    if results == [] then 0 else results[0].timeTaken + TotalTime(results[1..])
  }

  lemma {:induction false} CountCorrectAppend(a: seq<QuizResult>, b: seq<QuizResult>)
    ensures CountCorrect(a + b) == CountCorrect(a) + CountCorrect(b)
  {
    if a != [] {
      assert (a + b)[1..] == a[1..] + b;
      CountCorrectAppend(a[1..], b);
    } else {
      assert a + b == b;
    }
  }

  /** One result's total is its own time. */
  lemma TotalTimeOne(r: QuizResult)
    ensures TotalTime([r]) == r.timeTaken
  {
    assert [r][1..] == [];
  }

  lemma {:induction false} TotalTimeAppend(a: seq<QuizResult>, b: seq<QuizResult>)
    ensures TotalTime(a + b) == TotalTime(a) + TotalTime(b)
  {
    if a != [] {
      assert (a + b)[1..] == a[1..] + b;
      TotalTimeAppend(a[1..], b);
    } else {
      assert a + b == b;
    }
  }

  /** The count is the full length exactly when every result is correct, and
      zero exactly when none is. */
  lemma {:induction false} CountCorrectExtremes(results: seq<QuizResult>)
    ensures CountCorrect(results) == |results| <==> forall i :: 0 <= i < |results| ==> results[i].isCorrect
    ensures CountCorrect(results) == 0 <==> forall i :: 0 <= i < |results| ==> !results[i].isCorrect
  {
    if results != [] {
      CountCorrectExtremes(results[1..]);
      assert forall i :: 1 <= i < |results| ==> results[i] == results[1..][i - 1];
    }
  }

  /** With every recorded time within the limit, the total lies between zero
      and the number of results times the limit. */
  lemma {:induction false} TotalTimeBounds(results: seq<QuizResult>, limit: int)
    requires forall i :: 0 <= i < |results| ==> 0 <= results[i].timeTaken <= limit
    ensures 0 <= TotalTime(results) <= |results| * limit
  {
    if results != [] {
      assert forall i :: 0 <= i < |results[1..]| ==> results[1..][i] == results[i + 1];
      TotalTimeBounds(results[1..], limit);
      assert |results| * limit == (|results| - 1) * limit + limit;
    }
  }

  /** `Math.round(a / b)` for a positive divisor: the nearest integer to the
      exact quotient, halves rounded up. */
  function RoundDiv(a: int, b: int): (r: int)
    requires b > 0
    ensures 2 * b * r - b <= 2 * a < 2 * b * r + b
  {
    var q := (2 * a + b) / (2 * b);
    assert 2 * b * q <= 2 * a + b < 2 * b * q + 2 * b;
    q
  }

  /** A positive factor keeps the sign of the other one. */
  lemma PositiveFactor(b: int, x: int)
    requires b > 0
    ensures b * x <= 0 ==> x <= 0
    ensures b * x < 0 ==> x < 0
  {
  }

  lemma RoundDivMonotone(a1: int, a2: int, b: int)
    requires b > 0 && a1 <= a2
    ensures RoundDiv(a1, b) <= RoundDiv(a2, b)
  {
    var r1, r2 := RoundDiv(a1, b), RoundDiv(a2, b);
    assert b * (2 * r1 - 2 * r2 - 2) < 0;
    PositiveFactor(b, 2 * r1 - 2 * r2 - 2);
  }

  /** Rounding an exact multiple gives the factor back. */
  lemma RoundDivExact(k: int, b: int)
    requires b > 0
    ensures RoundDiv(k * b, b) == k
  {
    var r := RoundDiv(k * b, b);
    assert b * (2 * r - 2 * k - 1) <= 0;
    PositiveFactor(b, 2 * r - 2 * k - 1);
    assert b * (2 * k - 2 * r - 1) < 0;
    PositiveFactor(b, 2 * k - 2 * r - 1);
  }

  /** `Math.round(correct / totalQuestions * 100)`. */
  function Score(correct: int, totalQuestions: int): (s: int)
    requires totalQuestions > 0
    ensures 2 * totalQuestions * s - totalQuestions <= 200 * correct < 2 * totalQuestions * s + totalQuestions
    ensures 0 <= correct <= totalQuestions ==> 0 <= s <= 100
    ensures correct == 0 ==> s == 0
    ensures correct == totalQuestions ==> s == 100
  {
    RoundDivExact(0, totalQuestions);
    RoundDivExact(100, totalQuestions);
    if 0 <= correct <= totalQuestions then
      RoundDivMonotone(0, 100 * correct, totalQuestions);
      RoundDivMonotone(100 * correct, 100 * totalQuestions, totalQuestions);
      RoundDiv(100 * correct, totalQuestions)
    else
      RoundDiv(100 * correct, totalQuestions)
  }

  /** More correct answers never lower the score. */
  lemma ScoreMonotone(c1: int, c2: int, totalQuestions: int)
    requires totalQuestions > 0 && c1 <= c2
    ensures Score(c1, totalQuestions) <= Score(c2, totalQuestions)
  {
    RoundDivMonotone(100 * c1, 100 * c2, totalQuestions);
  }

  /** `Math.round(totalTime / totalQuestions)`, the average shown. */
  function AverageTime(totalTime: int, totalQuestions: int): (a: int)
    requires totalQuestions > 0
    ensures 2 * totalQuestions * a - totalQuestions <= 2 * totalTime < 2 * totalQuestions * a + totalQuestions
  {
    RoundDiv(totalTime, totalQuestions)
  }

  /** JavaScript's `%`: the remainder takes the sign of the dividend. */
  function JsRemainder(a: int, b: int): (r: int)
    requires b > 0
    ensures a >= 0 ==> r == a % b
    ensures a < 0 ==> -b < r <= 0 && (a - r) % b == 0
  {
    if a >= 0 then a % b
    else
      var q, m := (-a) / b, (-a) % b;
      assert a + m == b * -q;
      MultipleMod(b, -q);
      -m
  }

  /** A multiple of `b` leaves no remainder. */
  lemma MultipleMod(b: int, k: int)
    requires b > 0
    ensures (b * k) % b == 0
  {
    var q, m := (b * k) / b, (b * k) % b;
    assert m == b * (k - q);
    ProductBounds(b, k - q);
  }

  /** A non-zero multiple of a positive `b` is at least `b` away from zero. */
  lemma ProductBounds(b: int, d: int)
    requires b > 0
    ensures d >= 1 ==> b * d >= b
    ensures d <= -1 ==> b * d <= -b
  {
    if d >= 1 {
      assert b * d == b + b * (d - 1);
    } else if d <= -1 {
      assert b * d == -b + b * (d + 1);
    }
  }

  /** `formatTime`: whole minutes (`Math.floor`), a colon, and the remaining
      seconds with a `0` in front when below 10. */
  function FormatTime(seconds: int): string {
    var minutes := seconds / 60;
    var rest := JsRemainder(seconds, 60);
    IntToString(minutes) + ":" + (if rest < 10 then "0" else "") + IntToString(rest)
  }

  /** Reads `m:ss` back: digits, a colon, and exactly two digits below 60. */
  function ParseTime(t: string): Option<int> {
    var k := IndexOf(t, ':');
    if k < 1 then None
    else
      var m := t[..k];
      var s := t[k + 1..];
      if AllDigits(m) && |s| == 2 && AllDigits(s) && DigitsValue(s) < 60
      then Some(DigitsValue(m) * 60 + DigitsValue(s))
      else None
  }

  /** For a non-negative time the text is the minutes, a colon and two
      digits of seconds, and minutes * 60 + seconds is the time. */
  lemma FormatTimeShape(seconds: nat)
    ensures FormatTime(seconds) == NatToString(seconds / 60) + ":" + TwoDigits(seconds % 60)
    ensures (seconds / 60) * 60 + seconds % 60 == seconds && seconds % 60 < 60
  {
    var r := seconds % 60;
    if r >= 10 {
      assert NatToString(r) == NatToString(r / 10) + [DigitChar(r % 10)];
    }
  }

  function TwoDigits(n: nat): (s: string)
    requires n < 100
    ensures |s| == 2 && AllDigits(s) && DigitsValue(s) == n
  {
    var s := [DigitChar(n / 10), DigitChar(n % 10)];
    assert s[..1] == [DigitChar(n / 10)] && s[..1][..0] == [];
    assert DigitValue(DigitChar(n / 10)) == n / 10 && DigitValue(DigitChar(n % 10)) == n % 10;
    assert DigitsValue(s[..1]) == n / 10;
    assert DigitsValue(s) == DigitsValue(s[..1]) * 10 + n % 10;
    s
  }

  /** The formatter is undone by the parser on every non-negative time. */
  lemma FormatTimeRoundTrip(seconds: nat)
    ensures ParseTime(FormatTime(seconds)) == Some(seconds)
  {
    FormatTimeShape(seconds);
    var m := NatToString(seconds / 60);
    var t := FormatTime(seconds);
    assert t == m + ":" + TwoDigits(seconds % 60);
    assert ':' !in m by {
      forall i | 0 <= i < |m| ensures m[i] != ':' { assert IsDigit(m[i]); }
    }
    assert t[..|m|] == m;
    assert t[|m|] == ':';
    assert IndexOf(t, ':') == |m|;
    assert t[|m| + 1..] == TwoDigits(seconds % 60);
    DigitsOfNatToString(seconds / 60);
  }

  /** The feedback bands of the results screen, lowest first. */
  datatype Feedback = DontGiveUp | GoodEffort | GreatJob | Excellent

  function FeedbackLevel(f: Feedback): nat {
    match f
    case DontGiveUp => 0
    case GoodEffort => 1
    case GreatJob => 2
    case Excellent => 3
  }

  /** `getFeedbackMessage`: at least 90, 70, 50, and below 50. */
  function FeedbackFor(score: int): (f: Feedback)
    ensures f == Excellent <==> score >= 90
    ensures f == GreatJob <==> 70 <= score < 90
    ensures f == GoodEffort <==> 50 <= score < 70
    ensures f == DontGiveUp <==> score < 50
  {
    if score >= 90 then Excellent
    else if score >= 70 then GreatJob
    else if score >= 50 then GoodEffort
    else DontGiveUp
  }

  function FeedbackText(f: Feedback): string {
    match f
    case Excellent => "Excellent! You're a master of this topic!"
    case GreatJob => "Great job! You have a solid understanding."
    case GoodEffort => "Good effort! Keep practicing to improve."
    case DontGiveUp => "Don't give up! Try again to improve your score."
  }

  /** The four feedback texts are pairwise different. */
  lemma FeedbackTextsDistinct(f1: Feedback, f2: Feedback)
    requires f1 != f2
    ensures FeedbackText(f1) != FeedbackText(f2)
  {
    assert |FeedbackText(Excellent)| == 41 && |FeedbackText(GreatJob)| == 42;
    assert |FeedbackText(GoodEffort)| == 40 && |FeedbackText(DontGiveUp)| == 47;
  }

  /** A higher score never gets a lower band. */
  lemma FeedbackMonotone(s1: int, s2: int)
    requires s1 <= s2
    ensures FeedbackLevel(FeedbackFor(s1)) <= FeedbackLevel(FeedbackFor(s2))
  {
  }

  /** One row of the question summary. `correctAnswer` and then either
      `yourAnswer` or the "Time expired" mark appear only for a wrong result
      whose question has a correct option. */
  datatype ResultRow = ResultRow(
    questionText: string,
    isCorrect: bool,
    correctAnswer: Option<string>,
    yourAnswer: Option<string>,
    timeExpired: bool,
    explanation: Option<string>,
    timeTaken: int)

  datatype ResultsPage = ResultsPage(
    score: int,
    correctAnswers: nat,
    totalQuestions: nat,
    totalTimeText: string,
    averageTimeText: string,
    feedback: Feedback,
    rows: seq<ResultRow>)

  /** `questions.find(q => q.id === id)`. */
  function FindQuestion(questions: seq<QuizQuestion>, id: string): (q: Option<QuizQuestion>)
    ensures q.Some? ==> exists k :: 0 <= k < |questions| && questions[k] == q.value && q.value.id == id
                                    && forall j :: 0 <= j < k ==> questions[j].id != id
    ensures q.None? <==> forall i :: 0 <= i < |questions| ==> questions[i].id != id
  {
    if questions == [] then None
    else if questions[0].id == id then Some(questions[0])
    else FindQuestion(questions[1..], id)
  }

  /** `options.find(o => o.id === selectedOptionId)`; a `null` id matches nothing. */
  function FindOption(options: seq<QuizOption>, id: Option<string>): (o: Option<QuizOption>)
    ensures o.Some? ==> id.Some? && exists k :: 0 <= k < |options| && options[k] == o.value && o.value.id == id.value
                                                 && forall j :: 0 <= j < k ==> options[j].id != id.value
    ensures o.None? <==> id.None? || forall i :: 0 <= i < |options| ==> options[i].id != id.value
  {
    if options == [] || id.None? then None
    else if options[0].id == id.value then Some(options[0])
    else FindOption(options[1..], id)
  }

  /** `options.find(o => o.isCorrect)`. */
  function FirstCorrect(options: seq<QuizOption>): (o: Option<QuizOption>)
    ensures o.Some? ==> exists k :: 0 <= k < |options| && options[k] == o.value && o.value.isCorrect
                                    && forall j :: 0 <= j < k ==> !options[j].isCorrect
    ensures o.None? <==> forall i :: 0 <= i < |options| ==> !options[i].isCorrect
  {
    if options == [] then None
    else if options[0].isCorrect then Some(options[0])
    else FirstCorrect(options[1..])
  }

  /** The end-of-quiz explanation is guarded by a comparison with `'end'`,
      which no explanation mode is called, so it is never shown. */
  function EndExplanation(mode: ExplanationMode, q: QuizQuestion): (e: Option<string>)
    ensures e.None?
  {
    if ModeName(mode) == "end" && q.explanation.Some? && q.explanation != Some("") then q.explanation else None
  }

  /** A row shows the question's text, the verdict and the recorded time.
      A wrong result on a question with a correct option shows the first
      correct option's text and then exactly one of the selected option's
      text and the "Time expired" mark; a timeout result never shows an
      answer. */
  function Row(q: QuizQuestion, r: QuizResult, mode: ExplanationMode): (row: ResultRow)
    ensures row.questionText == q.text && row.isCorrect == r.isCorrect && row.timeTaken == r.timeTaken
    ensures row.explanation.None?
    ensures row.correctAnswer.Some? <==> !r.isCorrect && exists i :: 0 <= i < |q.options| && q.options[i].isCorrect
    ensures row.correctAnswer.Some? ==> row.correctAnswer.value == FirstCorrect(q.options).value.text
    ensures row.yourAnswer.Some? <==> row.correctAnswer.Some? && FindOption(q.options, r.selectedOptionId).Some?
    ensures row.yourAnswer.Some? ==> row.yourAnswer.value == FindOption(q.options, r.selectedOptionId).value.text
    ensures row.timeExpired <==> row.correctAnswer.Some? && row.yourAnswer.None?
    ensures r.selectedOptionId.None? ==> row.yourAnswer.None?
  {
    var selected := FindOption(q.options, r.selectedOptionId);
    var correct := FirstCorrect(q.options);
    var wrongBlock := !r.isCorrect && correct.Some?;
    ResultRow(
      q.text, r.isCorrect,
      if wrongBlock then Some(correct.value.text) else None,
      if wrongBlock && selected.Some? then Some(selected.value.text) else None,
      wrongBlock && selected.None?,
      EndExplanation(mode, q),
      r.timeTaken)
  }

  /** A row for each result whose question is found, in result order. */
  function Rows(questions: seq<QuizQuestion>, results: seq<QuizResult>, mode: ExplanationMode): (rows: seq<ResultRow>)
    ensures |rows| <= |results|
    ensures forall i :: 0 <= i < |rows| ==> rows[i].explanation.None?
    ensures (forall i :: 0 <= i < |results| ==> FindQuestion(questions, results[i].questionId).Some?) ==>
              && |rows| == |results|
              && forall k :: 0 <= k < |rows| ==>
                   rows[k] == Row(FindQuestion(questions, results[k].questionId).value, results[k], mode)
  {
    if results == [] then []
    else
      var rest := Rows(questions, results[1..], mode);
      assert forall k :: 1 <= k < |results| ==> results[1..][k - 1] == results[k];
      match FindQuestion(questions, results[0].questionId)
      case None => rest
      case Some(q) => [Row(q, results[0], mode)] + rest
  }

  /** One result gives its row when its question is found and nothing
      otherwise. */
  lemma RowsOne(questions: seq<QuizQuestion>, r: QuizResult, mode: ExplanationMode)
    ensures Rows(questions, [r], mode) ==
              if FindQuestion(questions, r.questionId).Some?
              then [Row(FindQuestion(questions, r.questionId).value, r, mode)] else []
  {
    assert [r][1..] == [];
  }

  /** The rows of a concatenation are the rows of each part, in order. */
  lemma {:induction false} RowsAppend(questions: seq<QuizQuestion>, a: seq<QuizResult>, b: seq<QuizResult>,
                                      mode: ExplanationMode)
    ensures Rows(questions, a + b, mode) == Rows(questions, a, mode) + Rows(questions, b, mode)
  {
    if a == [] {
      assert a + b == b;
    } else {
      assert (a + b)[0] == a[0] && (a + b)[1..] == a[1..] + b;
      RowsAppend(questions, a[1..], b, mode);
    }
  }

  /** The results screen. It renders nothing without a quiz or without
      results. The score and the average divide by the number of questions
      of the quiz, not by the number of results. */
  function ResultsView(quiz: Option<Quiz>, results: seq<QuizResult>, mode: ExplanationMode): (page: Option<ResultsPage>)
    ensures page.None? <==> quiz.None? || results == [] || |quiz.value.questions| == 0
    ensures page.Some? ==>
              var total := |quiz.value.questions|;
              && page.value.totalQuestions == total
              && page.value.correctAnswers == CountCorrect(results)
              && page.value.score == Score(CountCorrect(results), total)
              && (CountCorrect(results) <= total ==> 0 <= page.value.score <= 100)
              && page.value.totalTimeText == FormatTime(TotalTime(results))
              && page.value.averageTimeText == FormatTime(AverageTime(TotalTime(results), total))
              && page.value.feedback == FeedbackFor(page.value.score)
              && page.value.rows == Rows(quiz.value.questions, results, mode)
              && |page.value.rows| <= |results|
              && forall i :: 0 <= i < |page.value.rows| ==> page.value.rows[i].explanation.None?
  {
    if quiz.None? || results == [] || |quiz.value.questions| == 0 then None
    else
      var total := |quiz.value.questions|;
      var correct := CountCorrect(results);
      var score := Score(correct, total);
      var totalTime := TotalTime(results);
      Some(ResultsPage(score, correct, total, FormatTime(totalTime),
                       FormatTime(AverageTime(totalTime, total)), FeedbackFor(score),
                       Rows(quiz.value.questions, results, mode)))
  }
}
