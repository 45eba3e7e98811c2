/** The shareable result card: a colour, an icon and a Portuguese feedback
    line chosen by score band, a progress ring whose dash offset is
    `100 - score`, and the total time written by the same `m:ss` formatter the
    results screen uses. */
module ResultCard {
  import opened Types
  import opened JsText
  import QuizResults

  datatype ScoreColor = Red | Orange | Yellow | Emerald | Green

  /** `getScoreColorClass`: first match of 90, 70, 50, 30. */
  function ColorFor(score: int): (c: ScoreColor)
    ensures c == Green <==> score >= 90
    ensures c == Emerald <==> 70 <= score < 90
    ensures c == Yellow <==> 50 <= score < 70
    ensures c == Orange <==> 30 <= score < 50
    ensures c == Red <==> score < 30
  {
    if score >= 90 then Green
    else if score >= 70 then Emerald
    else if score >= 50 then Yellow
    else if score >= 30 then Orange
    else Red
  }

  function ColorClass(c: ScoreColor): string {
    match c
    case Green => "text-green-600 dark:text-green-400"
    case Emerald => "text-emerald-600 dark:text-emerald-400"
    case Yellow => "text-yellow-600 dark:text-yellow-400"
    case Orange => "text-orange-600 dark:text-orange-400"
    case Red => "text-red-600 dark:text-red-400"
  }

  /** The ring's stroke class, one nested conditional written on its own. */
  function StrokeClass(score: int): string {
    if score >= 90 then "stroke-green-500"
    else if score >= 70 then "stroke-emerald-500"
    else if score >= 50 then "stroke-yellow-500"
    else if score >= 30 then "stroke-orange-500"
    else "stroke-red-500"
  }

  function StrokeOf(c: ScoreColor): string {
    match c
    case Green => "stroke-green-500"
    case Emerald => "stroke-emerald-500"
    case Yellow => "stroke-yellow-500"
    case Orange => "stroke-orange-500"
    case Red => "stroke-red-500"
  }

  /** The ring and the score text are always in the same colour band. */
  lemma StrokeMatchesColor(score: int)
    ensures StrokeClass(score) == StrokeOf(ColorFor(score))
  {
  }

  datatype ScoreIcon = ArrowUp | Star | Award | Trophy

  /** `getScoreIcon`: first match of 90, 70, 50. */
  function IconFor(score: int): (i: ScoreIcon)
    ensures i == Trophy <==> score >= 90
    ensures i == Award <==> 70 <= score < 90
    ensures i == Star <==> 50 <= score < 70
    ensures i == ArrowUp <==> score < 50
  {
    if score >= 90 then Trophy
    else if score >= 70 then Award
    else if score >= 50 then Star
    else ArrowUp
  }

  /** The icon bands are the colour bands with orange and red merged. */
  lemma IconRefinesColor(score: int)
    ensures IconFor(score) == ArrowUp <==> ColorFor(score) in {Orange, Red}
    ensures IconFor(score) == Trophy <==> ColorFor(score) == Green
  {
  }

  /** The seven feedback lines, by `getFeedbackMessage`'s cut-offs 90, 80,
      70, 60, 50, 40; the level is the number of cut-offs reached. */
  function CardFeedbackLevel(score: int): (level: nat)
    ensures level <= 6
    ensures forall k :: 1 <= k <= 6 ==> (level >= k <==> score >= 30 + 10 * k)
  {
    if score >= 90 then 6
    else if score >= 80 then 5
    else if score >= 70 then 4
    else if score >= 60 then 3
    else if score >= 50 then 2
    else if score >= 40 then 1
    else 0
  }

  function CardFeedbackText(level: nat): string {
    if level >= 6 then "Excelente! Você é um mestre neste assunto!"
    else if level == 5 then "Incrível! Seu conhecimento é impressionante!"
    else if level == 4 then "Muito bom! Você tem um sólido entendimento."
    else if level == 3 then "Bom trabalho! Você está no caminho certo."
    else if level == 2 then "Bom esforço! Continue praticando para melhorar."
    else if level == 1 then "Continue tentando! Você pode melhorar com prática."
    else "Não desista! Tente novamente para melhorar sua pontuação."
  }

  /** The seven feedback lines are pairwise different, so the line tells the
      level. */
  lemma CardFeedbackTextsDistinct(l1: nat, l2: nat)
    requires l1 <= 6 && l2 <= 6 && l1 != l2
    ensures CardFeedbackText(l1) != CardFeedbackText(l2)
  {
    CardFeedbackLength(l1);
    CardFeedbackLength(l2);
  }

  /** The lengths of the feedback lines, which are all different. */
  lemma CardFeedbackLength(l: nat)
    requires l <= 6
    ensures |CardFeedbackText(l)| == [57, 50, 47, 41, 43, 44, 42][l]
  {
    if l == 6 { assert |CardFeedbackText(6)| == 42; }
    else if l == 5 { assert |CardFeedbackText(5)| == 44; }
    else if l == 4 { assert |CardFeedbackText(4)| == 43; }
    else if l == 3 { assert |CardFeedbackText(3)| == 41; }
    else if l == 2 { assert |CardFeedbackText(2)| == 47; }
    else if l == 1 { assert |CardFeedbackText(1)| == 50; }
    else { assert |CardFeedbackText(0)| == 57; }
  }

  /** A higher score never gets a lower feedback line. */
  lemma CardFeedbackMonotone(s1: int, s2: int)
    requires s1 <= s2
    ensures CardFeedbackLevel(s1) <= CardFeedbackLevel(s2)
  {
  }

  /** `strokeDashoffset = 100 - score` on a ring of dash length 100: the
      drawn part of the ring is the score itself, clipped to the ring. */
  function DashOffset(score: int): (offset: int)
    ensures offset + score == 100
    ensures 0 <= score <= 100 ==> 0 <= offset <= 100
    ensures score == 100 ==> offset == 0
  {
    100 - score
  }

  datatype CardProps = CardProps(
    score: int,
    correctAnswers: int,
    totalQuestions: int,
    totalTime: int,
    quizTitle: Option<string>)

  datatype CardTexts = CardTexts(
    title: string,
    answeredLine: string,
    scoreText: string,
    colorClass: string,
    strokeClass: string,
    icon: ScoreIcon,
    feedback: string,
    dashOffset: int,
    timeLine: string)

  /** "You answered c of t questions correctly". */
  function AnsweredLine(correct: int, total: int): string {
    "Você respondeu " + IntToString(correct) + " de " + IntToString(total) + " questões corretamente"
  }

  /** The card's texts; a missing `quizTitle` is `"Quiz"`. */
  function CardView(p: CardProps): (t: CardTexts)
    ensures t.title == if p.quizTitle.Some? then p.quizTitle.value else "Quiz"
    ensures t.colorClass == ColorClass(ColorFor(p.score))
    ensures t.strokeClass == StrokeOf(ColorFor(p.score))
    ensures t.timeLine == "Tempo total: " + QuizResults.FormatTime(p.totalTime)
    ensures t.dashOffset + p.score == 100
    ensures t.icon == IconFor(p.score)
    ensures t.feedback == CardFeedbackText(CardFeedbackLevel(p.score))
    ensures t.answeredLine == AnsweredLine(p.correctAnswers, p.totalQuestions)
    ensures |t.scoreText| >= 2 && t.scoreText[|t.scoreText| - 1] == '%'
    ensures ParseInt(t.scoreText[..|t.scoreText| - 1]) == Some(p.score)
  {
    StrokeMatchesColor(p.score);
    IntToStringRoundTrip(p.score);
    assert (IntToString(p.score) + "%")[..|IntToString(p.score)|] == IntToString(p.score);
    CardTexts(
      if p.quizTitle.Some? then p.quizTitle.value else "Quiz",
      AnsweredLine(p.correctAnswers, p.totalQuestions),
      IntToString(p.score) + "%",
      ColorClass(ColorFor(p.score)),
      StrokeClass(p.score),
      IconFor(p.score),
      CardFeedbackText(CardFeedbackLevel(p.score)),
      DashOffset(p.score),
      "Tempo total: " + QuizResults.FormatTime(p.totalTime))
  }
}
