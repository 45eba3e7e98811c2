/** The quiz page: which screen the session state selects, and the title and
    subtitle shown above it. */
module QuizPage {
  import opened Types
  import opened QuizSession

  datatype Screen = ResultsScreen | QuestionScreen | SettingsScreen

  /** `renderContent`: a summary wins over the active flag. */
  function RenderContent(s: SessionState): (screen: Screen)
    ensures screen == ResultsScreen <==> s.quizSummary.Some?
    ensures screen == QuestionScreen <==> s.quizSummary.None? && s.isQuizActive
    ensures screen == SettingsScreen <==> s.quizSummary.None? && !s.isQuizActive
  {
    if s.quizSummary.Some? then ResultsScreen
    else if s.isQuizActive then QuestionScreen
    else SettingsScreen
  }

  /** A title and a subtitle; an active quiz without a description has none. */
  datatype PageInfo = PageInfo(title: string, subtitle: Option<string>)

  /** `getPageInfo`: no quiz first, then a summary, then the active flag. */
  function GetPageInfo(s: SessionState): (info: PageInfo)
    ensures s.currentQuiz.None? ==> info == PageInfo("Start a Quiz", Some("Import a quiz first to begin"))
    ensures s.currentQuiz.Some? && s.quizSummary.Some? ==>
              info == PageInfo("Quiz Complete", Some("You've finished \"" + s.currentQuiz.value.title + "\""))
    ensures s.currentQuiz.Some? && s.quizSummary.None? && s.isQuizActive ==>
              info == PageInfo(s.currentQuiz.value.title, s.currentQuiz.value.description)
    ensures s.currentQuiz.Some? && s.quizSummary.None? && !s.isQuizActive ==>
              info == PageInfo("Quiz Settings", Some("Configure and start your quiz"))
  {
    if s.currentQuiz.None? then PageInfo("Start a Quiz", Some("Import a quiz first to begin"))
    else if s.quizSummary.Some? then
      PageInfo("Quiz Complete", Some("You've finished \"" + s.currentQuiz.value.title + "\""))
    else if s.isQuizActive then PageInfo(s.currentQuiz.value.title, s.currentQuiz.value.description)
    else PageInfo("Quiz Settings", Some("Configure and start your quiz"))
  }

  /** The title speaks of the question screen's quiz exactly when that
      screen is shown with a quiz loaded; a screen and a title always agree
      about whether a session is running. */
  lemma TitleFollowsScreen(s: SessionState)
    requires s.currentQuiz.Some?
    ensures RenderContent(s) == ResultsScreen <==> GetPageInfo(s).title == "Quiz Complete" && s.quizSummary.Some?
    ensures RenderContent(s) == QuestionScreen ==> GetPageInfo(s).title == s.currentQuiz.value.title
    ensures RenderContent(s) == SettingsScreen ==> GetPageInfo(s).title == "Quiz Settings"
  {
  }
}
