# quiz_dinamico, modelled in Dafny

quiz_dinamico is a browser quiz application. It has two halves:

- **Playing a quiz.** The user imports a quiz as JSON, which is validated against a schema. Missing ids are filled in. The user then plays it one question at a time, under a per-question countdown, and sees a results screen and a shareable result card.
- **Generating a quiz.** A prompt generator turns a form of settings into a Portuguese instruction text for a language model. A model-selection service chooses which language models to ask.

Preferences live in the browser's key-value store. One module-level toast queue shows notices.

This project models the core of both halves. There is one Dafny module per source file:

| file | module | source |
|---|---|---|
| types.dfy | `Types` | src/types/index.ts |
| text.dfy | `JsText` | JavaScript's integer-to-text conversion, `parseInt`-style reading back, `indexOf`, `lastIndexOf` and `substring` |
| quiz_context.dfy | `QuizSession` | src/context/QuizContext.tsx |
| quiz_question.dfy | `QuestionFlow` | src/components/Quiz/QuizQuestion.tsx |
| quiz_page.dfy | `QuizPage` | src/pages/QuizPage.tsx |
| quiz_results.dfy | `QuizResults` | src/components/Quiz/QuizResults.tsx |
| result_card.dfy | `ResultCard` | src/components/Quiz/ResultCard.tsx |
| storage.dfy | `Storage` | src/utils/storage.ts |
| settings_context.dfy | `Settings` | src/context/SettingsContext.tsx |
| quiz_schema.dfy | `QuizSchema` | src/schemas/quizSchema.ts |
| toast.dfy | `Toast` | src/components/ui/Toast.tsx |
| open_router.dfy | `ModelStrategy` | src/services/openRouterService.ts |
| generate_prompt.dfy | `Prompt` | src/utils/generatePrompt.ts |
| prompt_form.dfy | `PromptGenerator` | src/components/PromptGenerator/PromptForm.tsx |
| number_input.dfy | `NumberField` | src/components/ui/NumberInput.tsx |

State that the source mutates is modelled as classes whose methods state their whole new state:

- the quiz session provider, the question screen's local state, the settings provider, the store, the toast queue, the prompt form and the suggestion list;
- the array of models that `getModelsByStrategy` sorts in place.

Everything computed from values is modelled as functions, with lemmas about them. This covers the score, the time formatter, the feedback bands, the schema, the prompt text and the JSON extraction.

In several places the code does less than, or something other than, its settings, keys and labels suggest. The model follows the code and states each of these behaviours in a contract:

- No question or option is ever shuffled, and no history is written, although settings and a storage key exist for both.
- After a wrong answer under "restart on error" with explanations shown afterwards, the Next button advances to the next question (`QuestionFlow.QuestionView.Next`).
- In the same mode, a correct answer without an explanation on a question that is not the last schedules nothing; the session waits for the Next button (`QuestionFlow.AnswerFollowUp`).
- A timeout does not mark an option as selected, so a later click on the same question records a second result (`QuestionFlow.QuestionView.TimeUp`).
- A deferred next-question call is the `goToNextQuestion` of the render that scheduled it. It tests the index that render saw, but it increments the live index. A timeout followed by a click inside the delay therefore advances twice and can leave an active session past the last question (see "## Findings").
- The results screen's end-of-quiz explanation compares the mode with `'end'`, a value no mode has, so it is never shown (`QuizResults.EndExplanation`).
- The schema strips keys it does not declare. A validated quiz therefore has no `language` and its questions have no `type` (`QuizSchema.BuildQuiz`).
- Nothing requires a question to have a correct option (`QuizSchema.NoCorrectOptionAccepted`).
- The prompt form's initial settings have no difficulty, so a prompt generated from them says `undefined` (`Prompt.DifficultyValue`).

## Model

| member | source | states |
|---|---|---|
| QuizSession.QuizProvider.constructor | src/context/QuizContext.tsx:23-27 | the session starts with no quiz, inactive, at index 0, with no results and no summary |
| QuizSession.QuizProvider.SetQuiz | src/context/QuizContext.tsx:29-32 | loading a quiz keeps it and discards any session in progress: inactive, index 0, no results, no summary |
| QuizSession.QuizProvider.StartQuiz | src/context/QuizContext.tsx:34-39 | a session starts on the loaded quiz at index 0 with no results and no summary |
| QuizSession.QuizProvider.EndQuiz | src/context/QuizContext.tsx:41-43 | ending clears only the active flag; results, index and quiz are kept, and so is whether the index is in range |
| QuizSession.QuizProvider.GoToNextQuestion | src/context/QuizContext.tsx:45-51 | the index moves up by one exactly when a quiz is loaded and the index is before its last question; otherwise nothing changes; an index in range stays in range |
| QuizSession.QuizProvider.GoToNextQuestionAsSeen | src/context/QuizContext.tsx:45-51 | an earlier render's closure: it moves the live index up by one exactly when the quiz and index that render saw pass the guard, and changes nothing else |
| QuizSession.QuizProvider.GoToPreviousQuestion | src/context/QuizContext.tsx:53-59 | the index moves down by one exactly when it is positive; otherwise nothing changes; an index in range stays in range |
| QuizSession.QuizProvider.AddResult | src/context/QuizContext.tsx:61-63 | the result is appended at the end and nothing else changes |
| QuizSession.QuizProvider.SetQuizSummary | src/context/QuizContext.tsx:65-67 | only the summary is replaced |
| QuizSession.QuizProvider.ResetQuiz | src/context/QuizContext.tsx:69-74 | back to the inactive start state on the same quiz |
| QuestionFlow.QuestionAt | src/components/Quiz/QuizQuestion.tsx:32 | there is a current question exactly when a quiz is loaded and the index is inside its questions, and it is the question at that index |
| QuestionFlow.RoundedSeconds | src/components/Quiz/QuizQuestion.tsx:83 | `Math.round(ms / 1000)` is the nearest whole second, halves up |
| QuestionFlow.TimeTaken | src/components/Quiz/QuizQuestion.tsx:82-85 | `Math.min` of the rounded elapsed time and the limit: never above either, equal to one of them, and non-negative for non-negative inputs |
| QuestionFlow.AnswerResult | src/components/Quiz/QuizQuestion.tsx:82-96 | a click records the question's id, the option's id and flag, and the capped time |
| QuestionFlow.TimeoutResult | src/components/Quiz/QuizQuestion.tsx:131-137 | a timeout records the question's id, no option, a wrong verdict and the whole time limit |
| QuestionFlow.AnswerFollowUp | src/components/Quiz/QuizQuestion.tsx:99-127 | after an answer, each follow-up (open the explanation, end the quiz later, next question later, wait for Next) happens exactly under its conditions; a wrong answer under restart-on-error never advances |
| QuestionFlow.TimeoutFollowUp | src/components/Quiz/QuizQuestion.tsx:142-155 | after a timeout the quiz ends exactly when restart-on-error is set or the question is the last; otherwise the next question follows |
| QuestionFlow.TimerColorFor | src/components/Quiz/QuizQuestion.tsx:171-177 | green exactly above half the time left, red exactly at or below a fifth, amber between; a zero limit is never amber |
| QuestionFlow.TimerColorMonotone | src/components/Quiz/QuizQuestion.tsx:174-177 | with less time left the bar is never in a greener band |
| QuestionFlow.RunPending | src/components/Quiz/QuizQuestion.tsx:106-154 | a deferred call acts on the session as it is when it runs: end-of-quiz clears the active flag; next-question applies the guard to the quiz and index its render saw and increments the live index |
| QuestionFlow.RunPendingRechecked | src/context/QuizContext.tsx:45-51 | with the guard read when the call runs, a next-question call advances only from before the last question, and an index in range stays in range |
| QuestionFlow.DoubleAdvance | src/components/Quiz/QuizQuestion.tsx:47-156 | on the first of two questions, a timeout and then a click inside the delay leave the session active at index 2, past the last question, with two results |
| QuestionFlow.DoubleAdvanceRechecked | src/context/QuizContext.tsx:45-51 | the same steps with the guard read again stop at index 1, the last question |
| QuestionFlow.QuestionView.constructor | src/components/Quiz/QuizQuestion.tsx:25-30 | nothing selected, the full time limit, no explanation, no verdict, no interval, start time read once |
| QuestionFlow.QuestionView.EnterQuestion | src/components/Quiz/QuizQuestion.tsx:36-61 | the old interval is cleared; when the screen is shown the per-question state is reset to the full limit and a new interval runs |
| QuestionFlow.QuestionView.Tick | src/components/Quiz/QuizQuestion.tsx:47-55 | above 1 the countdown loses a second and nothing else changes; at 1 or below it stops at 0, the interval stops and exactly one timeout result is appended |
| QuestionFlow.QuestionView.TimeUp | src/components/Quiz/QuizQuestion.tsx:130-156 | a timeout appends an unanswered wrong result at the full limit, marks the verdict wrong, leaves the selection as it was and returns the follow-up of `TimeoutFollowUp` |
| QuestionFlow.QuestionView.OptionSelect | src/components/Quiz/QuizQuestion.tsx:77-128 | a click after a selection changes nothing; otherwise exactly one result with the option's id, its flag and the capped time is appended, the interval stops and the follow-up of `AnswerFollowUp` is returned |
| QuestionFlow.QuestionView.Next | src/components/Quiz/QuizQuestion.tsx:158-168 | on the last question the quiz ends only if a result for it exists; on any other question the session advances |
| QuizPage.RenderContent | src/pages/QuizPage.tsx:16-26 | the results screen exactly when there is a summary, the question screen exactly when active without one, the settings screen otherwise |
| QuizPage.GetPageInfo | src/pages/QuizPage.tsx:29-55 | the title and subtitle for no quiz, a summary, an active quiz (its own title and description) and the settings screen |
| QuizPage.TitleFollowsScreen | src/pages/QuizPage.tsx:16-55 | the title agrees with the screen that is rendered for every session state with a quiz |
| QuizResults.CountCorrect | src/components/Quiz/QuizResults.tsx:17 | the number of correct results never exceeds the number of results |
| QuizResults.CountCorrectAppend | src/components/Quiz/QuizResults.tsx:17 | the count of a concatenation is the sum of the counts |
| QuizResults.CountCorrectExtremes | src/components/Quiz/QuizResults.tsx:17 | the count is the length exactly when all results are correct, and zero exactly when none is |
| QuizResults.TotalTimeOne | src/components/Quiz/QuizResults.tsx:20 | one result's total is its own time, so with `TotalTimeAppend` the total is the sum of the times |
| QuizResults.TotalTimeAppend | src/components/Quiz/QuizResults.tsx:20 | the total time of a concatenation is the sum of the totals |
| QuizResults.TotalTimeBounds | src/components/Quiz/QuizResults.tsx:20 | with each time between 0 and the limit, the total lies between 0 and the number of results times the limit |
| QuizResults.RoundDiv | src/components/Quiz/QuizResults.tsx:19 | `Math.round(a / b)` is the integer nearest to the exact quotient, halves up |
| QuizResults.RoundDivMonotone | src/components/Quiz/QuizResults.tsx:19 | rounding the quotient is monotone in the dividend |
| QuizResults.RoundDivExact | src/components/Quiz/QuizResults.tsx:19 | an exact multiple rounds to its factor |
| QuizResults.Score | src/components/Quiz/QuizResults.tsx:18-19 | the score is the rounded percentage of correct answers over the quiz's questions, between 0 and 100 when the count is at most the number of questions, 0 for none and 100 for all |
| QuizResults.ScoreMonotone | src/components/Quiz/QuizResults.tsx:19 | more correct answers never lower the score |
| QuizResults.AverageTime | src/components/Quiz/QuizResults.tsx:78 | the average is the integer nearest to total time over the number of questions |
| QuizResults.JsRemainder | src/components/Quiz/QuizResults.tsx:24 | JavaScript's `%` is the mathematical remainder on non-negative times; on a negative time it lies in `(-60, 0]` and differs from the time by a multiple of 60 |
| QuizResults.FormatTimeShape | src/components/Quiz/QuizResults.tsx:22-26 | a non-negative time is written as whole minutes, a colon and exactly two digits of seconds below 60, which add back up to the time |
| QuizResults.TwoDigits | src/components/Quiz/QuizResults.tsx:25 | the padded seconds are two digits whose value is the seconds |
| QuizResults.FormatTimeRoundTrip | src/components/Quiz/QuizResults.tsx:22-26 | reading the formatted text back gives the time, for every non-negative time |
| QuizResults.FeedbackFor | src/components/Quiz/QuizResults.tsx:29-34 | each feedback band is chosen exactly on its score range: 90 and up, 70-89, 50-69, below 50 |
| QuizResults.FeedbackTextsDistinct | src/components/Quiz/QuizResults.tsx:29-34 | the four feedback messages are pairwise different |
| QuizResults.FeedbackMonotone | src/components/Quiz/QuizResults.tsx:29-34 | a higher score never gets a lower band |
| QuizResults.FindQuestion | src/components/Quiz/QuizResults.tsx:87 | the first question with the id; none exactly when no question has it |
| QuizResults.FindOption | src/components/Quiz/QuizResults.tsx:90 | the first option with the selected id; none exactly when the selection is null or no option has it |
| QuizResults.FirstCorrect | src/components/Quiz/QuizResults.tsx:91 | the first option marked correct; none exactly when no option is |
| QuizResults.EndExplanation | src/components/Quiz/QuizResults.tsx:132 | the end-of-quiz explanation is never shown, because no mode is called `'end'` |
| QuizResults.Row | src/components/Quiz/QuizResults.tsx:89-140 | a row shows the question text, the verdict and the time; a wrong result on a question with a correct option shows the first correct option and exactly one of the selected option and "Time expired"; a timeout never shows an answer; no explanation |
| QuizResults.Rows | src/components/Quiz/QuizResults.tsx:86-146 | at most one row per result, none with an explanation; when every result's question is found, row k is the row of result k and its question |
| QuizResults.RowsOne | src/components/Quiz/QuizResults.tsx:87-88 | one result gives its row when its question is found and no row otherwise |
| QuizResults.RowsAppend | src/components/Quiz/QuizResults.tsx:86 | the rows of a concatenation are the rows of each part, in order |
| QuizResults.ResultsView | src/components/Quiz/QuizResults.tsx:13-146 | no page exactly without a quiz, without results or for a quiz without questions; otherwise the count, the score, both time texts and the band are those of the functions above, with the score in 0-100 when the count fits; the rows are those of `Rows` on the quiz's questions |
| ResultCard.ColorFor | src/components/Quiz/ResultCard.tsx:17-23 | each colour is chosen exactly on its score range: 90, 70, 50, 30 and below |
| ResultCard.StrokeMatchesColor | src/components/Quiz/ResultCard.tsx:87-91 | the ring's separately written stroke class always matches the text's colour band |
| ResultCard.IconFor | src/components/Quiz/ResultCard.tsx:26-31 | each icon is chosen exactly on its score range: 90, 70, 50 and below |
| ResultCard.IconRefinesColor | src/components/Quiz/ResultCard.tsx:26-31 | the icon bands are the colour bands with orange and red merged |
| ResultCard.CardFeedbackLevel | src/components/Quiz/ResultCard.tsx:34-42 | the feedback line reaches level k exactly when the score reaches 30 + 10k, for each of the six cut-offs |
| ResultCard.CardFeedbackMonotone | src/components/Quiz/ResultCard.tsx:34-42 | a higher score never gets a lower feedback line |
| ResultCard.CardFeedbackTextsDistinct | src/components/Quiz/ResultCard.tsx:34-42 | the seven feedback lines are pairwise different, so the line tells the level |
| ResultCard.CardFeedbackLength | src/components/Quiz/ResultCard.tsx:34-42 | the length of each feedback line, all seven different |
| ResultCard.DashOffset | src/components/Quiz/ResultCard.tsx:84 | the drawn part of the ring is the score: offset and score add to 100, and the offset is in 0-100 for a score in 0-100 |
| ResultCard.CardView | src/components/Quiz/ResultCard.tsx:14-91 | the title defaults to "Quiz"; the colour, stroke, icon and feedback line come from the score bands; the answered line names both counts; the score text is the score followed by `%` and reads back as the score; the time line uses the `m:ss` formatter; the ring shows the score |
| Storage.Merge | src/utils/storage.ts:25 | each preference field comes from the partial object when it has it and from the base otherwise |
| Storage.MergeIdempotent | src/utils/storage.ts:34-35 | merging the same partial twice is merging it once |
| Storage.MergeUnits | src/utils/storage.ts:25 | an empty partial changes nothing and a whole one replaces everything |
| Storage.MergeCompose | src/utils/storage.ts:34-35 | two merges in a row are one merge of the combined partial |
| Storage.GetUserPreferences | src/utils/storage.ts:19-30 | the defaults for a missing, empty or unparsable entry and for a stored value with no preference field; otherwise the stored fields over the defaults |
| Storage.FreshStoreReadsDefaults | src/utils/storage.ts:10-30 | an empty store reads as 30 seconds, no restart, explanations afterwards, the light theme and no shuffling, and the first save of an empty partial writes exactly that |
| Storage.GetFromStorage | src/utils/storage.ts:50-59 | the parsed value when one is stored and the default otherwise |
| Storage.GetLastGeneratorConfig | src/utils/storage.ts:67-73 | the parsed value stored under the key, whatever its shape, and the null/null/empty configuration when nothing usable is stored |
| Storage.ReadAfterSavePreferences | src/utils/storage.ts:19-40 | reading after saving a partial gives the previous preferences with the partial merged in |
| Storage.ReadAfterSave | src/utils/storage.ts:42-59 | a value written under a key reads back, and other keys read as before |
| Storage.LocalStorage.SaveToStorage | src/utils/storage.ts:42-48 | a write stores the value under the key, or leaves the store unchanged when the write throws |
| Storage.LocalStorage.SaveUserPreferences | src/utils/storage.ts:32-40 | the store holds the current preferences with the partial merged in, or is unchanged when the write throws |
| Storage.LocalStorage.SaveLastGeneratorConfig | src/utils/storage.ts:75-77 | after a successful write the configuration reads back |
| Settings.SavingWholeSyncs | src/context/SettingsContext.tsx:16-19 | writing the whole settings makes the store read them back, whatever it held |
| Settings.SettingsProvider.Persist | src/context/SettingsContext.tsx:16-19 | the effect writes the settings; after a successful write the store reads them back |
| Settings.SettingsProvider.constructor | src/context/SettingsContext.tsx:14-19 | the settings start as the stored preferences; after a successful write the store holds them written whole and reads them back |
| Settings.SettingsProvider.UpdateSettings | src/context/SettingsContext.tsx:21-23 | the partial's fields replace the current ones; after a successful write the store holds the new settings written whole and reads them back; a failed write leaves it unchanged |
| Settings.SettingsProvider.ResetSettings | src/context/SettingsContext.tsx:25-27 | the settings become the defaults; after a successful write the store holds them written whole and reads them back; a failed write leaves it unchanged |
| QuizSchema.FillId | src/schemas/quizSchema.ts:18 | a non-empty id is kept; an empty or missing id takes the next fresh one |
| QuizSchema.BuildOptions | src/schemas/quizSchema.ts:19-22 | one option per item, in order, with its text and flag, and its given id or a fresh one |
| QuizSchema.BuildQuestion | src/schemas/quizSchema.ts:11-23 | the question keeps its text and explanation, loses its type, gets its given or a fresh id, and gets its options built in order |
| QuizSchema.BuiltFromLater | src/schemas/quizSchema.ts:18-22 | a question built from a later counter has all its ids drawn at or after an earlier one |
| QuizSchema.BuildQuestions | src/schemas/quizSchema.ts:11-23 | one built question per item, in order, each with its text, explanation, no type, its given or a fresh id, and its options built from its option items with their texts, flags and ids |
| QuizSchema.BuildQuiz | src/schemas/quizSchema.ts:26-34 | the quiz keeps its title and description, loses its language, gets its given or a fresh id, and has one question per item built as `BuildQuestions` states, down to each option's text, flag and id |
| QuizSchema.ValidateQuizJson | src/schemas/quizSchema.ts:39-45 | success exactly when the text parses and meets every schema constraint; a syntax error and a schema error are told apart; success carries the built quiz |
| QuizSchema.ValidatedQuizHasIds | src/schemas/quizSchema.ts:16-34 | with non-empty fresh ids, a validated quiz, each question and each option has a non-empty id, and there is at least one question of at least two options |
| QuizSchema.QuizConstraintsRejected | src/schemas/quizSchema.ts:26-30 | a title shorter than three characters or an empty question list is a schema error |
| QuizSchema.QuestionConstraintsRejected | src/schemas/quizSchema.ts:4-15 | one question with a text shorter than three characters, fewer than two options, or an option with empty text is a schema error |
| QuizSchema.NoCorrectOptionAccepted | src/schemas/quizSchema.ts:4-15 | a quiz whose only question has no correct option is accepted |
| Toast.Filter | src/components/ui/Toast.tsx:84 | the filtered list holds exactly the kept elements, and is never longer |
| Toast.FilterIdempotent | src/components/ui/Toast.tsx:137-141 | filtering twice by the same test is filtering once |
| Toast.WithoutId | src/components/ui/Toast.tsx:137-141 | removing an id keeps exactly the notices with another id |
| Toast.WithoutIdAppend | src/components/ui/Toast.tsx:137-141 | removal works piecewise over a concatenation; a single notice is dropped exactly when it has the id |
| Toast.WithoutAbsentId | src/components/ui/Toast.tsx:137-141 | removing an id no notice has changes nothing |
| Toast.WithoutIdOfAppended | src/components/ui/Toast.tsx:132-141 | a notice appended and then removed by its own id leaves the list as removing it before |
| Toast.WithoutListener | src/components/ui/Toast.tsx:84 | unsubscribing keeps exactly the other listeners |
| Toast.Notified | src/components/ui/Toast.tsx:23-26 | one update calls every listener once, in registration order, with the new list |
| Toast.NewEntry | src/components/ui/Toast.tsx:125-130 | the queued notice keeps the caller's fields, takes the new id, and takes the duration given (0 included) or 5000 |
| Toast.RenderedVariant | src/components/ui/Toast.tsx:28 | an omitted variant renders as info |
| Toast.ShowsDescription | src/components/ui/Toast.tsx:63-65 | the description is rendered exactly when it is present and non-empty |
| Toast.ToastStore.constructor | src/components/ui/Toast.tsx:17-21 | the queue starts with no notices, no listeners and no container |
| Toast.ToastStore.UpdateState | src/components/ui/Toast.tsx:23-26 | the list is replaced and every listener is told, in order |
| Toast.ToastStore.ShowToast | src/components/ui/Toast.tsx:122-144 | the container exists, the new notice is appended at the end, listeners are told, and its removal is due after its duration |
| Toast.ToastStore.Remove | src/components/ui/Toast.tsx:98-102 | closing or expiring drops every notice with the id from the list as it is then, and listeners are told |
| Toast.ToastStore.Subscribe | src/components/ui/Toast.tsx:78-82 | the listener is registered last |
| Toast.ToastStore.Unsubscribe | src/components/ui/Toast.tsx:83-85 | only that listener is dropped |
| ModelStrategy.StableSortPermutation | src/services/openRouterService.ts:94-108 | sorting by rank keeps exactly the same models |
| ModelStrategy.StableSortSorted | src/services/openRouterService.ts:94-108 | the sorted list is in rank order |
| ModelStrategy.StableSortStable | src/services/openRouterService.ts:94-108 | models of equal rank keep their relative order |
| ModelStrategy.StableSortCorrect | src/services/openRouterService.ts:94-108 | the sort is a permutation, sorted and stable |
| ModelStrategy.SortKeepsOccurrences | src/services/openRouterService.ts:94-108 | the sort keeps each model's number of occurrences |
| ModelStrategy.SortInPlace | src/services/openRouterService.ts:94-108 | the shared array afterwards holds the stable sort of what it held |
| ModelStrategy.GetModelsByStrategy | src/services/openRouterService.ts:90-137 | speed and quality sort the shared array and return its ids; reliable-json and every other value return their fixed lists and leave the array; every strategy returns each model's id once while the array holds each model once |
| ModelStrategy.CatalogueNames | src/services/openRouterService.ts:28-85 | the catalogue lists the eight models in declaration order |
| ModelStrategy.CatalogueHasEachModelOnce | src/services/openRouterService.ts:28-85 | the catalogue holds each model exactly once |
| ModelStrategy.ReliableJsonHasEachModelOnce | src/services/openRouterService.ts:110-121 | the reliable-json list holds each model exactly once |
| ModelStrategy.BalancedHasEachModelOnce | src/services/openRouterService.ts:123-135 | the balanced list holds each model exactly once |
| ModelStrategy.SortedIdsAreCatalogue | src/services/openRouterService.ts:94-108 | sorting the catalogue still holds each model once, in rank order |
| ModelStrategy.ModelNamedInverse | src/services/openRouterService.ts:28-85 | each id names its model, so no two models share an id |
| ModelStrategy.ExtractAndRepairJson | src/services/openRouterService.ts:264-271 | no result exactly when a brace is missing; otherwise the text from the first `{` to the last `}`, with no brace of that kind outside it, or the swapped `substring` range when the braces come in the wrong order |
| ModelStrategy.ExtractKeepsBraced | src/services/openRouterService.ts:264-271 | a text that already starts with `{` and ends with `}` is returned whole |
| ModelStrategy.ExtractIdempotent | src/services/openRouterService.ts:264-271 | extracting from an extracted object gives it back |
| Prompt.CountText | src/utils/generatePrompt.ts:45 | a count is written so that it reads back as the same number; `null` and `NaN` are written as such |
| Prompt.MoreThanThree | src/utils/generatePrompt.ts:57 | the comparison holds exactly for a number above 3 |
| Prompt.DifficultyValue | src/utils/generatePrompt.ts:35 | a missing difficulty is written `undefined` |
| Prompt.FirstTypeName | src/utils/generatePrompt.ts:54 | the example's type is the first selected type, or `undefined` for none |
| Prompt.PromptEnds | src/utils/generatePrompt.ts:45-68 | the prompt has 29 slots, opening with the quoted topic and closing with the quoted difficulty |
| Prompt.PromptOpensAndCloses | src/utils/generatePrompt.ts:45-68 | the prompt text starts with the request for the topic and ends with the difficulty item |
| Prompt.QuestionTypeWording | src/utils/generatePrompt.ts:15-25 | the mixture wording exactly for more than one type, the multiple-choice wording exactly for multiple choice alone, true/false otherwise; multiple choice carries the option count |
| Prompt.ExplanationsFollowSetting | src/utils/generatePrompt.ts:28-30 | the explanations sentence and the example's explanation line follow the setting, in both directions |
| Prompt.DifficultyFollowsSetting | src/utils/generatePrompt.ts:33-35 | `variado` gives the varied sentence and any other difficulty is quoted; the checklist always quotes it |
| Prompt.LanguageFollowsSetting | src/utils/generatePrompt.ts:45 | `pt-BR` is named in Portuguese and any other tag appears as given |
| Prompt.ExampleOptionsFollowSettings | src/utils/generatePrompt.ts:57 | the example's third option appears exactly for multiple choice, and its fourth exactly when more than three options are also asked for |
| Prompt.MixtureFollowsSetting | src/utils/generatePrompt.ts:37-43 | for a mixture the type instructions, the mixture hint and checklist item 5 appear; otherwise none of them does and the example shows the first type |
| Prompt.ExplanationsChangeOnlyTheirSlots | src/utils/generatePrompt.ts:28-58 | changing the explanations setting changes only its two slots |
| Prompt.GenerateAIPrompt | src/utils/generatePrompt.ts:3-69 | the text of every slot occurs in the prompt |
| PromptGenerator.Without | src/components/PromptGenerator/PromptForm.tsx:40 | the list without a type keeps exactly the other types |
| PromptGenerator.ToggleQuestionType | src/components/PromptGenerator/PromptForm.tsx:37-44 | a selected type is removed, leaving `[t]` instead of an empty list; an unselected one is appended; no other type changes |
| PromptGenerator.ToggleTwice | src/components/PromptGenerator/PromptForm.tsx:37-44 | switching an unselected type on and off restores a non-empty list |
| PromptGenerator.ToggleKeepsNoRepeats | src/components/PromptGenerator/PromptForm.tsx:37-44 | a list without repeats keeps none after a toggle |
| PromptGenerator.ApplyFieldChange | src/components/PromptGenerator/PromptForm.tsx:33-35 | the named field takes the value and every other field is kept |
| PromptGenerator.CopyLabel | src/components/PromptGenerator/PromptForm.tsx:156 | the button reads "Copiado!" while copied and "Copiar" otherwise |
| PromptGenerator.PromptForm.constructor | src/components/PromptGenerator/PromptForm.tsx:12-31 | five questions of four options, multiple choice, pt-BR, explanations on, no difficulty, no prompt, not copied |
| PromptGenerator.PromptForm.InputChange | src/components/PromptGenerator/PromptForm.tsx:33-35 | one field changes, the type list stays non-empty and without repeats |
| PromptGenerator.PromptForm.QuestionTypeChange | src/components/PromptGenerator/PromptForm.tsx:37-44 | only the type list changes, by `ToggleQuestionType`, and stays non-empty and without repeats |
| PromptGenerator.PromptForm.Submit | src/components/PromptGenerator/PromptForm.tsx:46-50 | the stored prompt is the one generated from the current settings, and it is never empty |
| PromptGenerator.PromptForm.CopyToClipboard | src/components/PromptGenerator/PromptForm.tsx:52-56 | the label switches to copied and a reset is due after 2000 ms |
| PromptGenerator.PromptForm.ResetCopied | src/components/PromptGenerator/PromptForm.tsx:55 | the reset clears the label and nothing else |
| NumberField.Increment | src/components/ui/NumberInput.tsx:41-48 | from null, the minimum's text or "1"; at or above the maximum, nothing; otherwise text that reads back as the next number; NaN stays NaN |
| NumberField.Decrement | src/components/ui/NumberInput.tsx:50-54 | from null, or at or below the minimum, nothing; otherwise text that reads back as the previous number |
| NumberField.StepsStayInBounds | src/components/ui/NumberInput.tsx:41-54 | from inside the bounds, a press that emits a value stays inside them |
| NumberField.StepsUndo | src/components/ui/NumberInput.tsx:41-54 | from inside the bounds, plus then minus comes back, and minus then plus |
| NumberField.SuggestionList.constructor | src/components/ui/NumberInput.tsx:27 | the list starts closed |
| NumberField.SuggestionList.Focus | src/components/ui/NumberInput.tsx:77-80 | focusing opens the list, shown exactly when it has entries |
| NumberField.SuggestionList.Toggle | src/components/ui/NumberInput.tsx:89-98 | the arrow button flips whether the list is shown |
| NumberField.SuggestionList.MouseDown | src/components/ui/NumberInput.tsx:30-39 | a press outside the field closes the list and one inside changes nothing |
| NumberField.SuggestionList.Pick | src/components/ui/NumberInput.tsx:119-122 | picking emits text that reads back as the entry's number, then closes the list |
| JsText.IntToStringRoundTrip | src/components/ui/NumberInput.tsx:47 | every integer is written as text that reads back as that integer |
| JsText.NatToString | src/components/ui/NumberInput.tsx:47 | a natural number is written as at least one decimal digit, with no leading zero |
| JsText.IntToString | src/components/ui/NumberInput.tsx:47 | an integer is written with a leading `-` exactly when it is negative, followed by decimal digits with no leading zero |
| JsText.IndexOf | src/services/openRouterService.ts:265 | the first position of the character, or -1 exactly when it is absent |
| JsText.LastIndexOf | src/services/openRouterService.ts:266 | the last position of the character, or -1 exactly when it is absent |
| JsText.Substring | src/services/openRouterService.ts:270 | both ends are clamped to the text and swapped when out of order |

## Left out

- Floating point. The score, the average time and the timer percentage are exact rational arithmetic with JavaScript's round-half-up. The results screen of a quiz without questions (a division by zero yielding `NaN`) is modelled as no page.
- React itself: component identity, renders, effect ordering between components, and `AnimatePresence`. A state setter is a field assignment, and each handler's updates are applied in order.
- Timers. `setInterval` and `setTimeout` are not run. A deferred call is returned as a value (`Pending`, `Expiry`, `CopyReset`) for the caller to perform.
- Time, randomness and fresh ids are parameters:
  - `Date.now()` is a parameter;
  - `crypto.randomUUID()` is a function from a counter to text;
  - the toast id from `Math.random()` is a parameter.
- Text parsing is outside the model:
  - `JSON.parse` is not modelled: its outcome (a syntax error or a parsed value) is the input of `QuizSchema.ValidateQuizJson`;
  - zod's issue lists are reduced to one schema error;
  - a stored entry is empty, unparsable or a parsed value.
- The network call to the model service, its retry loop over models, and the response handling around `extractAndRepairJson` are not modelled; only the extraction is.
- The clipboard write, `html2canvas` and the share and download of the result card image are not modelled.
- HTML form validation (`required`, `min`, `max`) is not modelled. A count field's value is the result of `parseInt` on its text: a number, `NaN` or `null`.
- GetUserPreferences: a stored object is taken to have the shape its writer gave it. A field of another type (a `showExplanations` of `"end"`, say) would pass through the spread unchanged, and the model's typed fields cannot hold it.
- EndExplanation: the mode is one of the three declared values; an ill-typed stored mode, which could equal `'end'`, is outside the model for the same reason.
- Model display names and descriptions are catalogue data and nothing is proved about them.
- Shuffling questions and options, and the quiz history, are not modelled: the code never uses the settings or keys that exist for them.
- Settings.SettingsProvider.UpdateSettings: the time limit is an integer, not the `parseInt` result of a cleared number field. With `NaN` as the limit the countdown never reaches `prev <= 1`, so the question never times out, and the timer bar is red. `JSON.stringify` writes `NaN` as `null`, so after a reload the limit is `null`.
- QuestionFlow.QuestionView.Tick: it does not cover a `NaN` or `null` limit. With `null`, `null <= 1` holds and the first tick times out with a recorded time of `null`.
- String lengths are counted in characters, not UTF-16 code units. Numbers are unbounded integers, not 64-bit floats.
- ModelStrategy.StableSortCorrect: it does not state that the result is the only stable sorted permutation of its input.
- The generated-content context, the import and export pages, the layout components and the remaining presentation components are not part of this model.

## Findings

| source | as written | input that shows it | evidently intended | confidence | as-written member | corrected member |
|---|---|---|---|---|---|---|
| src/components/Quiz/QuizQuestion.tsx:118-125, 152-154 | a deferred `goToNextQuestion` is the closure of the render that scheduled it: its guard reads that render's index while `prev => prev + 1` moves the live one; a timeout leaves nothing selected, so a click inside the 1500 ms delay schedules a second call | a two-question quiz, a one-second limit, no restart on error, explanations at the end: the countdown runs out on the first question and the user clicks an option 1200 ms after it appeared; the session is left active at index 2 with no question to show | one advance per question, with the index always on a question of the quiz | not executed | QuestionFlow.DoubleAdvance | QuestionFlow.RunPendingRechecked |
