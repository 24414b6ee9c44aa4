# Eco quiz: screen flow, mini-game sessions and progression

A Dafny model of the client-side core of a small environmental-education web
app. A player passes a loading screen and signs in with a demo login form.
From the dashboard they play one of two mini-games:

- a timed five-question multiple-choice quiz worth 20 points per correct answer;
- a four-question picture-selection game worth 15 points per correct pick.

Each game ends by handing a *completion* to the page: the points earned and a
list of badge labels. The page merges the completion into the cumulative user
stats:

- the points are added;
- the badges are merged through a JavaScript `Set`;
- the level is recomputed as `floor(points / 100) + 1`;
- a quiz also bumps the count of quizzes completed.

Logging out resets everything.

Modules:

- `Wrappers`: the `Option` type.
- `Lists`: `NoDup` and `Subsequence`, shared facts about sequences.
- `Progression`: `UserStats`, `Completion`, the level rule and the merge. The merge's badge handling is modelled as an insertion-ordered Set.
- `QuizGame`: the question bank, the scoring, the badge rules and the `QuizSession` class. It has one field per React state variable of the component, plus a ghost history of the recorded answers.
- `PictureGame`: the same as `QuizGame`, for the picture game and its `PictureSession` class.
- `ScreenController`: the `Index` class holding the page's state, with one method per handler. `Offered` gives the callbacks each rendered screen receives.
- `LoginForm`: the `trim` rule and the `LoginForm` class holding the form's state.

Where the code and the design description differ, the model follows the code:

- **Badges are an ordered list.** The design calls the badges a set of labels in which order is irrelevant. The code keeps an array, and `[...new Set(xs)]` fixes the order: prior badges first, each new label at its first occurrence. The model keeps that order and proves it: `MergeBadgeOrder` shows the prior badges stay first and the new ones follow in the order they were earned.
- **Handlers do not check the current screen.** The design describes a transition table. The page's handlers set the next screen whatever the current one is: the route is fixed only by which callbacks the rendered component is given. The methods of `Index` therefore have no screen precondition. Which moves are reachable is stated separately, by `Offered` and `OfferedMoves`.
- **Invalid actions are unreachable, not no-ops.** The design treats answering twice or advancing early as no-ops. In the code such calls never happen, because the buttons are not rendered. The session methods say so in their `requires`:
  - answer buttons exist only while no result is shown (QuizGame.tsx:197-210, PictureGame.tsx:184-199);
  - the Next button exists only after one is shown and before the game completes (QuizGame.tsx:113, 249-254).

## Model

| member | source | states |
|---|---|---|
| Progression.LevelFor | src/pages/Index.tsx:47 | the level is at least 1 and is the unique `l` with `(l-1)*100 <= points < l*100`, i.e. `floor(points/100)+1` |
| Progression.SetAddAll | src/pages/Index.tsx:46 | adding items to an insertion-ordered Set keeps the held elements first and in order, keeps duplicate-freedom, and holds exactly the held and added elements |
| Progression.Dedup | src/pages/Index.tsx:46 | `[...new Set(s)]` has no duplicates and has exactly the members of `s` |
| Progression.SetAddAllConcat | src/pages/Index.tsx:46 | spreading `a + b` into a Set equals adding `a`, then `b` |
| Progression.SetAddAllFresh | src/pages/Index.tsx:46 | adding distinct, not-yet-held elements appends them in order |
| Progression.SetAddAllSuffix | src/pages/Index.tsx:46 | what the Set adds after the held elements is a subsequence of the added items: new elements keep their arrival order |
| Progression.DedupOfDistinct | src/pages/Index.tsx:46 | a duplicate-free list passes through the Set unchanged |
| Progression.DedupIdempotent | src/pages/Index.tsx:46 | deduplicating twice equals deduplicating once |
| Progression.DedupAppend | src/pages/Index.tsx:46 | `[...new Set([...a, ...b])]` for duplicate-free `a` is `a` followed by the new elements of `b` |
| Progression.Merge | src/pages/Index.tsx:42-61 | points are added; the level is recomputed from the new points; badges are the duplicate-free union of prior and earned; quizzesCompleted grows by one exactly for a quiz |
| Progression.MergeBadgeOrder | src/pages/Index.tsx:46-57 | the merged badges are the prior badges, unchanged and first, followed by the newly earned ones in the order they were earned |
| Progression.MergeKeepsConsistent | src/pages/Index.tsx:42-61 | after any merge the level matches the points and no badge is held twice |
| Progression.MergeLevelMonotone | src/pages/Index.tsx:45-47 | a completion never lowers the level, and raises it whenever the new total reaches the next multiple of 100 |
| QuizGame.BankWellFormed | src/components/QuizGame.tsx:21-62 | five questions, four options each, each correct index within its options |
| QuizGame.CorrectCount | src/components/QuizGame.tsx:85-86 | the score of a run of answers never exceeds the number answered |
| QuizGame.CorrectCountAll | src/components/QuizGame.tsx:85-86 | the score equals the number answered exactly when every answer is its question's correct index (both directions) |
| QuizGame.TimeoutsScoreNothing | src/components/QuizGame.tsx:76-86 | answers that are all the timeout sentinel -1 score nothing |
| QuizGame.QuizBadges | src/components/QuizGame.tsx:99-102 | Quiz Master iff score >= 3, Perfect Score iff score == 5, Eco Learner iff score >= 1, no other label, none twice |
| QuizGame.QuizBadgesByScore | src/components/QuizGame.tsx:99-102 | the exact badge list for each score range; it is always a subsequence of the push order |
| QuizGame.QuizResult | src/components/QuizGame.tsx:99-105 | the completion's points are the score in steps of 20, at most 100 for a full game; Perfect Score is awarded exactly at 100 points; no badge exactly at 0 points |
| QuizGame.QuizResultBounds | src/components/QuizGame.tsx:105 | a full game's points are 20 per correct answer and at most 100 |
| QuizGame.PerfectQuizScenario | src/components/QuizGame.tsx:99-105 | five correct answers give 100 points and all three badges in push order |
| QuizGame.AllTimeoutsScenario | src/components/QuizGame.tsx:76-105 | five timeouts give 0 points and no badge |
| QuizGame.QuizSession.constructor | src/components/QuizGame.tsx:65-70 | first question, nothing selected, score 0, no explanation, 30 seconds, not complete |
| QuizGame.QuizSession.HandleAnswer | src/components/QuizGame.tsx:81-88 | records the answer, shows the explanation, adds one point iff it is the correct index; the question, clock and completion are unchanged |
| QuizGame.QuizSession.Tick | src/components/QuizGame.tsx:72-79 | while unanswered, one second elapses; at zero, the sentinel -1 is answered and scores nothing; once answered, nothing changes |
| QuizGame.QuizSession.NextQuestion | src/components/QuizGame.tsx:90-107 | before the last question, advances, clears the selection and restarts the clock at 30; on the last, completes the game and yields 20 points per correct answer with the score's badges |
| QuizGame.LetClockRunOut | src/components/QuizGame.tsx:72-79 | an unanswered question left alone ends answered with -1, with the clock at 0 and the score unchanged |
| QuizGame.PlayAllTimeouts | src/components/QuizGame.tsx:72-107 | a whole quiz that always times out completes with 0 points and no badge |
| QuizGame.PlayAnswers | src/components/QuizGame.tsx:81-107 | any five answers played through the session complete with the result of their correct count |
| QuizGame.PlayPerfectQuiz | src/components/QuizGame.tsx:21-107 | answering 0, 2, 2, 1, 1 completes with 100 points and Quiz Master, Perfect Score, Eco Learner |
| PictureGame.CorrectOptions | src/components/PictureGame.tsx:15 | the number of options flagged correct is at most the number of options |
| PictureGame.BankWellFormed | src/components/PictureGame.tsx:25-74 | four questions, four options each, exactly one of them flagged correct |
| PictureGame.CorrectCount | src/components/PictureGame.tsx:90-91 | the score of a run of picks never exceeds the number of picks |
| PictureGame.CorrectCountAll | src/components/PictureGame.tsx:90-91 | the score equals the number of picks exactly when every picked option is flagged correct (both directions) |
| PictureGame.PictureBadges | src/components/PictureGame.tsx:103-106 | Picture Perfect iff score >= 3, Visual Expert iff score == 4, Sharp Eye iff score >= 1, no other label, none twice |
| PictureGame.PictureBadgesByScore | src/components/PictureGame.tsx:103-106 | the exact badge list for each score; it is always a subsequence of the push order |
| PictureGame.PictureResult | src/components/PictureGame.tsx:103-109 | the completion's points are the score in steps of 15, at most 60 for a full game; Visual Expert is awarded exactly at 60 points; no badge exactly at 0 points |
| PictureGame.PictureResultBounds | src/components/PictureGame.tsx:109 | a full game's points are 15 per correct pick and at most 60 |
| PictureGame.ThreeOfFourScenario | src/components/PictureGame.tsx:103-109 | three correct picks give 45 points, Picture Perfect and Sharp Eye, and no Visual Expert |
| PictureGame.ThreeCorrectPicks | src/components/PictureGame.tsx:25-91 | Bicycle, Solar, Refuse, Online Shopping are valid picks scoring three |
| PictureGame.PictureSession.constructor | src/components/PictureGame.tsx:77-81 | first question, nothing selected, score 0, no result shown, not complete |
| PictureGame.PictureSession.HandleOptionSelect | src/components/PictureGame.tsx:86-93 | records the pick, shows the result, adds one point iff the option is flagged correct |
| PictureGame.PictureSession.NextQuestion | src/components/PictureGame.tsx:95-112 | before the last question, advances and clears the selection; on the last, completes and yields 15 points per correct pick with the score's badges |
| PictureGame.PlayPicks | src/components/PictureGame.tsx:86-112 | any four valid picks played through the session complete with the result of their correct count |
| PictureGame.PlayThreeOfFour | src/components/PictureGame.tsx:25-112 | picking Bicycle, Solar, Refuse, Online Shopping completes with 45 points, Picture Perfect and Sharp Eye |
| ScreenController.Offered | src/pages/Index.tsx:63-97 | each callback is given exactly on its screens: Back on the two game screens, Logout on the dashboard, loading-complete on loading, login on the login form, quiz completion only on the quiz, picture completion only on the picture game |
| ScreenController.Target | src/pages/Index.tsx:27-93 | no handler sets the loading screen; login is set exactly by loading-complete and logout; the quiz exactly by start-quiz; the picture game exactly by start-picture-game; every other handler sets the dashboard |
| ScreenController.OfferedMoves | src/pages/Index.tsx:27-97 | from each screen the offered callbacks lead only along loading, login, dashboard, quiz or picture, dashboard, and logout to login; loading is never re-entered |
| ScreenController.Index.constructor | src/pages/Index.tsx:18-25 | loading screen, empty username, stats {0, [], 1, 0} |
| ScreenController.Index.HandleLoadingComplete | src/pages/Index.tsx:27-29 | shows login; username and stats unchanged |
| ScreenController.Index.HandleLogin | src/pages/Index.tsx:31-34 | stores the name and shows the dashboard; stats unchanged |
| ScreenController.Index.HandleLogout | src/pages/Index.tsx:36-40 | clears the username, resets stats to exactly {0, [], 1, 0}, shows login |
| ScreenController.Index.HandleQuizComplete | src/pages/Index.tsx:42-51 | stats become the merge with one more quiz, prior badges first; shows the dashboard; keeps the stats invariant |
| ScreenController.Index.HandlePictureGameComplete | src/pages/Index.tsx:53-61 | stats become the merge without a quiz count, prior badges first; shows the dashboard; keeps the stats invariant |
| ScreenController.Index.StartQuiz | src/pages/Index.tsx:92 | shows the quiz; nothing else changes |
| ScreenController.Index.StartPictureGame | src/pages/Index.tsx:93 | shows the picture game; nothing else changes |
| ScreenController.Index.Back | src/pages/Index.tsx:75-84 | shows the dashboard; the stats are untouched |
| ScreenController.EcoLearnerScenario | src/pages/Index.tsx:43-49 | 80 points with Eco Learner plus a 20-point quiz earning it again gives 100 points, level 2, and Eco Learner once |
| LoginForm.IsWhitespace | src/components/LoginForm.tsx:18-19 | the characters `trim` removes: among ASCII exactly space and tab through carriage return; never a letter or digit |
| LoginForm.ContentStart | src/components/LoginForm.tsx:18-19 | the first non-whitespace index at or after a position, with only whitespace skipped |
| LoginForm.ContentEnd | src/components/LoginForm.tsx:18-19 | the end of the content of a range, with only trailing whitespace cut off |
| LoginForm.Trim | src/components/LoginForm.tsx:18-19 | the trimmed name is a contiguous piece with only whitespace around it, has no whitespace at either end, and is empty iff the input is all whitespace |
| LoginForm.TrimUnique | src/components/LoginForm.tsx:18-19 | any non-empty piece with whitespace around it and none at its own ends is the trimmed name |
| LoginForm.TrimIdempotent | src/components/LoginForm.tsx:18-19 | trimming twice equals trimming once |
| LoginForm.SubmittedName | src/components/LoginForm.tsx:16-21 | no login iff the name is all whitespace; otherwise the login carries the trimmed, non-empty name |
| LoginForm.Submission | src/components/LoginForm.tsx:16-71 | a press of submit logs in iff the password is non-empty and the username is not all whitespace; an empty field never logs in; a login carries the trimmed name |
| LoginForm.LoginForm.constructor | src/components/LoginForm.tsx:12-14 | sign-in mode, empty username and password |
| LoginForm.LoginForm.SetUsername | src/components/LoginForm.tsx:57 | sets the username; password and mode unchanged |
| LoginForm.LoginForm.SetPassword | src/components/LoginForm.tsx:70 | sets the password; username and mode unchanged |
| LoginForm.LoginForm.ToggleMode | src/components/LoginForm.tsx:87 | flips sign-in / sign-up mode and keeps what was typed |
| LoginForm.LoginForm.HandleSubmit | src/components/LoginForm.tsx:16-21 | onLogin receives the trimmed username iff it is not all whitespace; password and mode play no part; nothing changes |
| LoginForm.LoginForm.Submit | src/components/LoginForm.tsx:49-71 | the submit button: the required fields block an empty username or password, the handler decides otherwise; logs in iff the password is non-empty and the username not all whitespace, with the trimmed name; nothing changes |

## Left out

- Rendering: JSX, styling, icons, and the option emojis, prompts, descriptions and explanations. The progress percentage and the score messages on the result screen are display-only too.
- Wall-clock timing: the countdown is modelled as one run of its effect per `Tick`, not as seconds. The 2-second delay before `onComplete` and the cancellation of pending timers on unmount are not modelled, since the model has no clock. `NextQuestion` returns the completion at once; the page receives it through `HandleQuizComplete` / `HandlePictureGameComplete`.
- React semantics: batched state updates and re-renders are not modelled. Each handler is one atomic step on its session's or page's fields.
- `QuizGame.QuizSession.HandleAnswer` and `PictureGame.PictureSession.HandleOptionSelect` require that no result is shown, and `NextQuestion` requires that one is shown and the game is not complete. The source never calls these outside those states, because the buttons are not rendered then. Calls outside them are not modelled.
- `PictureGame.PictureSession.HandleOptionSelect` requires an index within the current question's options. Only such indices are rendered as buttons; any other index would make the source throw.
- `ScreenController.Index.HandleQuizComplete`: points are a `nat`. The only callers pass `score * 20` or `score * 15`. A negative number or a non-integer from some other caller is not modelled.
- `LoginForm.Trim`: the whitespace set of `String.prototype.trim` is written out as code points. Strings are sequences of characters, with no UTF-16 surrogate detail.
- `Difficulty` is carried in the question bank but affects no rule; it is only displayed.
- src/components/LoadingScreen.tsx and src/components/Dashboard.tsx are not part of this model. They are represented only by the callbacks they invoke: `HandleLoadingComplete`, `StartQuiz`, `StartPictureGame` and `HandleLogout`.
- UI components, routing outside the page, and real authentication are not part of this model. The password is only required to be non-empty (`Submit`); its value is never compared with anything.
- `LoginForm.Submit`: the browser's constraint validation is modelled only for the `required` attribute of the two inputs, i.e. an empty value blocks submission.
