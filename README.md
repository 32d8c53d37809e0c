# DermaScan logic, modelled in Dafny

DermaScan is a Next.js web app for skin and beauty analysis. Users upload a face photo. Two API routes send it to a generative model and return a JSON verdict. Around these routes sit client-side state machines:
- the 22-step diet and skin questionnaire;
- the upload, analyse, results and history flow of the beauty-analysis and skin-analysis pages;
- a three-step diet-plan dialog;
- small data operations: sleep durations, the sleep log upsert, streaks, chat messages, likes and hashtags, the image-upload gate, and the layout switch.

This project models that logic and proves what the code promises about it.

Modules follow the source files, one module per file:

| module | models |
|---|---|
| `AnalysisRoute` | what both API routes share: `formData.get`, the request sent to the model, the error responses, and how the final model call settles |
| `SkinAnalysisRoute` | the three-pass skin route, `completeSkinAnalysisPrompt`, the label lists and the TypeBox schemas |
| `BeautyAnalysisRoute` | the one-pass beauty route and its 24-field schema |
| `Json` | parsed JSON values, TypeBox-style conformance, and `JSON.stringify` on string arrays |
| `JsString` | the JavaScript string built-ins the code relies on: `trim`, `startsWith`, `split`, `Number.parseInt`, `toString` on integers, and the array built-ins `a[i]` and `reverse` |
| `Questionnaire` | the questionnaire wizard page |
| `BeautyAnalysisPage`, `SkinAnalysisPage` | the two analysis pages |
| `SleepLog` | durations and the log operations shared by the two sleep trackers |
| `SleepTracker`, `SimpleSleepTracker` | the two sleep trackers |
| `StreakCounter`, `AiChatbot`, `BeautyFeed`, `TrendingLooks`, `ImageUploader`, `DietPlanQuestionnaire`, `ConditionalLayout` | the components of the same names |
| `ToggleMap`, `Browser`, `Wrappers` | shared helpers: the like/save flag maps, browser values (`File`, thrown values, truthiness), and `Option`/`Result` |

## How the model is built

- **External services are parameters.** The generative model is a function parameter from request to outcome: either it throws with a message, or it answers with a text that may be undefined. `JSON.parse` is a partial-function parameter. A route method returns its HTTP response and the list of model calls it made.
- **React state is a class.** Each component's state becomes class fields, and each handler becomes a method that states the whole new state. An awaited call or a timer is split in two: the handler, and a later method taking the outcome, such as `AnalysisSettled`, `BotReplied`, `ReadSettled`, `CompleteAfterDelay`, `HideSuccess` or `EndCelebration`. The effect hooks are methods too: `UpdateProgress` and `CheckGoal`.
- **Dates are integer day numbers**, so `isSameDay` is equality.
- **Durations are integer minutes.** The source computes hours; minutes are that value times 60. A NaN from `parseInt` is `None`.
- **JavaScript semantics are written out:**
  - falsy `""` and `null`;
  - the truncating `%` in the star rating;
  - `Array(n)` failing on a negative length, so scores of 110 and above, or below 0, give no rating;
  - `??` replacing only `undefined`;
  - `{ ...prev, [id]: !prev[id] }` on a missing key.

### Where the code and its description differ (the model follows the code)

- **Failing first or second skin pass.** It is not absorbed. A throw from it is caught by the outer `catch` and answered with 500. Only an undefined text is replaced, by "Unknown response" (route.ts:343-348).
- **Empty first or second text.** It passes through unchanged. `??` does not replace `""`.
- **The "unknown" / "healthy skin" normalisation.** It exists only as instruction text inside the prompt. No code performs it.
- **Schema validation of the model's answer.** The routes do none locally. The schemas are only sent to the model as `responseSchema`, so a 200 body is whatever `JSON.parse` returned. The `Conforms` lemmas describe what the schema declares, not something the route checks.
- **The questionnaire's initial progress of 4.5.** It is overwritten by the progress effect on mount, which `UpdateProgress` models.
- **The simple sleep tracker's streak.** It counts saves, not days. A second save on the same day extends the streak again (`SecondSaveSameDay`).
- **Sort order of the sleep logs.** They are sorted by `getTime()`. The model sorts by day number. The two agree because every log holds at most one entry per day (`OnePerDay`).
- **Stale uploader reads.** `ImageUploader` never cancels a running file read. If a rejected file removes the image while a read is still running, the read later shows its preview with no file selected (`ImageUploader.StaleRead`).
- **The streak celebration repeats.** The goal effect restarts it each time its timer ends while the goal stays reached (`StreakCounter.IncrementReachesGoal`).

## Model

| member | source | states |
|---|---|---|
| AnalysisRoute.FormGet | app/api/skin-analysis/route.ts:280-281 | `formData.get` returns null exactly when no field has the name; otherwise the value of the first field with that name |
| AnalysisRoute.ServerError | app/api/skin-analysis/route.ts:382-397 | the catch block answers 500, and the `error` field a client reads is the error's message, or "Internal Server Error" when that is empty: never an empty message |
| AnalysisRoute.BadRequest | app/api/skin-analysis/route.ts:283-287 | a request without an image is answered 400, and its `error` field is "Missing `analysisImage` file upload." |
| AnalysisRoute.Settle | app/api/skin-analysis/route.ts:366-380 | the final call is answered 200 or 500 only; 200 exactly when the call ended in a parsed value; every 500 carries a non-empty error message |
| AnalysisRoute.SettleByEnding | app/api/skin-analysis/route.ts:366-380 | the final call ends in 200 with the parsed value unchanged only on success; a missing or empty text gives 500 "Gemini API returned an empty or invalid response."; unparsable text gives 500 "Invalid JSON format received from Gemini API."; a throw gives 500 with its message |
| AnalysisRoute.SettleSuccessIsParsed | app/api/beauty-analysis/route.ts:113-120 | a 200 answer's body is exactly what JSON.parse made of a non-empty final text; nothing else reaches a success body |
| SkinAnalysisRoute.Post | app/api/skin-analysis/route.ts:279-397 | a falsy `analysisImage` means 400 with the missing-upload error and no model call; a text field in its place fails uncaught before any call; for a file there are three calls in order, a throw in pass 1 or 2 stops there with 500, and pass 3 gets the differential prompt built from both texts and settles as SettleByEnding says |
| SkinAnalysisRoute.Pass1Request | app/api/skin-analysis/route.ts:295-311 | the first pass calls `gemini-2.0-flash` with one `user` turn, its first prompt then the image bytes with the file's MIME type, and no config |
| SkinAnalysisRoute.Pass2Request | app/api/skin-analysis/route.ts:314-330 | the second pass sends the same image after the second prompt, with no config |
| SkinAnalysisRoute.Pass3Request | app/api/skin-analysis/route.ts:336-363 | the final pass sends the differential prompt built from both texts (each replaced by "Unknown response" only when undefined) and both label lists, with the image, asking for JSON in the result schema |
| SkinAnalysisRoute.MissingTextBecomesUnknown | app/api/skin-analysis/route.ts:343-348 | a missing first- or second-pass text still yields a differential prompt, which contains "Unknown response" |
| SkinAnalysisRoute.DifferentialCarriesTexts | app/api/skin-analysis/route.ts:343-348 | the differential prompt contains both earlier texts verbatim, the empty string included |
| SkinAnalysisRoute.CompletePromptContents | app/api/skin-analysis/route.ts:91-129 | completeSkinAnalysisPrompt's result has nothing left to trim, starts with "Examine", and contains disease1, disease2 and the JSON encodings of both label lists |
| SkinAnalysisRoute.PromptIsBody | app/api/skin-analysis/route.ts:97-126 | `.trim()` removes exactly the template literal's leading and trailing blanks |
| SkinAnalysisRoute.FilledTemplateTrims | app/api/skin-analysis/route.ts:97-126 | any filling of the template, between blank margins, trims to the filling itself |
| SkinAnalysisRoute.FilledTemplateContents | app/api/skin-analysis/route.ts:98-122 | the filled template begins with its first piece and contains every interpolated value |
| SkinAnalysisRoute.TemplateEnds | app/api/skin-analysis/route.ts:97-126 | the template's margins are blanks; its text starts with "Examine" and ends with a full stop |
| SkinAnalysisRoute.RemedySchemaMeans | app/api/skin-analysis/route.ts:187-199 | a value conforms to RemedySchema exactly when it has string name, instructions and benefits, an array of string ingredients, and an optional string image |
| SkinAnalysisRoute.SkinResultScoresBounded | app/api/skin-analysis/route.ts:215-276 | a conforming result has all eleven bounded scores (the ten skin scores and confidenceScore) as integers in 0..100, and predictedConditionName, when present, is a string |
| SkinAnalysisRoute.ConditionRemediesShaped | app/api/skin-analysis/route.ts:203-212 | present condition details have a string name and description, and every remedy has the remedy shape |
| BeautyAnalysisRoute.Post | app/api/beauty-analysis/route.ts:69-137 | a falsy `analysisImage` means 400 with no model call; a text field in its place fails uncaught before any call; for a file exactly one call (fixed prompt, image, beauty schema), settled as SettleByEnding says |
| BeautyAnalysisRoute.BeautyRequest | app/api/beauty-analysis/route.ts:82-104 | the one call sends the assessment prompt then the image, asking for JSON in the beauty schema |
| BeautyAnalysisRoute.SchemaLayout | app/api/beauty-analysis/route.ts:41-66 | the schema declares 24 required fields: 20 integer scores, then the three number measurements, then one more integer score |
| BeautyAnalysisRoute.SchemaMeansShape | app/api/beauty-analysis/route.ts:41-66 | conformance to beautyAnalysisSchema means every integer field is an integer and every measurement a number, with no bounds declared |
| Json.Lookup | app/api/skin-analysis/route.ts:373 | a parsed object's `obj[key]` is undefined exactly when no member has the key, and otherwise one of its members |
| Json.LookupIsLast | app/api/skin-analysis/route.ts:373 | `obj[key]` is the value of the last member with that key, as JSON.parse keeps the last duplicate |
| Json.FindProperty | app/api/skin-analysis/route.ts:215-276 | finding a schema property by name gives an index whose property has that name, or proves that none does |
| Json.RequiredIntegerProperty | app/api/skin-analysis/route.ts:216-220 | a conforming object has each required bounded integer property present, integral and within its bounds |
| Json.RequiredProperty | app/api/skin-analysis/route.ts:203-211 | a conforming object has each required property, and that property conforms to its own schema |
| Json.OptionalPropertyMayBeAbsent | app/api/skin-analysis/route.ts:196-198 | an absent optional property never makes an otherwise conforming object fail |
| Json.EscapeRoundTrip | app/api/skin-analysis/route.ts:117-122 | JSON.stringify's string escaping loses nothing: the escaped text reads back as the original string |
| Json.EscapePlain | app/api/skin-analysis/route.ts:117-122 | a string without quotes, backslashes or control characters is written unchanged |
| Json.StringifyStrings | app/api/skin-analysis/route.ts:117-122 | the stringified array is bracketed |
| Json.StringifyHasEach | app/api/skin-analysis/route.ts:117-122 | every label, quoted and escaped, appears in the stringified list |
| Json.JoinQuotedHasEach | app/api/skin-analysis/route.ts:117-122 | every quoted element appears in the comma-joined body of the array |
| Json.UnescapeChar | app/api/skin-analysis/route.ts:117-122 | reading back one escaped character gives that character, whatever follows |
| Json.HexDigit | app/api/skin-analysis/route.ts:117-122 | the `\u` escape's digits read back to the value they encode |
| JsString.TrimShape | app/api/skin-analysis/route.ts:126 | `trim` returns a slice of its input with no blank at either end |
| JsString.TrimIdempotent | app/api/skin-analysis/route.ts:126 | trimming twice is trimming once |
| JsString.TrimEmptyIff | components/ai-chatbot.tsx:55 | a string trims to "" exactly when it is all blanks |
| JsString.TrimAround | app/api/skin-analysis/route.ts:97-126 | blanks around a body with non-blank ends are exactly what `trim` removes |
| JsString.Split | components/sleep-tracker.tsx:36-39 | `split` always yields at least one piece |
| JsString.SplitPiecesLackSeparator | components/beauty-feed.tsx:100-101 | no piece of `split` contains the separator |
| JsString.SplitWithoutSeparator | components/sleep-tracker.tsx:36-39 | a string without the separator splits into itself alone |
| JsString.SplitJoin | components/sleep-tracker.tsx:36-39 | joining the pieces of `split` with the separator gives the original string back |
| JsString.SplitConcat | components/beauty-feed.tsx:100-101 | splitting at a separator splits the two sides independently |
| JsString.ParseInt | components/sleep-tracker.tsx:36-39 | `Number.parseInt` of undefined is NaN |
| JsString.BlanksSkipped | components/streak-counter.tsx:19 | the blanks `parseInt` skips are exactly the ones `trimStart` removes |
| JsString.ParseIntNaN | components/sleep-tracker.tsx:36-39 | after blanks and a sign, NaN exactly when no digit of the radix follows; the result is non-negative without a minus sign and non-positive with one |
| JsString.ParseIntDecimal | components/sleep-tracker.tsx:36-39 | a run of decimal digits reads as its value, whatever non-digit follows; only a lone "0" before "x" or "X" reads otherwise |
| JsString.ParseIntHex | components/streak-counter.tsx:19 | "0x" or "0X" followed by base-16 digits reads as their base-16 value |
| JsString.ParseIntSkipsBlank | components/streak-counter.tsx:19 | a leading blank does not change the result |
| JsString.ParseIntSign | components/streak-counter.tsx:19 | a leading "-" negates the result (NaN stays NaN) and a leading "+" changes nothing |
| JsString.NatToString | components/streak-counter.tsx:83 | `toString` of a natural number is a non-empty run of digits with no leading zero |
| JsString.IntToString | components/streak-counter.tsx:83 | `toString` of an integer is non-empty and starts with "-" exactly for a negative number |
| JsString.ParseIntToString | components/streak-counter.tsx:19-83 | `parseInt` reads back every integer `toString` writes |
| JsString.Reverse | components/sleep-tracker.tsx:146 | `reverse` gives a sequence of the same length that reads the original from its end |
| JsString.StartsWithTrans | app/api/skin-analysis/route.ts:97-126 | a prefix of a prefix is a prefix |
| Questionnaire.OrdinalRange | app/questionnaire/page.tsx:221-228 | the global step is currentStep (diet) or 11 + currentStep (skin), always in 1..22 |
| Questionnaire.OrdinalInjective | app/questionnaire/page.tsx:221-228 | two valid positions with the same global step are the same position |
| Questionnaire.QuestionAt | app/questionnaire/page.tsx:217-219 | the question shown at a position is the one at its global step in the diet questions followed by the skin questions |
| Questionnaire.Advance | app/questionnaire/page.tsx:251-260 | an answered, non-final Next moves one global step forward, from diet step 11 to skin step 1 |
| Questionnaire.Retreat | app/questionnaire/page.tsx:270-285 | Previous after the first step moves one global step back, from skin step 1 to diet step 11 |
| Questionnaire.AdvanceRetreatRoundTrip | app/questionnaire/page.tsx:251-285 | Previous undoes any non-completing Next, and Next undoes Previous |
| Questionnaire.ProgressBounds | app/questionnaire/page.tsx:221-228 | progress is position / 22 * 100: in (0, 100], strictly increasing in the position, and 100 only at skin step 11 |
| Questionnaire.Without | app/questionnaire/page.tsx:310 | unticking keeps exactly the items different from the value |
| Questionnaire.TickUntick | app/questionnaire/page.tsx:301-313 | unticking a value ticked just before restores the earlier list |
| Questionnaire.WithoutKeepsOthers | app/questionnaire/page.tsx:310 | removing an absent value leaves the list unchanged |
| Questionnaire.QuestionnairePage.constructor | app/questionnaire/page.tsx:15-49 | the wizard starts at diet step 1, not complete, with every answer empty |
| Questionnaire.QuestionnairePage.UpdateProgress | app/questionnaire/page.tsx:221-228 | the progress effect sets progress from the current (section, step) |
| Questionnaire.QuestionnairePage.HandleNext | app/questionnaire/page.tsx:230-268 | an unanswered question (empty radio, empty checkbox list) changes nothing; otherwise one step forward, or the confetti at skin step 11 |
| Questionnaire.QuestionnairePage.CompleteAfterDelay | app/questionnaire/page.tsx:264-266 | the delayed step marks the wizard complete |
| Questionnaire.QuestionnairePage.HandlePrevious | app/questionnaire/page.tsx:270-285 | nothing at diet step 1, otherwise one global step back; the invariant 1 <= step <= 11 is kept |
| Questionnaire.QuestionnairePage.HandleDietChange | app/questionnaire/page.tsx:287-292 | only the named diet field changes |
| Questionnaire.QuestionnairePage.HandleSkinChange | app/questionnaire/page.tsx:294-299 | only the named skin field changes |
| Questionnaire.QuestionnairePage.HandleSkinCheckboxChange | app/questionnaire/page.tsx:301-313 | ticking appends the value, unticking removes every copy; other values and other fields are unchanged |
| BeautyAnalysisPage.PushHistory | components/pages/beautyanalysis.tsx:64 | the new entry goes first, followed by the old history, cut to at most 20 |
| BeautyAnalysisPage.PushAll | components/pages/beautyanalysis.tsx:64 | after one or more analyses the history holds min(old + new, 20) entries and starts with the latest result |
| BeautyAnalysisPage.PushAllNewestFirst | components/pages/beautyanalysis.tsx:64 | after any number of analyses the history is the last 20 results, newest first |
| BeautyAnalysisPage.ClippedAppend | components/pages/beautyanalysis.tsx:64 | cutting before or after appending gives the same prefix |
| BeautyAnalysisPage.ScoreBand | components/pages/beautyanalysis.tsx:104-109 | the bands are green at 90 and above, emerald at 80-89, blue at 70-79, amber below 70 |
| BeautyAnalysisPage.ScoreColor | components/pages/beautyanalysis.tsx:104-109 | the colour class is "text-" + the band's colour + "-500" |
| BeautyAnalysisPage.ScoreColorMonotone | components/pages/beautyanalysis.tsx:104-109 | a higher score never gets a lower band |
| BeautyAnalysisPage.GradientStartsAtColour | components/pages/beautyanalysis.tsx:104-116 | the score's gradient starts at the colour its text is drawn in |
| BeautyAnalysisPage.GradientFollowsColor | components/pages/beautyanalysis.tsx:104-116 | two scores share a gradient exactly when they share a text colour |
| Browser.ErrorMessage | components/pages/beautyanalysis.tsx:70 | `error instanceof Error ? error.message : fallback` (also skinanalysis.tsx:115): an Error gives its message; the fallback appears only for a non-Error or an Error carrying the fallback text |
| BeautyAnalysisPage.ScoreChange | components/pages/beautyanalysis.tsx:123-128 | null at the last index (and where no older entry exists), otherwise current - history[i+1].overall |
| BeautyAnalysisPage.TruncatedRem | components/pages/beautyanalysis.tsx:132 | JavaScript's `%` agrees with the Euclidean remainder on non-negative scores |
| BeautyAnalysisPage.StarRating | components/pages/beautyanalysis.tsx:130-133 | full = floor(score / 20), half iff score % 20 >= 10, the counts sum to 5; fails exactly when the empty count would be negative (score >= 110) or full would be (score < 0) |
| BeautyAnalysisPage.StarsAreHalfSteps | components/pages/beautyanalysis.tsx:130-133 | for scores 0..100 the stars show the score in half-star steps: 2 * full + half = score / 10 |
| BeautyAnalysisPage.BeautyAnalysisPage.DisplayedScores | components/pages/beautyanalysis.tsx:98-100 | in the history view with a non-empty history the scores shown are the entry at the current history index; otherwise the current scores |
| BeautyAnalysisPage.BeautyAnalysisPage.constructor | components/pages/beautyanalysis.tsx:25-38 | the page starts on the upload tab with zeroed scores and an empty history |
| BeautyAnalysisPage.BeautyAnalysisPage.ResetAnalysis | components/pages/beautyanalysis.tsx:77-85 | results and error are cleared, the tab returns to upload and the scores are zeroed; the history is untouched |
| BeautyAnalysisPage.BeautyAnalysisPage.HandleImageSelected | components/pages/beautyanalysis.tsx:42-48 | the file and preview are stored, and the analysis is reset when results or a non-empty error were showing |
| BeautyAnalysisPage.BeautyAnalysisPage.TriggerApiAnalysis | components/pages/beautyanalysis.tsx:50-58 | without a file only the error "Please select an image to analyze." is set and no request is made; otherwise loading starts |
| BeautyAnalysisPage.BeautyAnalysisPage.AnalysisSettled | components/pages/beautyanalysis.tsx:59-74 | success puts the new entry in the scores and at the front of the history (at most 20) and shows the results; failure shows the message on the upload tab; loading ends either way |
| BeautyAnalysisPage.BeautyAnalysisPage.SelectTab | components/pages/beautyanalysis.tsx:187 | the disabled results tab cannot be chosen before results exist |
| BeautyAnalysisPage.BeautyAnalysisPage.ToggleHistoryView | components/pages/beautyanalysis.tsx:87 | flips the history view only |
| BeautyAnalysisPage.BeautyAnalysisPage.ToggleSymmetryComparison | components/pages/beautyanalysis.tsx:88 | flips the symmetry comparison only |
| BeautyAnalysisPage.BeautyAnalysisPage.NavigateHistory | components/pages/beautyanalysis.tsx:90-96 | the index moves by exactly one or not at all, and stays within the history |
| SkinAnalysisPage.ScoreBand | components/pages/skinanalysis.tsx:136 | five colour bands, at 85, 70, 55 and 40 |
| SkinAnalysisPage.ScoreColorMonotone | components/pages/skinanalysis.tsx:136 | a higher score never gets a lower colour band |
| SkinAnalysisPage.ScoreColor | components/pages/skinanalysis.tsx:136 | the colour class is "text-" + the band's colour + "-500" |
| SkinAnalysisPage.GradientStartsAtColour | components/pages/skinanalysis.tsx:136-137 | from 55 up the gradient starts at the colour the score text is drawn in |
| SkinAnalysisPage.LowScoresGradient | components/pages/skinanalysis.tsx:137 | below 55 the gradient is amber to orange, whatever the yellow or red text colour |
| SkinAnalysisPage.GradientBands | components/pages/skinanalysis.tsx:136-137 | two scores share a gradient exactly when they share a colour band or are both below 55 |
| SkinAnalysisPage.SkinAnalysisPage.constructor | components/pages/skinanalysis.tsx:29-43 | the page starts on the upload tab with nothing selected and the wrinkles heatmap |
| SkinAnalysisPage.SkinAnalysisPage.ResetAnalysis | components/pages/skinanalysis.tsx:122-131 | results, error, file, preview, remedy view and issue are cleared, and the tab returns to upload |
| SkinAnalysisPage.SkinAnalysisPage.HandleImageSelected | components/pages/skinanalysis.tsx:88-94 | a file is stored with its preview; a null file resets the whole analysis |
| SkinAnalysisPage.SkinAnalysisPage.StartAnalysis | components/pages/skinanalysis.tsx:97-106 | without a file only the error "Please upload an image first." is set and no request is made; otherwise analysing starts and completion is cleared |
| SkinAnalysisPage.SkinAnalysisPage.AnalysisSettled | components/pages/skinanalysis.tsx:108-119 | success stores the results, marks completion and shows the results tab; failure shows the message on the upload tab and leaves completion as it was; analysing ends either way |
| SkinAnalysisPage.SkinAnalysisPage.SelectTab | components/pages/skinanalysis.tsx:165-166 | the disabled results tab cannot be chosen before an analysis completes |
| SkinAnalysisPage.SkinAnalysisPage.SelectHeatmap | components/pages/skinanalysis.tsx:231 | the heatmap button chooses the issue and nothing else |
| SkinAnalysisPage.SkinAnalysisPage.ShowRemediesFor | components/pages/skinanalysis.tsx:134 | sets the issue and shows its remedies |
| SkinAnalysisPage.SkinAnalysisPage.CloseHomeRemedies | components/pages/skinanalysis.tsx:135 | closes the remedy view and forgets the issue |
| SleepLog.DurationMinutes | components/sleep-tracker.tsx:36-42 | NaN (None) exactly when a clock does not parse; otherwise wake - bed, or that plus one day |
| SleepLog.DurationWithinDay | components/simple-sleep-tracker.tsx:32-42 | for well-formed clocks the duration lies in [0, 24h) and, added to the bedtime, lands on the wake time modulo a day |
| SleepLog.SameTimeIsZero | components/sleep-tracker.tsx:41-42 | equal bedtime and wake time give duration 0 |
| SleepLog.ClockDigits | components/sleep-tracker.tsx:36-39 | an "HH:MM" clock parses to its two two-digit numbers |
| SleepLog.ClockParts | components/sleep-tracker.tsx:36-39 | a clock without ':' never gives both numbers |
| SleepLog.OvernightSample | components/sleep-tracker.tsx:18 | 23:30 to 07:15 is 465 minutes (7.75h), as in the sample data |
| SleepLog.AfterMidnightSample | components/sleep-tracker.tsx:23 | 01:00 to 08:30 is 450 minutes (7.5h), as in the sample data |
| SleepLog.HasEntryOnMeans | components/simple-sleep-tracker.tsx:65 | `sleepData.some(isSameDay(..., day))` holds exactly when an entry has that day |
| SleepLog.CountAppend | components/sleep-tracker.tsx:55 | the entries of a day in a concatenation are those of each part |
| SleepLog.CountZeroWhenAbsent | components/sleep-tracker.tsx:54 | a log with no entry on a day counts none for it |
| SleepLog.StrictHasOnePerDay | components/sleep-tracker.tsx:17-25 | a log strictly ordered by day has at most one entry per day |
| SleepLog.OtherDays | components/sleep-tracker.tsx:54 | the filter never grows the log |
| SleepLog.OtherDaysMembers | components/sleep-tracker.tsx:54 | the filter keeps exactly the entries of other days |
| SleepLog.CountOtherDays | components/sleep-tracker.tsx:54 | after the filter the day has no entry and every other day keeps its count |
| SleepLog.Insert | components/sleep-tracker.tsx:55 | insertion adds exactly the new entry |
| SleepLog.InsertSorted | components/sleep-tracker.tsx:55 | insertion into a sorted log keeps it sorted |
| SleepLog.SortByDate | components/sleep-tracker.tsx:55 | the sort is a permutation and its result is ordered by date |
| SleepLog.CountInsert | components/sleep-tracker.tsx:55 | insertion adds one entry to the new entry's day and none to other days |
| SleepLog.CountSort | components/sleep-tracker.tsx:55 | sorting keeps every day's count |
| SleepLog.Upsert | components/sleep-tracker.tsx:54-55 | the filtered, extended and sorted log is ordered by date |
| SleepLog.UpsertCounts | components/sleep-tracker.tsx:54-55 | after the upsert the entry's day has exactly one entry, and every other day keeps its count |
| SleepLog.UpsertMembers | components/sleep-tracker.tsx:54-55 | the upserted log holds the new entry and exactly the old entries of other days |
| SleepLog.UpsertKeepsOnePerDay | components/sleep-tracker.tsx:54-55 | a log with at most one entry per day keeps that property |
| SleepLog.SaveFacts | components/simple-sleep-tracker.tsx:57-58 | after a save the log is sorted and one-per-day, the saved day has exactly one entry, and other days' entries are kept |
| SleepLog.Recent | components/sleep-tracker.tsx:144-147 | `slice(-5).reverse()` holds the last (at most) five entries, last first |
| SleepLog.RecentNewestFirst | components/sleep-tracker.tsx:144-147 | on a sorted log the recent view is newest first |
| SleepTracker.SampleSleepData | components/sleep-tracker.tsx:17-25 | seven sample nights, strictly ordered by day, so one per day |
| SleepTracker.SleepTracker.constructor | components/sleep-tracker.tsx:28-32 | the defaults 23:00, 07:00 and quality 4 over the sample log |
| SleepTracker.SleepTracker.SelectDate | components/sleep-tracker.tsx:28 | a picked date changes only the date |
| SleepTracker.SleepTracker.SetBedtime | components/sleep-tracker.tsx:29 | changes only the bedtime |
| SleepTracker.SleepTracker.SetWakeTime | components/sleep-tracker.tsx:30 | changes only the wake time |
| SleepTracker.SleepTracker.SetQuality | components/sleep-tracker.tsx:31 | changes only the quality slider value |
| SleepTracker.SleepTracker.HandleSaveEntry | components/sleep-tracker.tsx:34-56 | the log becomes the upsert of the new entry, whose duration follows the clocks; exactly one entry on the chosen date, other dates kept, sorted |
| SleepTracker.SleepTracker.RecentLog | components/sleep-tracker.tsx:144-147 | at most five entries, newest first |
| SimpleSleepTracker.InitialSleepData | components/simple-sleep-tracker.tsx:15-22 | six sample nights, strictly ordered by day, so one per day |
| SimpleSleepTracker.SecondSaveSameDay | components/simple-sleep-tracker.tsx:57-72 | two saves on one day extend the streak twice |
| SimpleSleepTracker.SimpleSleepTracker.constructor | components/simple-sleep-tracker.tsx:25-29 | the defaults 23:00 and 07:00, the sample log, and a streak of 6 |
| SimpleSleepTracker.SimpleSleepTracker.SetBedtime | components/simple-sleep-tracker.tsx:25 | changes only the bedtime |
| SimpleSleepTracker.SimpleSleepTracker.SetWakeTime | components/simple-sleep-tracker.tsx:26 | changes only the wake time |
| SimpleSleepTracker.SimpleSleepTracker.HandleSaveEntry | components/simple-sleep-tracker.tsx:44-78 | today's entry is upserted (exactly one for today, other days kept, sorted), the success note shows, and the streak follows NextStreak on the log before the save |
| SimpleSleepTracker.SimpleSleepTracker.HideSuccess | components/simple-sleep-tracker.tsx:75-77 | the timer hides the success note only |
| StreakCounter.ProgressNumerator | components/streak-counter.tsx:135 | `Math.min(streak, goal)` never exceeds the goal, equals it exactly once the goal is reached, and is NaN for a NaN streak |
| StreakCounter.BarWidth | components/streak-counter.tsx:141 | the bar width is capped at 100, is 100 exactly when the goal is reached, and is streak / goal * 100 below it |
| StreakCounter.RemainingDays | components/streak-counter.tsx:162-164 | "N more days" shows exactly while streak < goal, with N = goal - streak > 0 |
| StreakCounter.RemainingCountsDown | components/streak-counter.tsx:162-164 | each further day lowers the remaining days by one |
| StreakCounter.FullBarIffGoalShown | components/streak-counter.tsx:135-164 | for a numeric streak the full bar, the goal/goal counter and the "Set a new goal" hint appear together; a NaN streak gets the hint with a NaN counter and width |
| StreakCounter.StoredStreakReadsBack | components/streak-counter.tsx:16-21 | a streak stored as `toString()` is a non-empty text that the mount effect parses back to the same streak |
| StreakCounter.StreakCounter.constructor | components/streak-counter.tsx:11-13 | a streak of 6 against a goal of 7, no celebration |
| StreakCounter.StreakCounter.LoadStoredStreak | components/streak-counter.tsx:16-21 | a non-empty stored value replaces the streak with its parseInt, possibly NaN |
| StreakCounter.StreakCounter.CheckGoal | components/streak-counter.tsx:24-34 | the celebration starts exactly when streak >= goal and none is showing |
| StreakCounter.StreakCounter.EndCelebration | components/streak-counter.tsx:30-32 | the timer ends the celebration |
| StreakCounter.StreakCounter.IncrementStreak | components/streak-counter.tsx:81-83 | the streak grows by exactly one |
| StreakCounter.IncrementReachesGoal | components/streak-counter.tsx:24-34 | one day short of the goal, an increment makes the effect celebrate, and it celebrates again after the timer |
| AiChatbot.Send | components/ai-chatbot.tsx:55-65 | blank input sends nothing; otherwise one user message with the untrimmed input and id = old length + 1 is appended, and the old messages are kept |
| AiChatbot.SendKeepsPositions | components/ai-chatbot.tsx:58-65 | sending keeps every id equal to its position |
| AiChatbot.PositionsAreUnique | components/ai-chatbot.tsx:119 | ids equal to positions are unique, as the list keys need |
| AiChatbot.ReplyAsWritten | components/ai-chatbot.tsx:81-88 | the reply as written appends a bot message whose id comes from the list captured at send time |
| AiChatbot.ReplyIdClash | components/ai-chatbot.tsx:58-88 | two messages sent before the first reply arrives give that reply the second message's id |
| AiChatbot.ReplyAsWrittenAlone | components/ai-chatbot.tsx:81-88 | with one message in flight the reply as written equals the corrected reply |
| AiChatbot.Reply | components/ai-chatbot.tsx:81-88 | the corrected reply appends a bot message with id = current length + 1 and keeps the old messages |
| AiChatbot.ReplyKeepsPositions | components/ai-chatbot.tsx:81-88 | the corrected reply keeps every id equal to its position |
| AiChatbot.SendKeepsWithin | components/ai-chatbot.tsx:58-65 | sending keeps user ids at their positions and every id within its position |
| AiChatbot.ReplyKeepsWithin | components/ai-chatbot.tsx:81-88 | a reply as written, for any length captured at an earlier send, keeps every id within its position |
| AiChatbot.AiChatbot.constructor | components/ai-chatbot.tsx:30-32 | the initial messages, empty input, not typing, no reply due |
| AiChatbot.AiChatbot.SetInput | components/ai-chatbot.tsx:165 | changes only the input |
| AiChatbot.AiChatbot.HandleSend | components/ai-chatbot.tsx:53-67 | blank input changes nothing; otherwise the message is appended, the input cleared, typing shown, and a reply timer queued with the list length at send time; ids stay within their positions |
| AiChatbot.AiChatbot.BotReplied | components/ai-chatbot.tsx:70-90 | the oldest timer fires: the reply as written is appended, with the id from the length that timer captured, and typing ends |
| AiChatbot.SendTwiceThenReply | components/ai-chatbot.tsx:53-90 | on the component itself, two sends before the first timer fires leave the user message and the reply both with id 3, so the list keys clash |
| ToggleMap.Toggle | components/beauty-feed.tsx:58-63 | the id's truthiness flips, a missing id counting as false, and the id joins the keys |
| ToggleMap.ToggleIsolated | components/beauty-feed.tsx:58-70 | toggling one id leaves every other id unchanged |
| ToggleMap.ToggleTwice | components/trending-looks.tsx:49-54 | toggling twice restores every id's truthiness |
| ToggleMap.ToggleMovesLikesByOne | components/trending-looks.tsx:96 | each click moves the displayed count by exactly one |
| BeautyFeed.Hashtags | components/beauty-feed.tsx:102 | at most as many tags as words, each starting with '#' |
| BeautyFeed.CaptionTags | components/beauty-feed.tsx:100-103 | every badge under a caption starts with '#' |
| BeautyFeed.HashtagsConcat | components/beauty-feed.tsx:100-103 | the filter keeps the order of the words |
| BeautyFeed.HashtagsCount | components/beauty-feed.tsx:100-103 | each word starting with '#' is kept as often as it occurs, and no other word is kept |
| BeautyFeed.CaptionTagsConcat | components/beauty-feed.tsx:100-103 | the tags of two space-joined captions are the tags of each, in order |
| BeautyFeed.CaptionTagsBounded | components/beauty-feed.tsx:100-103 | no more tags than space-separated words |
| BeautyFeed.BeautyFeed.constructor | components/beauty-feed.tsx:55-56 | no post is liked or saved at first |
| BeautyFeed.BeautyFeed.ToggleLike | components/beauty-feed.tsx:58-63 | only the like flags change, by Toggle |
| BeautyFeed.BeautyFeed.ToggleSave | components/beauty-feed.tsx:65-70 | only the saved flags change, by Toggle |
| TrendingLooks.TagLabel | components/trending-looks.tsx:82-86 | a badge is "#" followed by the tag |
| TrendingLooks.TagLabelInjective | components/trending-looks.tsx:82-86 | different tags give different badges |
| TrendingLooks.TrendingLooks.constructor | components/trending-looks.tsx:47 | no look is liked at first |
| TrendingLooks.TrendingLooks.ToggleLike | components/trending-looks.tsx:49-54 | only the like flags change, by Toggle |
| ImageUploader.ImageGate | components/image-uploader.tsx:36 | a file passes the MIME gate exactly when its type is "image/" followed by any subtype, the empty one included |
| ImageUploader.ImageUploader.constructor | components/image-uploader.tsx:14-16 | not dragging, no file and no preview |
| ImageUploader.ImageUploader.RemoveImage | components/image-uploader.tsx:22-31 | clears file and preview, tells the parent (null, null) and resets the input |
| ImageUploader.ImageUploader.HandleFile | components/image-uploader.tsx:34-64 | a non-image raises the alert and removes the image; an image becomes the selected file before its read starts |
| ImageUploader.ImageUploader.ReadSettled | components/image-uploader.tsx:46-61 | a string result becomes the preview and is sent to the parent with the file; an error or a non-string result removes the image |
| ImageUploader.ImageUploader.HandleDrop | components/image-uploader.tsx:67-73 | dragging ends; no file changes nothing else; otherwise the first dropped file is handled as HandleFile says: an image is selected with preview, input and notices kept, and a non-image is rejected with the alert, clearing file, preview and input and telling the parent (null, null) |
| ImageUploader.ImageUploader.HandleFileChange | components/image-uploader.tsx:76-80 | no file changes nothing; otherwise the first chosen file is handled as HandleFile says: an image is selected with preview, input and notices kept, and a non-image is rejected with the alert, clearing file, preview and input and telling the parent (null, null) |
| ImageUploader.ImageUploader.HandleDragOver | components/image-uploader.tsx:83-86 | sets the drag flag only |
| ImageUploader.ImageUploader.HandleDragLeave | components/image-uploader.tsx:88-90 | clears the drag flag only |
| ImageUploader.RemoveTwice | components/image-uploader.tsx:22-31 | removing twice leaves the state as removing once; only the parent is told twice |
| ImageUploader.StaleRead | components/image-uploader.tsx:34-64 | a read that settles after its image was removed still shows its preview, with no file selected |
| DietPlanQuestionnaire.Controls | components/diet-plan-questionnaire.tsx:71-84 | Previous is offered iff step > 1; Next iff step < 3; Submit iff step >= 3 |
| DietPlanQuestionnaire.OfferedClickInRange | components/diet-plan-questionnaire.tsx:22-28 | an offered click keeps the step in 1..3, moving by exactly one, or staying for Submit |
| DietPlanQuestionnaire.RunInRange | components/diet-plan-questionnaire.tsx:71-84 | any run of offered clicks from a step in 1..3 stays in 1..3 |
| DietPlanQuestionnaire.Question | components/diet-plan-questionnaire.tsx:48-67 | a question is shown exactly for steps 1..3 |
| DietPlanQuestionnaire.DietPlanQuestionnaire.constructor | components/diet-plan-questionnaire.tsx:20 | the dialog starts at step 1 |
| DietPlanQuestionnaire.DietPlanQuestionnaire.NextStep | components/diet-plan-questionnaire.tsx:22-24 | step + 1, unchecked |
| DietPlanQuestionnaire.DietPlanQuestionnaire.PrevStep | components/diet-plan-questionnaire.tsx:26-28 | step - 1, unchecked |
| DietPlanQuestionnaire.DietPlanQuestionnaire.Click | components/diet-plan-questionnaire.tsx:22-35 | a click on an offered button keeps the step in 1..3; Submit schedules the close |
| ConditionalLayout.ShowLayout | components/ConditionalLayout.tsx:10-16 | with "/email-verified" in the list, every pathname that hides the layout is one the router can report (it starts with '/') |
| ConditionalLayout.UnslashedEntryNeverMatches | components/ConditionalLayout.tsx:10 | the "email-verified" entry never equals a pathname, which starts with '/' |
| ConditionalLayout.AsWrittenDiffersOnlyOnEmailVerified | components/ConditionalLayout.tsx:10-16 | on every pathname the list as written agrees with the intended list, except on "/email-verified" |
| ConditionalLayout.EmailVerifiedShowsLayout | components/ConditionalLayout.tsx:10-16 | as written, "/email-verified" keeps its navbar and footer |
| ConditionalLayout.TrailingSlashShowsLayout | components/ConditionalLayout.tsx:16 | matching is exact: any pathname ending in '/' shows the layout, in both lists |

## Left out

- The generative-model service, `JSON.parse`, base64 encoding and `FormData` parsing are foreign calls. They are parameters, not models of their internals.
- `console.*` logging has no effect on the logic.
- Timers, animation (gsap, framer-motion), confetti and scrolling are left out. A delayed update is a separate, later method.
- Dates, clocks and locale formatting are left out. A date is an integer day number; `new Date().toISOString()` is a `now` parameter.
- Randomness is left out. The chatbot's reply choice is a parameter. The skin page's random tips are not modelled.
- Floating point is not modelled. Questionnaire progress and the bar width use exact rationals. Sleep averages, `toFixed` formatting and stroke offsets are presentation only.
- `localStorage` reads and writes are left out. The stored streak comes in as a parameter of `LoadStoredStreak`.
- FileReader internals are left out. `ReadSettled` takes the read's result.
- The skin page's hard-coded remedy texts, issue icons and floating tips are static content and are not modelled.
- The fetch wrappers in lib/api and the auth, payment and marketing components are not part of this model.
- Static feed posts and trending looks are not modelled. Their fields come in as `Post` and `Look` values.
- JsString.ParseInt: reads in base 10, or base 16 after "0x", and gives exact integers. It does not round results above 2^53 to the nearest double, and "-0" reads as 0 rather than -0.
- AiChatbot.AiChatbot.BotReplied: the 1500 ms timers are a queue that fires strictly in send order. The random choice of canned reply is a parameter.
- SleepLog.SortByDate: is an insertion sort on day numbers. It is not the engine's comparison sort with `getTime`. On one-entry-per-day logs both give the same order, but the model does not prove that ties keep their order.
- BeautyAnalysisPage.BeautyAnalysisPage.HandleImageSelected: uses the page state at call time. The source's `useCallback` closure over `showResults` and `apiError` is not modelled.

## Findings

| source | as written | input that shows it | evidently intended | confidence | as-written member | corrected member |
|---|---|---|---|---|---|---|
| components/ConditionalLayout.tsx:10 | the excluded path 'email-verified' lacks its leading slash, so it never matches a pathname | pathname "/email-verified" shows the navbar and footer | "/email-verified" hides them, like the other auth pages | medium, not executed | ConditionalLayout.EmailVerifiedShowsLayout | ConditionalLayout.ShowLayout |
| components/ai-chatbot.tsx:82 | the bot reply's id is `messages.length + 2` from the list captured when the message was sent | send "a", then send "b" before the first reply arrives: the first reply gets id 3, the id of "b" | every message gets a unique id (the list key), the next position | high, not executed | AiChatbot.ReplyIdClash (AiChatbot.SendTwiceThenReply) | AiChatbot.Reply |
