# MediLink core, modelled in Dafny

MediLink is a health assistant in three parts:
- a Node/Express service for accounts: register, login, a bearer-token guard and a profile;
- a Python/FastAPI service that answers chat messages and food-label photos through a
  local language model with a bounded chat history, and labels the sentiment of speech;
- a React front end: the dashboard news carousel, the step-by-step food analyser, the two
  chat panels, the two sentiment pages and the application shell that keeps the login.

The model follows the source file by file, one Dafny module per file:

| module | file | models |
|---|---|---|
| `AuthController` | auth_controller.dfy | registerUser, loginUser, updateProfile over a user collection; class `UserStore` |
| `AuthMiddleware` | auth_middleware.dfy | `protect`: bearer extraction, token check, account lookup |
| `AuthRoutes` | auth_routes.dfy | the route table and the router's path matching, which routes are guarded, GET /profile |
| `LlmModel` | llm_model.dfy | class `ChatHistory` (sliding window) and `get_llm_response` |
| `App` | app.dfy | `/llm-chat` on the shared history; `/ocr` field rules, fallback text and private history |
| `Ocr` | ocr.dfy | `clean_text` |
| `Sentiment` | sentiment.dfy | the compound-score label and the upload gate of `/process-audio` |
| `NewsCarousel` | news_carousel.dfy | article filtering, keyword categories, wrap-around navigation, "time ago" |
| `FoodAnalyzer` | food_analyzer.dfy | the three-step wizard, its guards and the analysis request |
| `ChatInterface` | chat_interface.dfy | the chat/analysis panel, its messages and its upload form |
| `HealthInsights` | health_insights.dfy | the second panel: its report formatter and interaction flag |
| `SentimentAnalysis` | sentiment_analysis.dfy | the audio page: extension test, accept list, error messages |
| `TextSentiment` | text_sentiment.dfy | the text page: the score bands and colour ladders, the request |
| `AppShell` | app_shell.dfy | the login flag and local storage across mount, login and logout |
| `TextUtil`, `Wrappers` | text_util.dfy, wrappers.dfy | string helpers (case, trim, split/join, decimal) and `Option`/`Result` |

The style is the same throughout. The behaviour of a handler is a pure function on a
value of the component's or collection's state. A class with the source's fields has
one method per handler, and each method ensures
`State() == Spec(old(State()), ...)`. The properties are lemmas about those functions.

The world outside the code is passed in as parameters:
- a request's result (`ChatOutcome`, `AnalysisOutcome`, `OcrOutcome`, `AudioOutcome`,
  `TextOutcome`, `FetchOutcome`);
- the model pipeline (`pipe`);
- the prompt templates (`medicalPrompt`, `nutritionPrompt`);
- JWT verification (`verify`) and the token minter (`mint`);
- bcrypt's comparison (`compare`).

The /ocr and /llm-chat endpoints answer with a bare JSON string. Of the two chat panels,
only the health-insights panel calls them; the food-analysis chat panel posts to
/api/chat and /api/food-analyze on the Node server, which mounts only /api/auth. The
health-insights panel reads `success`, `message` and `text` fields from the answer, and
the string has none of these fields. So an analysis always ends in the generic failure
sentence. A non-empty chat answer ends in the fixed placeholder, and an empty one is
falsy, so nothing is added after the user's message. `HealthInsights.BareStringReplies`
states these consequences.

## Model

| member | source | states |
|---|---|---|
| AuthController.FindByEmailFrom | backend/node/controllers/authController.js:8 | the lookup returns the first account with the email, or none exists in the range |
| AuthController.FindByEmailFinds | backend/node/controllers/authController.js:46 | the lookup succeeds exactly when some stored account has the email |
| AuthController.RegisterDuplicate | backend/node/controllers/authController.js:8-11 | a taken email answers 400 "User already exists" and stores nothing |
| AuthController.RegisterStoresSubmitted | backend/node/controllers/authController.js:13-34 | success stores exactly the five submitted fields under a fresh id, answers 201 with the token minted for that id and the id/name/email summary |
| AuthController.HandlersPreserveWellFormed | backend/node/controllers/authController.js:4-111 | registration and profile update keep the collection well formed (every stored account sits under its own id, below the next id to hand out) |
| AuthController.LoginUnknownEmail | backend/node/controllers/authController.js:46-49 | an unregistered email answers 401 "Email not registered" without a token |
| AuthController.LoginWrongPassword | backend/node/controllers/authController.js:51-54 | a failed password comparison answers 401 "Incorrect password" without a token |
| AuthController.LoginTokenOnlyAfterChecks | backend/node/controllers/authController.js:42-72 | a token is issued iff lookup and comparison both succeed, and it is minted for the account found; login changes nothing |
| AuthController.RegisterThenLogin | backend/node/controllers/authController.js:4-72 | after registering, logging in with the same credentials yields a token for the new account |
| AuthController.RegisterResponseIgnoresPassword | backend/node/controllers/authController.js:25-34 | the register response does not depend on the password |
| AuthController.UpdateResponseIgnoresPassword | backend/node/controllers/authController.js:101-107 | the update response does not depend on the stored password |
| AuthController.UpdateUnknownUser | backend/node/controllers/authController.js:86-89 | an unknown id answers 404 "User not found" and changes nothing |
| AuthController.UpdateTouchesOnlyProfileFields | backend/node/controllers/authController.js:91-107 | each field takes a truthy submitted value or keeps the stored one; id, password and other accounts are untouched; the answer is the five public fields |
| AuthController.UpdateIdempotent | backend/node/controllers/authController.js:94-97 | repeating an update changes nothing more; an all-empty update is a no-op |
| AuthController.UserStore.RegisterUser | backend/node/controllers/authController.js:4-39 | the store and response follow the register rule |
| AuthController.UserStore.LoginUser | backend/node/controllers/authController.js:42-72 | the response follows the login rule and the store is unchanged |
| AuthController.UserStore.UpdateProfile | backend/node/controllers/authController.js:84-111 | the store and response follow the update rule |
| AuthMiddleware.BearerToken | backend/node/middleware/auth.js:8-11 | a token exists only for a header starting with "Bearer" whose second space-separated part is non-empty, and it is that part |
| AuthMiddleware.BearerRoundTrip | backend/node/middleware/auth.js:8-11 | a scheme starting with "Bearer", a space and a non-empty token, neither holding a space, yield exactly the token |
| AuthMiddleware.BearerIgnoresTrailingParts | backend/node/middleware/auth.js:10 | text after the token and a further space is ignored |
| AuthMiddleware.BearerRejects | backend/node/middleware/auth.js:8-13 | a bare scheme, a doubled space or another scheme yields no token |
| AuthMiddleware.DeniedWithoutToken | backend/node/middleware/auth.js:13-17 | no token: 401 "Not authorized - No token provided" |
| AuthMiddleware.DeniedInvalidToken | backend/node/middleware/auth.js:19-30 | a failing verification or a store error: 401 "Not authorized - Invalid token" |
| AuthMiddleware.DeniedUnknownUser | backend/node/middleware/auth.js:22-24 | a verified id without an account: 401 "User not found" |
| AuthMiddleware.GrantedOnlyToStoredAccount | backend/node/middleware/auth.js:4-31 | access is granted only to the stored account of a verified token, without its password; every rejection is a 401 |
| AuthMiddleware.Protect | backend/node/middleware/auth.js:4-31 | either one rejection response, or `req.user` set and `next()` called once |
| AuthRoutes.FindRouteFrom | backend/node/routes/authRoutes.js:10-36 | the route found is the first whose method matches (HEAD answered by GET) and whose path matches without regard to case, with one optional trailing "/"; or none matches |
| AuthRoutes.ProfileResponse | backend/node/routes/authRoutes.js:19-29 | GET /profile answers the five public fields of the attached user |
| AuthRoutes.RouteTable | backend/node/routes/authRoutes.js:10-36 | whatever the case of the letters and with or without a trailing "/": /register and /login are open, GET, HEAD and PUT /profile are guarded, getUsers is not mounted |
| AuthRoutes.PathsDisjoint | backend/node/routes/authRoutes.js:13-36 | no request path matches two of the three route paths |
| AuthRoutes.CaseAndSlashReachProfile | backend/node/routes/authRoutes.js:10-36 | PUT "/Profile/" reaches the update and HEAD "/PROFILE" the profile handler |
| AuthRoutes.GuardedIffProfile | backend/node/routes/authRoutes.js:19-36 | a matched route is guarded exactly when the request path is /profile (any case, optional trailing "/"), which is exactly when its handler reads the attached user |
| AuthRoutes.Serve | backend/node/routes/authRoutes.js:10-36 | an unmatched request gets no answer and changes nothing; a rejected guard leaves the store unchanged and sends the rejection; handlers run only after `next()` with an attached user, each with its controller's rule; PUT /profile answers 200 unless the update's own lookup or save fails, which answers 500 |
| AuthRoutes.RunHandler | backend/node/routes/authRoutes.js:13-36 | each route runs its own controller: register and update change the store and answer as the controller does, including the update's own store failure; login and profile leave the store as it was |
| LlmModel.PySliceFrom | backend/python/llm_model.py:69-70 | Python's `xs[k:]` for negative and non-negative k |
| LlmModel.Completed | backend/python/llm_model.py:82-84 | every kept entry is answered and in the history, and every answered entry is kept |
| LlmModel.CompletedIsFilter | backend/python/llm_model.py:82-84 | the kept entries are exactly the answered ones, in their order and with their repetitions |
| LlmModel.AppendedWindow | backend/python/llm_model.py:65-70 | add_message keeps the newest min(n+1, window) entries with the new one last; window 0 keeps all; a negative window drops from the front |
| LlmModel.WithLastResponseOnlyLast | backend/python/llm_model.py:72-76 | update_last_response changes only the last entry's answer, and nothing on an empty history |
| LlmModel.HistoryTextSkips | backend/python/llm_model.py:78-85 | the rendered history leaves out the last entry and unanswered entries |
| LlmModel.RenderStep | backend/python/llm_model.py:82-84 | one loop step appends a turn exactly for an answered entry |
| LlmModel.ChatHistory.constructor | backend/python/llm_model.py:60-63 | a new history is empty with the given window (5 by default) |
| LlmModel.ChatHistory.AddMessage | backend/python/llm_model.py:65-70 | appends and trims to the window; keeps the window bound |
| LlmModel.ChatHistory.UpdateLastResponse | backend/python/llm_model.py:72-76 | sets the last entry's answer |
| LlmModel.ChatHistory.GetChatHistoryText | backend/python/llm_model.py:78-85 | the loop renders every answered entry before the last, in order |
| LlmModel.GetLlmResponse | backend/python/llm_model.py:88-123 | the reply is the stripped generation or the error text, and it is stored as the new entry's answer |
| LlmModel.ReplyIsRecorded | backend/python/llm_model.py:91-123 | whatever the pipeline does, the last entry holds the message and the returned string |
| App.NormalizeField | backend/python/app.py:73-74 | a missing field or "undefined" becomes "Not provided"; anything else is kept |
| App.OcrFallback | backend/python/app.py:92-93 | text that strips to nothing becomes the fallback sentence; other text is kept |
| App.NormalizeFieldIdempotent | backend/python/app.py:73-74 | the rule never yields "undefined" and is idempotent |
| App.OcrFallbackNeverBlank | backend/python/app.py:92-93 | the text given to the prompt always holds a non-whitespace character |
| App.LlmChat | backend/python/app.py:42-62 | the raw message is recorded, then the prompt with the model's answer; a failing prompt gives status 500 |
| App.LlmChatAppendsTwo | backend/python/app.py:46-52 | one call adds the raw message unanswered and the prompt answered, within the window |
| App.LlmChatAnswersOnlyPrompt | backend/python/app.py:46-52 | after a call only the prompt entry is newly answered |
| App.RawMessageNotRendered | backend/python/app.py:46-52 | the history sent to the model is the same whatever the raw message was |
| App.FreshHistoryRendersNothing | backend/python/app.py:77-108 | the /ocr history renders no earlier exchanges |
| App.OcrEndpoint | backend/python/app.py:64-117 | an exception gives 500 with success false; otherwise the reply is the model's answer to the prompt built from the normalised fields and the fallback text, with an empty history |
| Ocr.CollapseRuns | backend/python/ocr.py:93-94 | each maximal run of class characters becomes one blank |
| Ocr.CleanText | backend/python/ocr.py:89-90 | the empty input gives the empty string |
| Ocr.SqueezedIsSingleSpaced | backend/python/ocr.py:93-94 | after the whitespace steps only single blanks between non-blanks remain |
| Ocr.CleanTextAlphabet | backend/python/ocr.py:79-99 | the output holds only ASCII letters, digits and blanks |
| Ocr.CleanTextKeepsAlnum | backend/python/ocr.py:79-99 | the output's letters and digits are the input's, in order |
| Ocr.CleanTextShrinks | backend/python/ocr.py:79-99 | the output is never longer than the input |
| Ocr.CleanTextPunctuationGap | backend/python/ocr.py:93-97 | "w1 ! w2" becomes "w1  w2": deleting punctuation last can leave two blanks |
| Ocr.SqueezedUnchanged | backend/python/ocr.py:93-94 | single-blank word text passes the whitespace steps unchanged |
| Ocr.DoubleBlankSqueezed | backend/python/ocr.py:94 | two blanks between words collapse to one |
| Ocr.CleanTextNotIdempotent | backend/python/ocr.py:79-99 | cleaning twice can differ from cleaning once |
| Sentiment.LabelOf | backend/python/sentiment.py:141 | a score of 0.05 or more is Positive; -0.05 or less is Negative |
| Sentiment.LabelBands | backend/python/sentiment.py:141 | each label holds exactly on its band; Neutral exactly strictly between -0.05 and 0.05 |
| Sentiment.LabelMonotone | backend/python/sentiment.py:141 | a higher score never gets a lower label |
| Sentiment.ProcessAudioGate | backend/python/sentiment.py:196-200 | rejected with 400 exactly when the lower-cased name ends in neither .wav nor .mp4; accepted files are saved with suffix .wav |
| Sentiment.WavCheckOnEveryUpload | backend/python/sentiment.py:199-200 | every accepted upload, .mp4 included, is saved under a .wav name, so the WAV header check of transcribe_audio (line 118) runs on it |
| Sentiment.GateIgnoresCase | backend/python/sentiment.py:196 | .WAV and .Mp4 are accepted; .mp3 is rejected |
| NewsCarousel.FirstMatch | frontend/src/components/dashboard/NewsCarousel.jsx:108-152 | the result is the first group that matches; none means no group matches |
| NewsCarousel.FirstGroupWins | frontend/src/components/dashboard/NewsCarousel.jsx:108-152 | a matching group wins over every later one |
| NewsCarousel.CategoryDecided | frontend/src/components/dashboard/NewsCarousel.jsx:103-156 | a category comes from a matching group with no earlier match; no keyword gives the fallback |
| NewsCarousel.DistinctCategories | frontend/src/components/dashboard/NewsCarousel.jsx:110-155 | the seven categories are pairwise different |
| NewsCarousel.CategoryIgnoresCase | frontend/src/components/dashboard/NewsCarousel.jsx:104-106 | lower-casing the title or description first changes nothing |
| NewsCarousel.ProcessArticles | frontend/src/components/dashboard/NewsCarousel.jsx:78-85 | at most ten items |
| NewsCarousel.ProcessedList | frontend/src/components/dashboard/NewsCarousel.jsx:78-85 | the items are the first ten articles with a title and a description, in order, each with its category |
| NewsCarousel.NavigationInRange | frontend/src/components/dashboard/NewsCarousel.jsx:159-169 | next and previous stay in range, wrap at the ends and undo each other |
| NewsCarousel.NextTimesNoWrap | frontend/src/components/dashboard/NewsCarousel.jsx:159-163 | short of the end, k steps move k places |
| NewsCarousel.FullCircle | frontend/src/components/dashboard/NewsCarousel.jsx:159-163 | n steps forward return to the start |
| NewsCarousel.Elapsed | frontend/src/components/dashboard/NewsCarousel.jsx:213-223 | the unit follows the thresholds and the count is the elapsed time in that unit |
| NewsCarousel.TimeAgoReadsBack | frontend/src/components/dashboard/NewsCarousel.jsx:210-224 | from a minute on, the count reads back as a positive number |
| NewsCarousel.Carousel.FetchNews | frontend/src/components/dashboard/NewsCarousel.jsx:56-100 | a fetch stores the processed list or the error, and loading ends |
| NewsCarousel.Carousel.GoToNextNews | frontend/src/components/dashboard/NewsCarousel.jsx:159-163 | the index moves forward with wrap-around; the list, auto-play, loading and error stay |
| NewsCarousel.Carousel.GoToPrevNews | frontend/src/components/dashboard/NewsCarousel.jsx:165-169 | the index moves back with wrap-around; the list, auto-play, loading and error stay |
| NewsCarousel.Carousel.GoTo | frontend/src/components/dashboard/NewsCarousel.jsx:449-454 | a dot click selects exactly that article's index and changes nothing else |
| NewsCarousel.Carousel.SetAutoPlay | frontend/src/components/dashboard/NewsCarousel.jsx:189-195 | hovering pauses auto-play and leaving resumes it; the list, index, loading and error stay |
| FoodAnalyzer.WithField | frontend/src/components/FoodAnalyzer.jsx:45-50 | the named field takes the value and the others are unchanged |
| FoodAnalyzer.NextNeedsPreview | frontend/src/components/FoodAnalyzer.jsx:53 | at step 1 without a preview, Next changes nothing |
| FoodAnalyzer.NextNeedsAgeAndGender | frontend/src/components/FoodAnalyzer.jsx:54 | at step 2, Next advances exactly when age and gender are filled in |
| FoodAnalyzer.NextAtConfirmAnalyzes | frontend/src/components/FoodAnalyzer.jsx:56-59 | at step 3, Next sends one request, stays at step 3 and ends not analysing |
| FoodAnalyzer.OcrTextOutcomes | frontend/src/components/FoodAnalyzer.jsx:110-123 | the three outcomes show texts with different openings |
| FoodAnalyzer.StepsStayInRange | frontend/src/components/FoodAnalyzer.jsx:52-66 | Next and an offered Back keep the step in 1..3, and Back undoes an advance |
| FoodAnalyzer.ResetKeeps | frontend/src/components/FoodAnalyzer.jsx:128-133 | reset returns to step 1 and clears image, preview and result, keeping the health information |
| FoodAnalyzer.RemoveImageBlocksNext | frontend/src/components/FoodAnalyzer.jsx:85-88 | removing the image at step 1 blocks Next |
| FoodAnalyzer.ProgressWidths | frontend/src/components/FoodAnalyzer.jsx:532 | 0%, 50%, 100% at steps 1 to 3; growing and never past 100% |
| FoodAnalyzer.StepFourUnreachable | frontend/src/components/FoodAnalyzer.jsx:560-569 | from the initial page, no sequence of actions leaves steps 1 to 3 |
| FoodAnalyzer.Analyzer.HandleNextStep | frontend/src/components/FoodAnalyzer.jsx:52-62 | the page follows the Next rule |
| FoodAnalyzer.Analyzer.HandleAnalyzeFood | frontend/src/components/FoodAnalyzer.jsx:90-127 | the page follows the analysis rule |
| FoodAnalyzer.Analyzer.HandlePrevStep | frontend/src/components/FoodAnalyzer.jsx:64-66 | the step goes back by one |
| FoodAnalyzer.Analyzer.ResetAnalysis | frontend/src/components/FoodAnalyzer.jsx:128-133 | the page follows the reset rule |
| FoodAnalyzer.Analyzer.HandleRemoveImage | frontend/src/components/FoodAnalyzer.jsx:85-88 | image and preview are cleared |
| FoodAnalyzer.Analyzer.HandleHealthInfoChange | frontend/src/components/FoodAnalyzer.jsx:45-50 | the named health field is set |
| FoodAnalyzer.Analyzer.HandleImageChange | frontend/src/components/FoodAnalyzer.jsx:33-43 | a chosen file becomes the image and its data URL the preview |
| ChatInterface.FormatAnalysisResult | frontend/src/components/food-analyzer/ChatInterface.jsx:174-178 | the report opens with "Analysis complete! " and shows the text, or a fixed sentence when it is empty |
| ChatInterface.SendPostsUserMessage | frontend/src/components/food-analyzer/ChatInterface.jsx:33-45 | a send past the guard posts the input and preview as a user message and clears the input |
| ChatInterface.AnalysisOnlyAppends | frontend/src/components/food-analyzer/ChatInterface.jsx:90-172 | the analysis keeps the earlier non-placeholder messages in order |
| ChatInterface.SendOnlyAppends | frontend/src/components/food-analyzer/ChatInterface.jsx:29-67 | apart from placeholders, the list before a send is a prefix of the list after it |
| ChatInterface.SendKeepsGreeting | frontend/src/components/food-analyzer/ChatInterface.jsx:9-67 | the greeting stays first |
| ChatInterface.SendLeavesTwo | frontend/src/components/food-analyzer/ChatInterface.jsx:30-45 | a send past the guard leaves at least the greeting and the user's message |
| ChatInterface.WarningKeepsImage | frontend/src/components/food-analyzer/ChatInterface.jsx:90-103 | without age or gender a warning is added, the image stays and no request counts |
| ChatInterface.ThrownKeepsPlaceholder | frontend/src/components/food-analyzer/ChatInterface.jsx:158-168 | a thrown analysis leaves the placeholder followed by the error |
| ChatInterface.AnsweredDropsPlaceholders | frontend/src/components/food-analyzer/ChatInterface.jsx:130-157 | a response removes every placeholder and the list ends with the result |
| ChatInterface.AnalysisClearsImage | frontend/src/components/food-analyzer/ChatInterface.jsx:168-184 | after an analysis image, preview and form are cleared and uploading ends |
| ChatInterface.SubmitUserInfoCloses | frontend/src/components/food-analyzer/ChatInterface.jsx:203-212 | the form closes exactly when age and gender are filled in |
| ChatInterface.Panel.HandleSendMessage | frontend/src/components/food-analyzer/ChatInterface.jsx:29-67 | the panel follows the send rule and keeps the greeting first |
| ChatInterface.Panel.HandleChatMessage | frontend/src/components/food-analyzer/ChatInterface.jsx:69-88 | the messages follow the chat rule |
| ChatInterface.Panel.HandleFoodAnalysis | frontend/src/components/food-analyzer/ChatInterface.jsx:90-172 | the panel follows the analysis rule |
| ChatInterface.Panel.HandleImageUpload | frontend/src/components/food-analyzer/ChatInterface.jsx:193-197 | the file and preview are selected and the form opens |
| ChatInterface.Panel.ResetImageUpload | frontend/src/components/food-analyzer/ChatInterface.jsx:180-184 | the image, the preview and the form are cleared and nothing else changes |
| ChatInterface.ImageClearedKeepsConversation | frontend/src/components/food-analyzer/ChatInterface.jsx:180-184 | removing the image keeps the messages, input and user information, and doing it twice is doing it once |
| ChatInterface.RemovedImageSendsChat | frontend/src/components/food-analyzer/ChatInterface.jsx:29-88 | after the image is removed, a send posts the message without a preview and takes the chat path, or does nothing for blank input |
| ChatInterface.Panel.HandleUserInfoChange | frontend/src/components/food-analyzer/ChatInterface.jsx:199-201 | the user information is replaced |
| ChatInterface.Panel.HandleUserInfoSubmit | frontend/src/components/food-analyzer/ChatInterface.jsx:203-212 | the panel follows the submit rule |
| HealthInsights.ReportNamesAge | frontend/src/components/food-analyzer/HealthInsights.jsx:192-203 | a successful report contains "Age: " and the age |
| HealthInsights.ReportNamesGender | frontend/src/components/food-analyzer/HealthInsights.jsx:192-203 | a successful report contains "Gender: " and the gender |
| HealthInsights.ReportEndsWithText | frontend/src/components/food-analyzer/HealthInsights.jsx:186-204 | a successful report ends with the detected text; a missing or failed result gives the fixed sentence |
| HealthInsights.DescriptionOnlyWhenGiven | frontend/src/components/food-analyzer/HealthInsights.jsx:192-203 | the description paragraph appears exactly when there is a description |
| HealthInsights.DetectedTextTrimmed | frontend/src/components/food-analyzer/HealthInsights.jsx:192-203 | a non-empty text is shown trimmed, and a text of blanks shows as nothing rather than the fallback sentence |
| HealthInsights.BareStringReplies | frontend/src/components/food-analyzer/HealthInsights.jsx:83-184 | a bare-string analysis answer always ends in the generic failure; a non-empty bare-string chat answer ends in the fixed placeholder, and an empty one adds nothing after the user's message |
| HealthInsights.Insights.ResetImageUpload | frontend/src/components/food-analyzer/HealthInsights.jsx:206-210 | the remove-image button clears the upload, keeps the interaction flag, and an untouched panel shows the large uploader again |
| HealthInsights.Insights.HandleSendMessage | frontend/src/components/food-analyzer/HealthInsights.jsx:33-81 | the panel follows the send rule; the interaction flag is set exactly once something was sent |
| SentimentAnalysis.ExtensionAfterLastDot | frontend/src/components/food-analyzer/SentimentAnalysis.jsx:33 | the extension is the lower-cased text after the last dot |
| SentimentAnalysis.DotlessName | frontend/src/components/food-analyzer/SentimentAnalysis.jsx:33-34 | a name without a dot is its own extension; a bare "wav" is accepted |
| SentimentAnalysis.PageAcceptsMoreThanService | frontend/src/components/food-analyzer/SentimentAnalysis.jsx:18-34 | an .mp3 name, in any case, passes the page's test and is refused by the service's gate |
| SentimentAnalysis.AcceptAttributeEntries | frontend/src/components/food-analyzer/SentimentAnalysis.jsx:142-144 | split at its commas, the attribute lists extension, audio type and video type for each format, in order |
| SentimentAnalysis.FileChangeOutcomes | frontend/src/components/food-analyzer/SentimentAnalysis.jsx:29-53 | a rejected file clears the choice and names every format; an accepted one is chosen and clears the error |
| SentimentAnalysis.SubmitNeedsFile | frontend/src/components/food-analyzer/SentimentAnalysis.jsx:58-61 | without a file only the error is set |
| SentimentAnalysis.SubmitOutcome | frontend/src/components/food-analyzer/SentimentAnalysis.jsx:55-119 | after a request loading and progress end; the error names the failure kind; success shows its label |
| SentimentAnalysis.ErrorMessagesDiffer | frontend/src/components/food-analyzer/SentimentAnalysis.jsx:98-114 | a server error and a request error never give the same message |
| SentimentAnalysis.ServiceLabelColors | frontend/src/components/food-analyzer/SentimentAnalysis.jsx:122-126 | the three service labels are green, red and yellow |
| SentimentAnalysis.Page.HandleFileChange | frontend/src/components/food-analyzer/SentimentAnalysis.jsx:29-53 | the page follows the file-change rule |
| SentimentAnalysis.Page.HandleSubmit | frontend/src/components/food-analyzer/SentimentAnalysis.jsx:55-119 | the page follows the submit rule |
| TextSentiment.BandOf | frontend/src/components/food-analyzer/TextSentiment.jsx:44-65 | each band holds exactly on its interval of scores |
| TextSentiment.LaddersFollowBands | frontend/src/components/food-analyzer/TextSentiment.jsx:44-65 | both colour ladders pick the colour of the score's band; no result gives gray |
| TextSentiment.BandsOrdered | frontend/src/components/food-analyzer/TextSentiment.jsx:44-53 | a higher score never gets a more negative band |
| TextSentiment.BlankInputSendsNothing | frontend/src/components/food-analyzer/TextSentiment.jsx:10-13 | blank input only sets the error |
| TextSentiment.AnalyzeOutcome | frontend/src/components/food-analyzer/TextSentiment.jsx:9-41 | a score replaces the result and clears the error; a failure sets an error and keeps the old result; loading ends |
| TextSentiment.SentimentPanel.AnalyzeSentiment | frontend/src/components/food-analyzer/TextSentiment.jsx:9-41 | the panel follows the analysis rule |
| TextSentiment.SentimentPanel.SetInputText | frontend/src/components/food-analyzer/TextSentiment.jsx:104-106 | typing replaces the input text and leaves the result, error, loading flag and request count as they were |
| TextSentiment.SentimentPanel.Receive | frontend/src/components/food-analyzer/TextSentiment.jsx:18-40 | the panel follows the response or error |
| AppShell.LogoutRemovesExactly | frontend/src/App.jsx:25-29 | logout removes exactly the token and the user; the expiry stays |
| AppShell.LogoutSurvivesReload | frontend/src/App.jsx:14-29 | after logout a reload does not log in again |
| AppShell.MountIgnoresExpiry | frontend/src/App.jsx:14-19 | mount logs in exactly when a token is stored, whatever the stored expiry |
| AppShell.Shell.Mount | frontend/src/App.jsx:14-19 | the flag is raised by a stored token |
| AppShell.Shell.HandleLogin | frontend/src/App.jsx:21-23 | the flag is raised and storage is untouched |
| AppShell.Shell.HandleLogout | frontend/src/App.jsx:25-29 | the flag drops and token and user leave storage |

## Left out

- Password hashing (bcrypt), the `pre('save')` hook and token signing and verification (jsonwebtoken) are not part of this model. Comparison, verification and minting are parameters.
- MongoDB is a map from ids to accounts, and each handler is atomic. Two concurrent registrations of one email (a race the source does not guard) are not modelled.
- getUsers is never mounted on a route, so only its absence from the route table is stated.
- AuthRoutes.Serve: a HEAD request runs the GET /profile handler, and the returned response keeps the body that Node's HTTP layer drops from a HEAD answer.
- AuthRoutes.FindRouteFrom: methods other than GET, HEAD, POST and PUT are not in the `Verb` type, so the router's automatic answer to OPTIONS is not modelled. The "/api/auth" mount prefix of server.js is not part of this model; request paths are taken relative to it, without a query string.
- The language model, Whisper, VADER, DistilRoBERTa, Tesseract and PIL image enhancement are parameters or outcome values. The scores and the generated text are inputs.
- The prompt templates of prompt.py are the parameters `medicalPrompt` and `nutritionPrompt`. Their wording is not modelled.
- File saving and removal, logging, and the HTTP and network layers are left out. Each request's result is an outcome value.
- React rendering, effects scheduling and state batching are left out. Each handler is one atomic step, and an awaited request is the outcome parameter of that step.
- Upload progress events, scrolling, the random news icon, date formatting, GoogleTranslate, ImageUploader, MessageList and UserInfoForm views are left out. They are views or timing only.
- NewsCarousel.TimeAgo takes whole elapsed seconds instead of reading the clock. Floating-point `Math.floor` on dates is not modelled.
- The auto-play interval timer is not modelled; only its effect, one GoToNextNews, is.
- TextUtil.Lower folds ASCII letters only. JavaScript and Python case mapping of other letters is not modelled. For the router's path test this is exact: the route paths are ASCII, and a case-insensitive regular expression without the unicode flag never matches a non-ASCII character against an ASCII one.
- ChatInterface.AnalysisMessages: a response without a `result` throws a TypeError inside a state updater in the source. That crash is not modelled; the formatter is given the response's top-level fields.
- FoodAnalyzer.OcrText: a successful response without `result` makes the source read `undefined.text`. The model uses "" for the missing text instead.
- HealthInsights.FormatReport: a response with no data at all is the `None` case. The model does not cover other malformed shapes.
- App.LlmChat: every exception after the message is recorded is modelled through a failing `medicalPrompt`. A failure inside the pipeline is caught by get_llm_response itself.
- SentimentAnalysis.ErrorMessagesDiffer covers server errors and request errors only. The no-response message is a fixed sentence and is not compared.
