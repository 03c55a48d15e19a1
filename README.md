# A model of a student mental-health companion

The system is a web application for Iranian university students. It has two parts.

- **The client**: a React single-page app (`frontend/src/App.js`). It moves the user between a landing page, a sign-in/sign-up form, a dashboard, the DASS-21 questionnaire and a results page. It keeps a bearer token in browser storage.
- **The server**: a FastAPI service over MongoDB (`backend/`), which provides:
  - registration, login and a profile;
  - scoring of the DASS-21 and PHQ-9 questionnaires, with levels, an analysis text and recommendations;
  - one mood, sleep and reflection entry per user per day;
  - experience points, levels, badges and a leaderboard;
  - a keyword-routed chat reply;
  - a free-form per-user `memory` dictionary;
  - "journeys" of habit-building tasks with per-user progress.

The project states these behaviours in Dafny and proves properties of them. There is one module per file.

## Foundations

- `Wrappers`: `Option`, `Result` and `Min`.
- `Http`: an error status with its `detail` text.
- `Json`: the JSON values a client can store in `memory`, with Python's and JavaScript's truth tests and Python's `str` of them.
- `Clock`: a timestamp is in whole seconds. Its day is `t / 86400`. "Today" is `[midnight, next midnight)`.
- `Query`: the four MongoDB operations the endpoints use, over a sequence of documents.
  - `find_one` returns the first match.
  - `find`, then `sort(key, -1)`, then `to_list(n)` is `Newest`. Missing keys sort below numbers.

## Per-module design

- **Stores**. Each collection the server writes is a class with a `seq` field:
  - `Auth.UserTable`;
  - `Assessments.AssessmentTable`;
  - `DailyLogs.DailyLog<P>`, used once for each daily journal;
  - `Journeys.ProgressTable`.

  Their methods are the server's read-modify-write steps. Each method's `ensures` gives the new contents as a specification function of the old contents, e.g. `Auth.Awarded`, `DailyLogs.Saved` or `Journeys.Started`. Lemmas prove what the application promises about those functions.
- **Outside services are parameters**:
  - the bcrypt hash, as a string or a verification function;
  - the decoded JWT, as `Option<Claims>`;
  - the sentiment model, as `analyze`;
  - `random.choice`, as a draw `choice`;
  - the clock, as `now`;
  - `uuid4`, as a per-table counter.
- **Client**. `Session.App` has the component's state variables as fields. Each HTTP call is a function parameter giving the server's answer to the request that the handler sends.

## Where the code was followed

- **Logout** clears only the token, the user, the page and the form (`frontend/src/App.js:71-84`). The answers and the last result stay. The model keeps that behaviour.
- **No range checks**. Nothing on the server checks the range of mood, sleep, DASS-21 or PHQ-9 values (`backend/trackers.py:17-29`, `backend/assessments.py:221-260`). The model accepts any integers there.
- **Separate services**. `backend/server.py:26-28` mounts only the auth, assessments and trackers routers. The gamification and journeys routers are served by their own apps: `backend/services/gamification_service.py:2,12` and `backend/services/journeys_service.py:2,12`. Both routers are modelled as written. The main server's `/api/gamification` is the copy in `backend/trackers.py:250-257`. `Gamification.GetGamification` shows that the two copies agree on every request that passes the token check.

## Model

| member | source | states |
|---|---|---|
| Clock.InTodayIsSameDay | backend/trackers.py:111-114 | A time lies in the `[today, tomorrow)` window of `now` exactly when it falls on the same calendar day; `now` is in its own window. |
| Query.FirstIndex | backend/trackers.py:113-115 | `find_one`: the index found matches and no earlier document does; nothing is found exactly when no document matches. |
| Query.FindFirst | backend/trackers.py:113-115 | The search loop returns exactly the first matching index. |
| Query.FirstIndexAgrees | backend/journeys.py:42-45 | Two collections whose documents match position by position give the same `find_one` result. |
| Query.FirstIndexNone | backend/journeys.py:42-46 | With no matching document the lookup finds nothing. |
| Query.FirstIndexAfterMisses | backend/journeys.py:42-45 | A match preceded only by misses is the one found. |
| Query.Filter | backend/assessments.py:265-269 | A query filter keeps each matching document with its multiplicity and drops the others. |
| Query.InsertPermutes | backend/gamification.py:35-40 | One step of the descending sort adds exactly the inserted document. |
| Query.InsertSorted | backend/gamification.py:35-40 | One step of the descending sort keeps the order non-increasing. |
| Query.SortDescSpec | backend/gamification.py:35-40 | `sort(key, -1)` is a permutation in non-increasing key order. |
| Query.TopSpec | backend/gamification.py:35-40 | Sort then limit `n` keeps the `min(n, size)` greatest documents, sorted; anything left out is no greater than the last kept. |
| Query.NewestSpec | backend/assessments.py:265-269 | A newest-first listing holds `min(n, matches)` documents, all matching, none invented, sorted; a match left out means the list is full and the match is no newer than its last entry. |
| Query.NewestHead | backend/assessments.py:265-269 | A match strictly newer than every other match heads the listing. |
| GamificationRules.LevelAndBadges | backend/gamification_utils.py:5-13 | Level is `xp div 100 + 1`; "Novice" is present iff xp >= 100 and "Expert" iff xp >= 500, in that order, with no other badges. |
| GamificationRules.LevelMonotone | backend/gamification_utils.py:7-13 | Level is at least 1 for non-negative xp; level and the badge count never decrease as xp grows. |
| GamificationRules.ExpertImpliesNovice | backend/gamification_utils.py:8-13 | Holding "Expert" means holding exactly "Novice" then "Expert". |
| GamificationRules.LevelAndBadgesVectors | tests/test_gamification.py:5-20 | 0 gives (1, []), 150 gives (2, [Novice]), 520 gives (6, [Novice, Expert]). |
| GamificationRules.Streak | backend/gamification_utils.py:16-26 | No previous entry gives 1; the same day keeps the streak; a one-day gap adds one; any other gap, past or future, resets to 1; the streak never grows by more than one. |
| GamificationRules.StreakVectors | tests/test_gamification.py:23-39 | The four unit-test cases: first entry, same day, consecutive day, reset. |
| Scoring.Answer | backend/assessments.py:81-83 | `responses.get(q, 0)`: 0 for an unanswered item, the stored value otherwise, within 0..3 when every answer is. |
| Scoring.LevelFor | backend/assessments.py:85-119 | The level is normal exactly up to the first cut-off; for increasing cut-offs its rank is the number of cut-offs the score passes. |
| Scoring.DepressionLevel | backend/assessments.py:85-95 | Normal exactly for scores up to 9; the rank counts the cut-offs 9, 13, 20, 27 that the score passes. |
| Scoring.AnxietyLevel | backend/assessments.py:97-107 | Normal exactly for scores up to 7; the rank counts the cut-offs 7, 9, 14, 19 that the score passes. |
| Scoring.StressLevel | backend/assessments.py:109-119 | Normal exactly for scores up to 14; the rank counts the cut-offs 14, 18, 25, 33 that the score passes. |
| Scoring.CalculateDassScores | backend/assessments.py:76-140 | Each score is twice its subscale's answer sum; each level's rank counts the cut-offs its own score passes; the analysis is the all-normal text exactly when all three scores are within their normal bands; analysis and recommendations are those chosen for the three computed levels. |
| Scoring.SeverityFor | backend/assessments.py:197-207 | The severity's rank is the number of the cut-offs 4, 9, 14, 19 that the total passes. |
| Scoring.Phq9Analysis | backend/assessments.py:153-165 | Band by band, in both directions: the minimal, mild, moderate, moderately severe and severe bands get their own texts, and each text is given for its band only. |
| Scoring.CalculatePhq9 | backend/assessments.py:194-216 | The total is the sum of all submitted answers; the severity's rank counts the cut-offs the total passes; the minimal-symptoms analysis exactly for totals up to 4; the urgent recommendations exactly for totals of 15 or more; the analysis and recommendations are those of the computed severity. |
| Scoring.ItemListsPartition | backend/assessments.py:77-79 | The three item lists have seven items each, are disjoint and together are exactly 1..21. |
| Scoring.ItemSumConcat | backend/assessments.py:81-83 | Summing over two item lists is summing over each. |
| Scoring.ItemSumPrepend | backend/assessments.py:81-83 | A new answer adds its value to a subscale exactly when its item belongs to it. |
| Scoring.ItemSumCoversValueSum | backend/assessments.py:81-83 | When every answered item is in the list, the item sum is the sum of all answers. |
| Scoring.ItemSumOfEmpty | backend/assessments.py:81-83 | With no answers every subscale sum is 0. |
| Scoring.ItemSumBounds | backend/assessments.py:81-83 | With answers in 0..3, a sum over `k` items lies in 0..3k. |
| Scoring.DoubledSumBounds | backend/assessments.py:81-83 | Twice a sum over `k` items is even and lies in 0..6k. |
| Scoring.DassScoresBounded | backend/assessments.py:81-83 | With answers in 0..3, each subscale score is even and in 0..42. |
| Scoring.DassScoresTotal | backend/assessments.py:77-83 | For answers keyed within 1..21, the three scores add up to twice the sum of all answers. |
| Scoring.DassExample | backend_test.py:129 | The answers `i mod 4` score depression 18, anxiety 24, stress 20, and get the see-a-specialist analysis. |
| Scoring.ModFourAnswersLookup | backend_test.py:129 | The example's answer to item `q` is `q mod 4`. |
| Scoring.ModFourDepression | backend/assessments.py:77 | The example's depression items sum to 9. |
| Scoring.ModFourAnxiety | backend/assessments.py:78 | The example's anxiety items sum to 12. |
| Scoring.ModFourStress | backend/assessments.py:79 | The example's stress items sum to 10. |
| Scoring.LevelMonotone | backend/assessments.py:85-119 | With ordered cut-offs, a higher score never gets a lower level. |
| Scoring.CutoffsIncreasing | backend/assessments.py:85-119 | The three cut-off sets are strictly increasing; score 0 is normal and 42 extremely severe on every subscale. |
| Scoring.DassBands | backend/assessments.py:85-119 | The five score ranges of each subscale, as in the DASS manual (Lovibond and Lovibond, 1995), both directions. |
| Scoring.LevelLabelInjective | backend/assessments.py:85-119 | Distinct levels have distinct labels, so the analysis's string tests are exact. |
| Scoring.DassAnalysis | backend/assessments.py:25-38 | The text starts with the fixed prefix; it is the normal text iff all levels are normal, the specialist text iff some level is severe or worse, the attention text otherwise. |
| Scoring.DassRecommendations | backend/assessments.py:41-73 | 1 to 5 items; exactly the maintenance list iff all levels are normal; otherwise the 3-item blocks of the non-normal subscales in depression, anxiety, stress order, cut to 5. |
| Scoring.Phq9Bands | backend/assessments.py:197-207 | Severity bands 0-4, 5-9, 10-14, 15-19, 20+ (Kroenke, Spitzer and Williams, 2001), both directions. |
| Scoring.SeverityMonotone | backend/assessments.py:197-207 | A higher PHQ-9 total never gets a lower band. |
| Scoring.SeverityLabelInjective | backend/assessments.py:197-207 | Distinct bands have distinct labels. |
| Scoring.Phq9Recommendations | backend/assessments.py:168-191 | Minimal gets 3 items, every other band 4; in both directions, the minimal, mild and moderate bands each get their own list, and the two upper bands share the urgent list. |
| Scoring.ValueSumBounds | backend/assessments.py:195 | With answers in 0..3, the sum of `k` answers lies in 0..3k. |
| Scoring.Phq9TotalBounded | backend/assessments.py:195 | Nine answers in 0..3 give a total in 0..27. |
| Auth.CreateAccessToken | backend/auth.py:56-61 | The token names the user and expires 30 minutes after issue. |
| Auth.CurrentUser | backend/auth.py:64-86 | For a presented bearer token, always 401 on failure: "user not found" exactly when the token decoded with a `sub`, the validation error otherwise; success exactly when a stored user has the `sub`, returning that user. |
| Auth.GetProfile | backend/auth.py:169-181 | Fails exactly when the token check fails, with its error; otherwise returns the profile of the user the token names, the one `get_current_user` found. |
| Auth.Profile | backend/auth.py:169-181 | The identity fields are copied from the document; `xp`, `level`, `memory` and `badges` are the stored values when present, else 0, 1, `{}` and `[]`. |
| Auth.RegistrationError | backend/auth.py:103-112 | Checks in order: consent, then password match, then a taken email, each a 400; accepted exactly when all pass. |
| Auth.RegisteredViewIsProfile | backend/auth.py:113-143 | The returned user is the new document's profile: xp 0, level 1, empty memory, no badges. |
| Auth.SecondRegistrationRejected | backend/auth.py:108-112 | Registering the same email again is rejected as taken. |
| Auth.LoginTarget | backend/auth.py:146-153 | Login succeeds exactly with a stored user of that email whose hash verifies; unknown email and wrong password fail alike. |
| Auth.AwardedSpec | backend/auth.py:89-99 | `award_xp` changes only the user's document; an unknown user changes nothing; the new xp is old (default 0) plus the amount, and level and badges follow the level rule. |
| Auth.Awarded | backend/auth.py:89-99 | `award_xp` keeps the collection's length and every document's id and email; an unknown user leaves it unchanged. |
| Auth.AwardsCompose | backend/auth.py:89-99 | Two awards equal one award of the sum. |
| Auth.TouchKeepsProfiles | backend/auth.py:151-153 | Recording the login time changes only `last_login`, and no profile. |
| Auth.UserTable.Register | backend/auth.py:102-143 | A refused registration stores nothing; an accepted one appends exactly the new user and returns its token and view. |
| Auth.UserTable.Login | backend/auth.py:146-166 | A refused login changes nothing; an accepted one only updates `last_login` and returns the user's token and profile. |
| Auth.UserTable.SetLastLogin | backend/auth.py:151-153 | The stored users become `Touched`. |
| Auth.UserTable.AwardXp | backend/auth.py:89-99 | The stored users become `Awarded`; it returns nothing exactly for an unknown user, and otherwise the new xp, level and badges. |
| Auth.UserTable.SetMemory | backend/trackers.py:268-270 | Only the user's memory is replaced. |
| Assessments.SubmissionError | backend/assessments.py:221-260 | The token check comes first, then only the answer count: 21 or 9, else 400. |
| Assessments.AssessmentTable.Insert | backend/assessments.py:231-239 | Exactly one assessment is appended, with a fresh id. |
| Assessments.SubmitDass21 | backend/assessments.py:221-241 | A refused submission changes nothing; an accepted one stores one DASS-21 record with the returned scores and awards 10 xp. |
| Assessments.SubmitPhq9 | backend/assessments.py:244-260 | The same for PHQ-9 with nine answers. |
| Assessments.GetUserAssessments | backend/assessments.py:263-270 | Fails exactly when the token check fails; otherwise the caller's newest-10 listing. |
| Assessments.HistorySpec | backend/assessments.py:263-270 | The history holds only the caller's records, at most 10, latest first; an omitted one is no later than the last shown. |
| Assessments.LatestSubmissionListedFirst | backend/assessments.py:263-270 | A submission later than all the caller's others heads the history. |
| DailyLogs.SavedKeepsOnePerDay | backend/trackers.py:111-129 | A save keeps at most one entry per user per day. |
| DailyLogs.SavedEntryForToday | backend/trackers.py:111-129 | After a save the user has exactly one entry in today's window, holding the saved values and date `now`. |
| DailyLogs.Saved | backend/trackers.py:111-129 | The journal grows by one entry exactly when the user has none in today's window; afterwards some entry of the user holds the payload with date `now`. |
| DailyLogs.SavedFrame | backend/trackers.py:123-129 | An overwrite keeps the entry's id and changes no other entry; an insert appends one entry with a fresh id, exactly when none was dated today. |
| DailyLogs.LastSaveWins | backend/trackers.py:111-129 | Two same-day saves leave what the second alone would, on the same entry. |
| DailyLogs.DailyLog.SaveToday | backend/trackers.py:113-129 | The find-then-update-or-insert yields `Saved`, keeps one entry per day and unique ids, and uses a fresh id only when it inserts. |
| DailyLogs.ListEntries | backend/trackers.py:133-140 | Fails exactly when the token check fails; otherwise the caller's newest-30 listing. |
| DailyLogs.ListingSpec | backend/trackers.py:133-140 | A listing holds only the caller's entries, at most 30, latest first; an omitted one is no later than the last shown. |
| Trackers.MoodFor | backend/trackers.py:116-122 | The stored mood keeps the level and note; the analysis is of the note, or of "" when there is none. |
| Trackers.SaveMood | backend/trackers.py:109-130 | The caller's entry for today becomes the new mood; no xp is awarded. |
| Trackers.SaveSleep | backend/trackers.py:143-165 | The day's sleep entry is upserted and the caller gets 5 xp. |
| Trackers.SaveReflection | backend/trackers.py:178-198 | The day's reflection is upserted and the caller gets 5 xp. |
| Trackers.GetMemory | backend/trackers.py:260-262 | The caller's memory, or empty. |
| Trackers.Merge | backend/trackers.py:267-268 | `dict.update`: the update's keys take the new values, every other key keeps its old value, no other key appears. |
| Trackers.MergeIdempotent | backend/trackers.py:267-268 | Applying the same update twice is applying it once. |
| Trackers.UpdateMemory | backend/trackers.py:265-272 | Stores the merged memory and returns it, the payload of the `{"memory": ...}` body; only that user's memory changes. |
| Trackers.MemoryAfterUpdate | backend/trackers.py:260-272 | Reading the memory after an update returns the merged dictionary. |
| Chat.Replies | backend/trackers.py:51-102 | Each keyword group has three replies, the fallback five. |
| Chat.Lower | backend/trackers.py:46 | Lower-casing maps each character and keeps the length. |
| Chat.Route | backend/trackers.py:50-95 | The first group in the order greeting, sad, happy, worry, study, sleep with a keyword in the message is chosen; the fallback exactly when none matches. |
| Chat.Nickname | backend/trackers.py:47-49 | Some value exactly when `name` or `nickname` is truthy in Python's sense (`0`, `False`, `""`, `[]`, `{}` and `None` are not); `name` wins when it is truthy; the value returned is always truthy. |
| Json.Display | backend/trackers.py:56 | The f-string's `str` of the nickname: a text is itself, `True`/`False`/`None` their Python names, an integer its canonical decimal digits (non-empty, no leading zero, read back to the same number), after a `-` for a negative one. |
| Json.Decimal | backend/trackers.py:56 | `str(n)`: a leading `-` exactly for a negative number, then the canonical digits of `|n|` (non-empty, no leading zero), which read back give `|n|`. |
| Json.CanonicalIsDigits | backend/trackers.py:56 | A canonical digit string is exactly `Digits` of its value, so the sign and value fix `Decimal`'s output uniquely. |
| Json.LeadingDigitPositive | backend/trackers.py:56 | A digit string with a non-zero first digit has a positive value. |
| Json.Digits | backend/trackers.py:56 | A non-empty string of decimal digits with no leading zero. |
| Json.DigitsRoundTrip | backend/trackers.py:56 | Reading back the digits of `n` gives `n`. |
| Chat.Reply | backend/trackers.py:43-103 | A greeting is the salutation ("سلام {x}!" or "سلام!") and a greeting reply; every other reply is one of its group's list. |
| Chat.Pick | backend/trackers.py:57 | The drawn reply is in the list. |
| Chat.EveryReplyReachable | backend/trackers.py:51-103 | Every reply of the routed list is given for some draw. |
| Chat.TopicReplyAt | backend/trackers.py:51-103 | For a routed group, the `k`-th draw gives the `k`-th reply, after the salutation for a greeting. |
| Chat.GreetingTakesPriority | backend/trackers.py:50 | A message with a greeting keyword is answered as a greeting, whatever else it mentions. |
| Chat.SubstringMatch | backend/trackers.py:50 | Keywords match inside words: "I think" is taken as a greeting. |
| Gamification.AwardEndpoint | backend/gamification.py:16-18 | `award_xp` for the caller with the request's xp, 0 by default. |
| Gamification.GetGamification | backend/gamification.py:21-30 | Fails only with the token check's 401, so the 404 cannot be reached; otherwise xp, level and badges with defaults 0, 1 and []. |
| Gamification.StandingAfterAward | backend/gamification.py:16-30 | After an award the standing shows the new xp, and the level and badges for it. |
| Gamification.Rows | backend/gamification.py:36 | The projection keeps one row per user, in order. |
| Gamification.LeaderboardSpec | backend/gamification.py:33-41 | At most 10 rows, xp non-increasing, every row a user's, and any user left out has no more xp than the last row. |
| Gamification.Leaderboard | backend/gamification.py:33-41 | At most 10 rows, in non-increasing xp order. |
| Gamification.FilterAll | backend/gamification.py:36 | The empty filter keeps every document. |
| Gamification.BadgesCatalog | backend/gamification.py:44-46 | The catalogue is ["Novice", "Expert"] and holds every badge the level rule can give. |
| Gamification.AwardedBadgesInCatalog | backend/auth.py:93-99 | Awards keep every stored badge within the catalogue. |
| Journeys.ListJourneys | backend/journeys.py:12-14 | The default catalogue itself: three journeys with distinct ids and three tasks each. |
| Journeys.ListJourneysSignedIn | backend/trackers.py:245-247 | The same catalogue, behind the token check. |
| Journeys.GetJourney | backend/journeys.py:17-22 | The search loop returns the journey with that id if one exists, and 404 otherwise. |
| Journeys.StartedSpec | backend/journeys.py:25-37 | After a start the pair has exactly one record, at step 0; other pairs' records are untouched; one record per pair is kept. |
| Journeys.Started | backend/journeys.py:25-37 | The upsert appends a record exactly when the pair has none; afterwards the pair's step-0 record is present. |
| Journeys.StartIdempotent | backend/journeys.py:25-37 | Starting twice is starting once. |
| Journeys.ProgressOf | backend/journeys.py:40-48 | 404 exactly when the pair has no record; otherwise the pair's record. |
| Journeys.ProgressAfterStart | backend/journeys.py:25-48 | Right after a start the progress is step 0. |
| Journeys.ProgressTable.StartJourney | backend/journeys.py:25-37 | After the token check, the upsert yields `Started` and returns the step-0 record; the journey id is not checked. |
| Journeys.GetProgress | backend/journeys.py:40-48 | The progress lookup behind the token check. |
| Session.Payload | frontend/src/App.js:54-57 | Login sends only email and password; registration sends the whole form. |
| Session.AuthErrorText | frontend/src/App.js:65 | The server's `detail`, of any JSON type, when JavaScript counts it true (a non-empty text, or any list such as a 422's), else the default text; the stored error is always true in JavaScript's sense. |
| Session.QuestionIdsInOrder | frontend/src/App.js:86-108 | There are 21 questions, with ids 1 to 21 in order. |
| Session.QuestionIdAt | frontend/src/App.js:86-108 | The `i`-th question has id `i + 1`. |
| Session.CategoryTagsDisagreeWithScoring | frontend/src/App.js:87 | Question 1 is tagged depression, but the server scores item 1 as stress; every other tag matches the server's lists. |
| Session.Range | frontend/src/App.js:86-108 | The id range has the expected members and size. |
| Session.KeysFillRange | frontend/src/App.js:332 | `n` distinct keys drawn from 1..n are all of them. |
| Session.DassGateMeansComplete | frontend/src/App.js:332 | With answers from the radio buttons, the submit button is enabled iff nothing is loading and all 21 questions are answered. |
| Session.AuthGate | frontend/src/App.js:224 | Sign-in needs only `!loading`; sign-up also needs the consent box. |
| Session.App.constructor | frontend/src/App.js:6-25 | Initial state: landing page, no user, empty form and answers, no result. |
| Session.App.Startup | frontend/src/App.js:29-46 | With a stored token, a fetched profile sets the user and shows the dashboard, and a failure drops the token; without one nothing happens. |
| Session.App.HandleAuth | frontend/src/App.js:48-69 | On success stores the token, sets the user and shows the dashboard; on failure sets the error text and keeps the page; `loading` ends false. |
| Session.App.Logout | frontend/src/App.js:71-84 | Drops token and user, shows the landing page, empties the form; answers and result stay. |
| Session.App.ToggleAuthMode | frontend/src/App.js:234 | Switches between sign-in and sign-up. |
| Session.App.OpenAuth | frontend/src/App.js:430 | Landing to the form. |
| Session.App.OpenDass21 | frontend/src/App.js:257 | Dashboard to the questionnaire. |
| Session.App.BackToDashboard | frontend/src/App.js:286 | The questionnaire or the results back to the dashboard. |
| Session.App.RecordAnswer | frontend/src/App.js:314-319 | Overwrites only that question's answer; keys stay within 1..21 and values within 0..3. |
| Session.App.SubmitDass21 | frontend/src/App.js:110-125 | On success keeps the server's result as it came and shows the results; on failure sets the fixed error and stays; `loading` ends false. |

## Left out

- **Rendering and styling**. This covers:
  - the JSX of `frontend/src/App.js`;
  - the components in `frontend/src/components/`;
  - `DASS21Test.js`, whose answer recording and gate repeat App.js.
- `Auth.CurrentUser`: begins with a bearer token already presented. `HTTPBearer` (`backend/auth.py:9,65`) refuses a request first if it has no `Authorization` header or a scheme other than Bearer. That refusal is FastAPI's own error, not the 401 of `get_current_user`, and the model does not produce it.
- **Concurrent requests**. Each server request is modelled as running alone, from its first read to its last write. In the source, each `await` is a point where other requests can interleave. Two cases matter:
  - `DailyLogs.DailyLog.SaveToday`: two saves on the same day can both miss at `find_one` (`backend/trackers.py:113-129`). Both then insert, and the user has two entries that day, which `OnePerDay` rules out.
  - `Auth.UserTable.AwardXp`: two awards can both read the old xp (`backend/auth.py:90-97`). Each then `$set`s its own total, so one award is lost.
  The same holds for the memory merge, whose read and write can interleave with another request's, so one update can be lost. The journey start is a single `update_one` with `upsert=True` (`backend/journeys.py:32-36`), so only MongoDB's own upsert concurrency applies to it. The model does not capture these interleavings.
- **Intermediate awaiting state**. The client's `loading` flag is modelled only as it is after a handler ends. The interleaving of concurrent handlers is not modelled.
- **Outside services**. These are parameters of the model:
  - bcrypt hashing and verification;
  - JWT encoding and decoding;
  - the transformers sentiment pipeline (`backend/nlp_analysis.py`, `backend/nlp.py`);
  - `random.choice`;
  - the clock;
  - `uuid4`.
- **Plumbing**. MongoDB and motor (`backend/database.py`), the app wiring (`backend/server.py`, `backend/services/`), `backend/idp.py` and `scripts/create_admin_user.py` are not part of this model.
- **Floats**. Sleep `hours` and sentiment scores are stored as `real` and never computed with.
- **Chat history and the health plan**. `chat_with_bot` also stores the message and reply in a chat history (`backend/trackers.py:211-223`); the model has only the reply. The mental-health plan (`backend/trackers.py:226-242`) and the research export (`backend/assessments.py:273`) are not modelled.
- **Time of a save**. `Trackers.SaveMood`, `Trackers.SaveSleep` and `Trackers.SaveReflection` read the clock once. The source reads it twice, once for the window and once for the stored date. The two reads can straddle midnight; the model does not capture that case.
- `Chat.Lower`: lower-cases only A to Z. Python's `str.lower` also folds other scripts, and some non-ASCII capitals lower to text containing ASCII letters: `"İ"` becomes `"i̇"`, which contains `"i"`, and the Kelvin sign becomes `"k"`. On such inputs the routing can differ: `"Hİ"` is a greeting in the source and gets the default reply in the model.
- **Response bodies**. Replies are modelled by their payload, without the JSON object that wraps it. Examples:
  - `Trackers.UpdateMemory` returns the merged memory, where the source returns `{"memory": memory}` (`backend/trackers.py:272`);
  - the daily saves return only the message text of `{"message": ...}` (`backend/trackers.py:130,165,198`);
  - `Chat.Reply` is the text of `{"response": ...}` (`backend/trackers.py:223`).
- `Json.Display`: JSON numbers with a fraction are not represented, so a float `name` or `nickname` cannot be stored in the model's memory. Python's `repr` of a list or object nickname is the parameter `containerRepr` of `Chat.Reply`.
- `Assessments.SubmitDass21`: keeps the answers with integer keys. The source stores them with the keys turned into strings. It also requires the answers to have distinct keys, as a JSON object decoded to a dict always does.
- **Registration fields**. The email is compared as given; Pydantic's `EmailStr` normalisation is not modelled. `age` arrives as an integer on the server and as text in the client form; the two are not linked.
- **Client pages**. App.js has no PHQ-9, mood, sleep or chat pages, although its dashboard shows cards for some of them. The model has none either.
- **Journey test**. `tests/test_journeys.py:10` expects a `description` key. The journey data has none (`backend/journeys_utils.py:4-40`), and the model follows the data.
- **Duplicate endpoints**. `/api/gamification` is defined twice: in `backend/trackers.py:250-257`, served by the main server, and in `backend/gamification.py:21-30`, served by the gamification service. `Gamification.GetGamification` models the second. On every request that passes the token check, it gives what the first gives. The list of journeys is likewise defined twice (`backend/trackers.py:245-247` and `backend/journeys.py:12-14`); both are modelled.
