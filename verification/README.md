# AI-powered interview assistant: a Dafny model

This project models the core of a browser-based interview assistant. A candidate uploads a resume. The assistant checks that it is a resume and extracts contact details and technologies. It then asks six timed questions, two easy, two medium and two hard, and grades each answer. At the end it writes a final score and summary. An interviewer dashboard lists the candidates.

The model has one module per part of the program:

- `Store` (`store.dfy`): the session store's reducers, as pure functions from state to state. It includes the pause and resume timer that follows the active tab.
- `AiService` (`ai_service.dfy`): the question, grading and summary rules. It covers the time limits, the fallback question pools, the length-based fallback score and feedback, the parsing of the `SCORE:` / `FEEDBACK:` reply, and the rounded final score. The remote model is a parameter: its reply, or none when the call fails.
- `ChatInterface` (`chat_interface.dfy`): the chat screen as an event-driven engine. Events are submissions, keystrokes, countdown ticks, visibility changes, the arrival of generated questions and evaluations, and the continuation that follows grading. After each event the effects it triggers run: the countdown, the question reset and the time-up submission.
- `ChatProperties` and `ChatFindings` (`chat_properties.dfy`, `chat_findings.dfy`): properties of that engine, and the three defects below.
- `ResumeParser` (`resume_parser.dfy`): the resume detector and the post-processing of the extracted lists.
- `ResumeFixtures` (`resume_fixtures.dfy`): the five documents of the resume-detection test utility, with proofs of what the detector says about each, and the utility's tally.
- `ResumeUpload` (`resume_upload.dfy`): the upload component's type and size validation.
- `IntervieweeTab` (`interviewee_tab.dfy`): onboarding. It derives the missing-field form, creates the candidate and builds the welcome message.
- `WelcomeBack` (`welcome_back.dfy`): when the page raises the welcome-back modal, and what its buttons do.
- `Sidebar` and `Dashboard` (`sidebar.dfy`, `dashboard.dfy`): the `m:ss` clock, the colour bands, the search and sort of the candidate list, and the completed count.
- Shared modules: `Wrappers` (`Option`), `Types` (the records) and `Text`. `Text` models the JavaScript string operations the program uses: `trim`, `toLowerCase` on the ASCII letters, `includes`, `padStart`, decimal `toString` and `split` on a character class. `length` is counted in UTF-16 code units, so a character beyond U+FFFF counts twice.

Clocks are passed in as parameters: `Date.now()` is a natural number of milliseconds. Regular expressions are not interpreted. What they matched is an input, the `Signals` and `Matches` records, and everything the program computes from those matches is modelled.

## Model

| member | source | states |
|---|---|---|
| Store.SetCurrentCandidate | src/store/slices/interviewSlice.ts:26-28 | the current slot holds the given candidate; nothing else in the state changes |
| Store.AddCandidate | src/store/slices/interviewSlice.ts:29-31 | the roster grows by one, with the old roster as its prefix and the new candidate last; nothing else changes |
| Store.FindIndex | src/store/slices/interviewSlice.ts:33 | returns the first position holding the id, with no earlier position holding it; returns none exactly when no entry has the id |
| Store.MergeEmptyPatch | src/store/slices/interviewSlice.ts:35 | a patch carrying only the id leaves the candidate unchanged |
| Store.MergeIdempotent | src/store/slices/interviewSlice.ts:35 | applying the same patch twice equals applying it once |
| Store.UpdateCandidate | src/store/slices/interviewSlice.ts:32-40 | only the first roster entry with the id is patched, every other entry is kept, and the roster length is kept; the current candidate is patched exactly when its id matches; no other field changes |
| Store.PatchRoster | src/store/slices/interviewSlice.ts:33-36 | position j is patched exactly when it is the first entry with the id; the length is kept |
| Store.UpdateReachesBothCopies | src/store/slices/interviewSlice.ts:32-40 | when the current candidate equals its roster entry, both copies are still equal after an update |
| Store.StartInterview | src/store/slices/interviewSlice.ts:41-46 | the interview becomes active and the current candidate turns in-progress; the roster is untouched |
| Store.EndInterview | src/store/slices/interviewSlice.ts:47-53 | the interview becomes inactive and the current candidate is completed at the given time; the roster is untouched |
| Store.SetCurrentQuestion | src/store/slices/interviewSlice.ts:54-57 | the question is shown and the remaining time resets to its limit; nothing else changes |
| Store.UpdateTimeRemaining | src/store/slices/interviewSlice.ts:58-60 | only the remaining time changes, to the given value |
| Store.AddAnswer | src/store/slices/interviewSlice.ts:61-66 | with a current candidate, the answer is appended to its answers and its index advances by one; without one, nothing changes; the roster is untouched |
| Store.AddChatMessage | src/store/slices/interviewSlice.ts:67-71 | the message is appended to the current candidate's chat; without a current candidate nothing changes |
| Store.SetShowWelcomeBack | src/store/slices/interviewSlice.ts:72-74 | only the modal flag changes |
| Store.ResetCurrentSession | src/store/slices/interviewSlice.ts:75-80 | the current candidate and question are gone, the interview is inactive and the time is 0; the roster, tab, timer and modal flag are kept |
| Store.ClearChatHistory | src/store/slices/interviewSlice.ts:81-85 | the current candidate's chat becomes empty; nothing else changes |
| Store.SetActiveTab | src/store/slices/interviewSlice.ts:86-122 | leaving the interviewee tab pauses a running timer; returning resumes a timer that holds a truthy pause time while a question is shown; the remaining time is never changed; selecting the same tab changes nothing |
| Store.InitializeTimer | src/store/slices/interviewSlice.ts:123-133 | the timer runs, unpaused, with the full duration remaining from the given start; nothing else changes |
| Store.PauseTimer | src/store/slices/interviewSlice.ts:134-141 | a running timer stops and records the pause time; a stopped timer is left as it is; the remaining time is kept |
| Store.ResumeTimer | src/store/slices/interviewSlice.ts:142-149 | a stopped timer with a truthy pause time runs again with its pause cleared; any other timer is left as it is |
| Store.UpdateTimerRemaining | src/store/slices/interviewSlice.ts:150-165 | the timer's remaining time and the legacy remaining time both receive the value; running and paused state are kept |
| Store.ReducePreservesTimer | src/store/slices/interviewSlice.ts:86-165 | every action keeps the invariant that a running timer holds no pause time |
| Store.ReachableTimerConsistent | src/store/slices/interviewSlice.ts:4-20 | from the initial state, every sequence of actions reaches a state whose timer satisfies that invariant |
| Store.PauseIdempotent | src/store/slices/interviewSlice.ts:134-141 | a second pause keeps the first pause and changes nothing |
| Store.ResumeIdempotent | src/store/slices/interviewSlice.ts:142-149 | a second resume changes nothing |
| Store.TabRoundTripResumes | src/store/slices/interviewSlice.ts:103-119 | a trip to the dashboard and back, with a question shown and a nonzero clock, leaves the timer running with the same remaining time |
| Store.PauseAtZeroNotResumed | src/store/slices/interviewSlice.ts:103-112 | a pause taken at clock reading 0 is falsy, so returning to the tab does not resume the timer |
| Store.ResetKeepsRoster | src/store/slices/interviewSlice.ts:75-80 | a reset and the addition of a candidate commute, and the roster after both is the old roster followed by the new candidate |
| AiService.MaxTime | src/utils/aiService.ts:109 | the limit is one of 20, 60 and 120 seconds: 20 exactly for easy and 120 exactly for hard |
| AiService.MaxTimeIncreasing | src/utils/aiService.ts:151 | a harder difficulty gets strictly more time |
| AiService.Pool | src/utils/aiService.ts:122-147 | each difficulty has six built-in questions |
| AiService.GenerateQuestion | src/utils/aiService.ts:30-161 | a reply gives the trimmed text, with an id carrying the difficulty, index and clock; without a reply, the question is pool entry `index mod 6` with id `fallback-<difficulty>-<index>`; both paths give the same limit and category |
| AiService.FallbackCycles | src/utils/aiService.ts:150 | fallback questions repeat with period six |
| AiService.FallbackIdsDistinct | src/utils/aiService.ts:154 | distinct indices of one difficulty get distinct fallback ids |
| AiService.ScoreForLength | src/utils/aiService.ts:250-263 | the length-based fallback score always lies in 1..10 |
| AiService.ScoreForLengthShape | src/utils/aiService.ts:250-263 | a longer answer never scores less; the score is 10 exactly from the difficulty's cap length on; an empty answer scores 3, 2 or 1 for easy, medium or hard |
| AiService.FallbackFeedbackByLength | src/utils/aiService.ts:265-275 | the fallback feedback is the good, decent or weak text according to whether the trimmed length reaches the good length, the decent length, or neither |
| AiService.FeedbackTiers | src/utils/aiService.ts:265-275 | the score reaches 7 exactly at the "good" length and 4 exactly at the "decent" length |
| AiService.FallbackEvaluation | src/utils/aiService.ts:277-281 | the score lies in 1..10 and the feedback is the tier of that score |
| AiService.FallbackByLength | src/utils/aiService.ts:250-281 | counted in UTF-16 code units of the trimmed answer: a longer answer never scores less, the score is 10 exactly from the cap length on, and the good and weak feedback start exactly at their tier lengths |
| AiService.FallbackCountsCodeUnits | src/utils/aiService.ts:250-281 | forty characters beyond U+FFFF make an easy answer of eighty code units, which scores 7 with the good feedback |
| AiService.FirstMatch | src/utils/aiService.ts:199-205 | the result is a match at or after the start, with no match before it; none exactly when no match follows |
| AiService.FirstMatchFinds | src/utils/aiService.ts:199 | a match with none before it is the one the scan reports |
| AiService.ParseScore | src/utils/aiService.ts:199-201 | a number is captured exactly when the reply holds the score marker followed by optional space and a digit |
| AiService.ParseFeedback | src/utils/aiService.ts:203-205 | feedback is captured exactly when the reply holds the feedback marker with text after it; the captured text is trimmed |
| AiService.Clamp | src/utils/aiService.ts:201 | the result lies in 0..10 and equals the input when the input is on the scale |
| AiService.EvaluateAnswer | src/utils/aiService.ts:163-210 | a blank answer scores 0 without a call; otherwise the reply's score, capped, and its feedback are used, each falling back to the local rule when missing; the score always lies in 0..10 |
| AiService.ReplyScoreRoundTrip | src/utils/aiService.ts:199-201 | a reply in the requested format gives its number back exactly |
| AiService.ReplyFeedbackRoundTrip | src/utils/aiService.ts:203-205 | a reply in the requested format gives its feedback back, trimmed |
| AiService.EvaluateWellFormedReply | src/utils/aiService.ts:163-210 | grading a non-blank answer from a well-formed reply gives the reply's score, capped at 10, and its trimmed feedback |
| AiService.ScoreCapped | src/utils/aiService.ts:201 | a reply of "SCORE: 15" counts as 10 |
| AiService.FinalScore | src/utils/aiService.ts:213-215 | the result is within one half of the mean score times ten, with a half rounded up: the nearest integer |
| AiService.SumScoresBounds | src/utils/aiService.ts:213 | with every score in 0..10 the total lies between 0 and 10 per answer |
| AiService.FinalScoreInRange | src/utils/aiService.ts:213-215 | with every score in 0..10 the final score lies in 0..100 |
| AiService.BandMonotone | src/utils/aiService.ts:283-297 | a higher score never falls in a lower summary band |
| AiService.FallbackSummary | src/utils/aiService.ts:283-297 | the text is that of the score's band (at least 80, 60, 40, or below) and the score passes through |
| AiService.GenerateFinalSummary | src/utils/aiService.ts:212-247 | the score is the rounded mean times ten with or without a reply; the text is the trimmed reply, or the band's text when there is none |
| AiService.SixAnswerExample | src/utils/aiService.ts:213-215 | scores 9, 8, 7, 6, 8 and 7 give a final score of 75 |
| ChatInterface.DifficultyAt | src/components/ChatInterface.tsx:208-213 | indices 0-1 are easy, 2-3 are medium and 4 on are hard |
| ChatInterface.ScheduleBalanced | src/components/ChatInterface.tsx:208-213 | six questions hold two of each difficulty and at most 400 seconds in total |
| ChatInterface.Mount | src/components/ChatInterface.tsx:24-39 | on mount the local state is fresh and a shown question has its remaining time reset to its limit; the candidate, roster, question and activity are kept; a question persisted with no time left in an active interview with a candidate is submitted at once as the time-expired answer, charged the full limit, and only then |
| ChatInterface.MountSettles | src/components/ChatInterface.tsx:420-451 | mounting is the fresh local state after the question-reset and time-up effects have run on the persisted store |
| ChatInterface.TimeUpAnswer | src/components/ChatInterface.tsx:368 | the answer is the trimmed input, or the substitute text when the input is blank; it is never empty |
| ChatInterface.HandleTimeUp | src/components/ChatInterface.tsx:364-375 | with a candidate, the typed answer, or the substitute, is submitted and charged the full limit, together with the candidate and generating flag the closure holds; the store, input and generation are untouched |
| ChatInterface.Settle | src/components/ChatInterface.tsx:436-451 | when no time-up is due, the effects change nothing; they never change the store |
| ChatInterface.StartInterviewProcess | src/components/ChatInterface.tsx:152-195 | with a candidate and no generation in flight, the interview starts and the first easy question is requested; otherwise nothing changes |
| ChatInterface.SubmitAnswer | src/components/ChatInterface.tsx:272-302 | with a candidate, the answer is handed to the evaluator together with the candidate and the generating flag the closure holds; without one, nothing changes |
| ChatInterface.SubmitRoute | src/components/ChatInterface.tsx:453-506 | blank input or pending work is ignored; input counts as an answer exactly when a question is shown in an active interview; a start word starts only when no interview runs and no question is shown |
| ChatInterface.HandleSubmit | src/components/ChatInterface.tsx:453-506 | ignored input changes nothing, and a submission never touches the scheduled continuations |
| ChatInterface.SubmitRoutes | src/components/ChatInterface.tsx:453-506 | each route selects its own handler |
| ChatInterface.SubmitTyped | src/components/ChatInterface.tsx:473-481 | the answer route leaves the store unchanged, never starts the countdown, and only ever starts a grading that is not a time-up |
| ChatInterface.HandleChatter | src/components/ChatInterface.tsx:483-506 | chatter clears the input and never moves the clock, the question or the interview's activity |
| ChatInterface.HandleKeystroke | src/components/ChatInterface.tsx:674-697 | typing while loading is ignored; otherwise the input becomes the text, and the countdown starts exactly on the first non-empty input with a question shown in an active interview |
| ChatInterface.HandleTick | src/components/ChatInterface.tsx:377-418 | a tick takes exactly one second off while the countdown runs, and otherwise changes nothing |
| ChatInterface.HandleQuestionLoaded | src/components/ChatInterface.tsx:197-270 | an arrival for no pending request changes nothing; otherwise that request is removed, generation ends, and the question is the one generated for the request's difficulty and index with its full limit; one with a new id resets the countdown and the stored answer |
| ChatInterface.HandleGraded | src/components/ChatInterface.tsx:272-316 | the graded answer is recorded, loading ends, and the continuation is scheduled with the submitting closure's candidate and generating flag; pending generations are untouched |
| ChatInterface.CompleteInterview | src/components/ChatInterface.tsx:106-150 | the interview ends; the candidate whose closure ran is completed with the final score of the answers the summary sees, and a summary that is the trimmed summary reply, or else the band text of that score (the below-average text when there are no answers) |
| ChatInterface.LoadNextQuestion | src/components/ChatInterface.tsx:197-203 | skipped exactly when the generating flag it consults is raised: the flag captured by the continuation scheduled at lines 303-316 as written, the live one corrected; otherwise generation starts and the question requested is the closure candidate's index plus one, at the scheduled difficulty, with nothing else changed |
| ChatInterface.HandleContinue | src/components/ChatInterface.tsx:303-316 | the continuation completes the interview once the closure's candidate has reached the sixth question, and otherwise loads the next one |
| ChatProperties.SubmitStartsIff | src/components/ChatInterface.tsx:461-470 | with no interview running, a submission starts one exactly when the input is a start word, no question is shown, nothing is pending and there is a candidate |
| ChatProperties.SubmitStartRequestsFirstQuestion | src/components/ChatInterface.tsx:152-170 | a start requests the easy question of index 0 |
| ChatProperties.SubmitAnswerRecordsTime | src/components/ChatInterface.tsx:473-481 | an answer is graded as trimmed and charged the limit minus the remaining time; the input, the stored answer and the countdown start are reset |
| ChatProperties.SubmitIgnored | src/components/ChatInterface.tsx:455 | a blank submission, or one made while grading, changes nothing |
| ChatProperties.ChatterMarksPrompted | src/components/ChatInterface.tsx:483-506 | chatter before the interview marks the candidate as prompted, in the roster and in the current slot, and starts nothing |
| ChatProperties.SubmitFrame | src/components/ChatInterface.tsx:453-506 | a submission never moves the clock or the question, never starts the countdown, never lowers a raised generating flag or changes the pending requests, and never makes a time-up submission |
| ChatProperties.FlagOnlyLoweredByArrival | src/components/ChatInterface.tsx:152-270 | in both variants a raised generating flag is backed by a pending request and is lowered only by a question's arrival; corrected, no other event adds a request while it is raised |
| ChatProperties.GenerationSingleFlight | src/components/ChatInterface.tsx:152-270 | corrected: at most one generation is pending and the flag is raised exactly while one is; no event but its arrival changes it |
| ChatProperties.QuestionOnlyWhenRequested | src/components/ChatInterface.tsx:197-270 | a question arrives only for a pending request, with the requested difficulty and its limit |
| ChatProperties.ContinueSchedule | src/components/ChatInterface.tsx:303-316 | the continuation for index i completes the interview when i + 1 >= 6, and otherwise, unless the consulted flag is raised, requests question i + 1 at its scheduled difficulty |
| ChatProperties.TickExact | src/components/ChatInterface.tsx:377-418 | a tick takes one second off exactly when all five countdown conditions hold |
| ChatProperties.TimeMovesOnlyOnTickOrLoad | src/components/ChatInterface.tsx:377-434 | only a tick or a newly loaded question changes the remaining time |
| ChatProperties.TimerStartsOnlyByTyping | src/components/ChatInterface.tsx:674-697 | the countdown starts only when the candidate types into an active question |
| ChatProperties.NewQuestionResetsTimer | src/components/ChatInterface.tsx:420-434 | a question with a new id waits for typing again, with an empty stored answer |
| ChatProperties.TimeUpSubmission | src/components/ChatInterface.tsx:436-451 | a time-up submission starts only with no time left in an active interview with a question shown; it submits the typed answer or the substitute and charges the full limit |
| ChatProperties.DispatchNeverTimesUp | src/components/ChatInterface.tsx:436-451 | no handler starts a time-up submission itself; only the effect does |
| ChatProperties.UpdateOk | src/store/slices/interviewSlice.ts:32-40 | an update that touches neither answers nor index, and writes a score in 0..100, keeps the current candidate well-formed |
| ChatProperties.AnswersScoreInRange | src/components/ChatInterface.tsx:106-125 | answers scored in 0..10 average to a score in 0..100 |
| ChatProperties.StepOk | src/components/ChatInterface.tsx:152-451 | every event keeps the engine invariant: the time lies within the limit, and every held candidate has well-formed answers and an index equal to their number |
| ChatProperties.RunOk | src/components/ChatInterface.tsx:272-316 | from a well-formed store, every run keeps the invariant: each recorded answer scores 0..10 and is charged within its limit |
| ChatProperties.CompletionScoreInRange | src/components/ChatInterface.tsx:106-150 | a completed interview's final score lies in 0..100 |
| ChatFindings.TimeUpRefiresAsWritten | src/components/ChatInterface.tsx:436-451 | as written: after the last tick, grading and a second evaluation, the same question has been answered twice |
| ChatFindings.TimeUpOnceCorrected | src/components/ChatInterface.tsx:436-451 | corrected: the same events record the time-up answer once |
| ChatFindings.CorrectedOneAnswerPerQuestion | src/components/ChatInterface.tsx:272-451 | corrected: between two question arrivals the shown question is answered at most once, whatever the events |
| ChatFindings.QuestionReopensBudget | src/components/ChatInterface.tsx:420-434 | corrected: a newly arrived question may again receive one answer |
| ChatFindings.StaleSummaryAsWritten | src/components/ChatInterface.tsx:106-125 | as written: grading the last answer and continuing completes the interview with a final score over the answers before the last one; the summary is the trimmed reply, or else the band text of that stale score |
| ChatFindings.SummaryCoversEveryAnswer | src/components/ChatInterface.tsx:106-125 | corrected: the final score covers every recorded answer, the last one included; the summary is the trimmed reply, or else the band text of that final score |
| ChatFindings.StaleSummaryExample | src/components/ChatInterface.tsx:106-125 | as written, scores 9, 8, 7, 6, 8 and a last 7 give 76 instead of 75 |
| ChatFindings.DoubleGenerationAsWritten | src/components/ChatInterface.tsx:303-316 | as written: two typed answers to the same question, both graded, then both continuations (each calling the guard at lines 197-203), leave two generations pending, for the next two indices |
| ChatFindings.CorrectedSingleFlight | src/components/ChatInterface.tsx:197-203 | corrected: from a state with at most one pending generation, every run keeps at most one pending and the flag raised exactly while one is |
| ChatFindings.MountedSingleFlight | src/components/ChatInterface.tsx:197-203 | corrected: every run from a freshly mounted screen (the state of lines 24-39) keeps at most one generation pending |
| ResumeParser.IncludedKeys | src/utils/resumeParser.ts:129-134 | exactly the keys found in the text, in list order |
| ResumeParser.ZeroSectionsIff | src/utils/resumeParser.ts:129-134 | the count is zero exactly when no indicator occurs in the lower-cased text |
| ResumeParser.NoSectionNoResume | src/utils/resumeParser.ts:145 | without an indicator a text is never a resume |
| ResumeParser.TwoSectionsSuffice | src/utils/resumeParser.ts:145 | two distinct indicators make a resume without any other signal |
| ResumeParser.OneSectionNeedsSignal | src/utils/resumeParser.ts:145 | with exactly one indicator, a text is a resume exactly when an email, phone, year or tech term is present |
| ResumeParser.WorkExperienceIsResume | src/utils/resumeParser.ts:106-134 | "work experience" also counts as "experience", so it alone makes a resume |
| ResumeParser.Dedup | src/utils/resumeParser.ts:231 | the same elements, each once, listed in the order of their first occurrences (so `[1, 2, 1]` gives `[1, 2]`); a list without duplicates is returned unchanged |
| ResumeParser.DedupIdempotent | src/utils/resumeParser.ts:231 | removing duplicates a second time changes nothing |
| ResumeParser.Take | src/utils/resumeParser.ts:162 | the first n elements, or all when fewer |
| ResumeParser.ExtractTechnologies | src/utils/resumeParser.ts:208-232 | exactly the keywords present in the lower-cased text, each once, in keyword order |
| ResumeParser.ExtractSkills | src/utils/resumeParser.ts:148-168 | none without a section; otherwise exactly the first twenty trimmed pieces of the section, split on commas, bullets and line breaks, whose length is 3 to 49 code units, in order |
| ResumeParser.SkillsComplete | src/utils/resumeParser.ts:157-163 | when at most twenty pieces qualify, every piece whose trimmed length is 3 to 49 code units is in the list |
| ResumeParser.ExtractExperience | src/utils/resumeParser.ts:170-187 | the first ten job-title matches |
| ResumeParser.CleanProjectLine | src/utils/resumeParser.ts:201 | the result is trimmed and a substring of the matched line |
| ResumeParser.ExtractProjects | src/utils/resumeParser.ts:189-206 | the first ten matched lines, each without its bullet and trimmed, so each a trimmed substring of its match; all of them when fewer than ten matched |
| ResumeParser.FirstTrimmed | src/utils/resumeParser.ts:90-92 | absent exactly when there is no match, otherwise the first match trimmed |
| ResumeParser.ExtractResumeInfo | src/utils/resumeParser.ts:69-100 | the fields are the first trimmed matches, the trimmed text, the detector's verdict and the technologies; the skills, experience and projects are exactly what the three list extractors give for the section and the matched lines, so at most 20, 10 and 10 |
| ResumeParser.ParseResume | src/utils/resumeParser.ts:21-44 | another MIME type fails with the unsupported-format message; an allowed type fails with the not-a-resume message exactly when the detector rejects, and otherwise gives the record `ExtractResumeInfo` builds from the text |
| ResumeFixtures.ValidResume1IsResume | src/utils/testResumeDetection.ts:8-33 | the first sample resume is detected as a resume, whatever the regular-expression signals |
| ResumeFixtures.ValidResume2IsResume | src/utils/testResumeDetection.ts:35-52 | the second sample resume is detected as a resume, whatever the signals |
| ResumeFixtures.RecipeIsNotResume | src/utils/testResumeDetection.ts:54-71 | the recipe holds no indicator, so it is rejected whatever the signals |
| ResumeFixtures.NewsIsNotResume | src/utils/testResumeDetection.ts:73-84 | the news article holds no indicator, so it is rejected whatever the signals |
| ResumeFixtures.MinimalResumeIsResume | src/utils/testResumeDetection.ts:86-98 | the minimal resume is detected as a resume, whatever the signals |
| ResumeFixtures.ShieldedHasNoIndicator | src/utils/testResumeDetection.ts:134-154 | a text that avoids each keyword's distinguishing letters contains none of the 41 indicators |
| ResumeFixtures.Tally | src/utils/testResumeDetection.ts:103-121 | passed plus failed is the number of cases, and none fails exactly when every case passes |
| ResumeFixtures.TestResumeDetection | src/utils/testResumeDetection.ts:103-127 | the report totals five, and nothing fails exactly when each case's verdict matches its expectation |
| ResumeFixtures.SuccessRate | src/utils/testResumeDetection.ts:124 | the rate is the nearest whole percentage of passed over total, a half rounded up; at most 100 when no more passed than ran, and exactly 100 when every case passes |
| ResumeFixtures.AllCasesPass | src/utils/testResumeDetection.ts:6-121 | every one of the five cases gets the expected verdict |
| ResumeFixtures.EveryCasePasses | src/utils/testResumeDetection.ts:103-126 | the utility reports 5 passed, 0 failed, 5 total, at a 100% success rate |
| ResumeUpload.ParseFile | src/utils/resumeParser.ts:21-44 | another type throws the unsupported-format error; a library throw is passed on unchanged; extracted text gives the record built from it exactly when the detector accepts, and the not-a-resume error otherwise |
| ResumeUpload.MessageOf | src/components/ResumeUpload.tsx:53 | an error value shows its message; anything else shows the generic failure text |
| ResumeUpload.HandleFileSelect | src/components/ResumeUpload.tsx:17-57 | no file changes nothing; a wrong type, or else an oversized file, sets its own error without parsing; otherwise the file is parsed, processing ends, and a record is delivered exactly when no error is shown: the parsed record itself, or else the error the catch block derives from the thrown value |
| ResumeUpload.ThrownMessageShown | src/components/ResumeUpload.tsx:51-55 | a library throw shows its `Error` message, or the generic failure message for any other value, with processing ended and nothing delivered |
| ResumeUpload.DeliveredRecord | src/components/ResumeUpload.tsx:37-55 | an allowed file within the limit delivers exactly the record extracted from its text when it is a resume, and otherwise shows the not-a-resume message |
| ResumeUpload.LimitIsInclusive | src/components/ResumeUpload.tsx:32 | a file of exactly 10 MiB reaches the parser and one a byte larger does not |
| ResumeUpload.TypeCheckedBeforeSize | src/components/ResumeUpload.tsx:26-35 | an oversized file of the wrong type reports the type error |
| ResumeUpload.UnsupportedFormatUnreachable | src/components/ResumeUpload.tsx:21-29 | the parser's unsupported-format message is never shown, since the component's own type check stops every other type first |
| ResumeUpload.DeliveredIffResume | src/components/ResumeUpload.tsx:37-51 | an allowed file within the limit is delivered exactly when its text is a resume |
| IntervieweeTab.MissingFields | src/components/IntervieweeTab.tsx:54-57 | a field is listed exactly when the resume yielded no non-empty value, in the order name, email, phone |
| IntervieweeTab.ToResumeData | src/components/IntervieweeTab.tsx:79-86 | the stored resume carries the parser's lists and text and the file's name |
| IntervieweeTab.NewCandidate | src/components/IntervieweeTab.tsx:74-96 | a new candidate has the clock as its id, no answers, a score of 0, pending status and both flags lowered |
| IntervieweeTab.CreateCandidate | src/components/IntervieweeTab.tsx:99-100 | the candidate is appended to the roster and made current |
| IntervieweeTab.HandleResumeUploaded | src/components/IntervieweeTab.tsx:51-71 | the form is prefilled; with a field missing the form opens and the store is untouched; otherwise the candidate is created and the interview shown |
| IntervieweeTab.EditField | src/components/IntervieweeTab.tsx:184 | only the edited field of the form changes |
| IntervieweeTab.HandleInfoSubmit | src/components/IntervieweeTab.tsx:144-153 | the submit is rejected while a trimmed field is empty; otherwise a candidate with the trimmed values and the stored resume is created |
| IntervieweeTab.StepEffect | src/components/IntervieweeTab.tsx:32-47 | a current candidate not yet greeted opens the interview and marks the tab greeted; the welcome-back greeting naming the candidate is scheduled exactly then and only when the candidate has a chat; a greeted tab is left alone; no candidate returns to the upload step and disarms the greeting |
| IntervieweeTab.DeliverWelcomeBack | src/components/IntervieweeTab.tsx:38-42 | the greeting joins the chat of whoever is current when it is delivered, and is dropped when nobody is; the roster is untouched |
| IntervieweeTab.WelcomeBackOnce | src/components/IntervieweeTab.tsx:32-47 | while the same candidate stays current the greeting is scheduled at most once; after the candidate leaves and returns it is scheduled again exactly when there is a chat |
| IntervieweeTab.StepFollowsCandidate | src/components/IntervieweeTab.tsx:32-47 | after the effect, the step is the interview exactly when there is a candidate, and upload exactly when there is none |
| IntervieweeTab.HandlersKeepConsistency | src/components/IntervieweeTab.tsx:51-153 | from a consistent tab, the form handlers, and the upload handler on the upload step where its control is shown, keep the tab greeted only while it shows the interview |
| IntervieweeTab.CountEntry | src/components/IntervieweeTab.tsx:114-117 | an entry is present exactly when its count is nonzero |
| IntervieweeTab.DetectedCounts | src/components/IntervieweeTab.tsx:113-117 | at most four entries; none exactly when all four lists are empty |
| IntervieweeTab.WelcomeMessage | src/components/IntervieweeTab.tsx:106-128 | the message is the greeting, then the personalised line when technologies were found and the general line otherwise, then the ready prompt |
| IntervieweeTab.WelcomeNamesCandidate | src/components/IntervieweeTab.tsx:106-128 | the message names the candidate, the first three technologies found, and how many technologies there are |
| IntervieweeTab.TechnologiesAlwaysDetected | src/components/IntervieweeTab.tsx:108-121 | when technologies were found, the detected line is never empty and names their count |
| IntervieweeTab.DeliverWelcome | src/components/IntervieweeTab.tsx:105-139 | the welcome message joins the current chat and the candidate is marked as prompted; nothing else about it changes |
| WelcomeBack.LoadEffect | src/app/page.tsx:26-36 | the modal is raised and the landing page skipped exactly for an in-progress candidate with answers who has not been greeted; otherwise nothing changes |
| WelcomeBack.TabEffect | src/app/page.tsx:40-48 | on the interviewee tab the same condition raises the modal; otherwise nothing changes |
| WelcomeBack.NeverRaisedForFreshOrFinished | src/app/page.tsx:29-32 | a candidate without answers, or not in progress, never gets the modal |
| WelcomeBack.EffectsAgree | src/app/page.tsx:26-48 | the tab effect raises the modal exactly when the load effect would and the interviewee tab is active |
| WelcomeBack.HandleStartInterview | src/app/page.tsx:50-53 | the landing page closes on the interviewee tab, with the candidates kept |
| WelcomeBack.HandleContinue | src/components/WelcomeBackModal.tsx:15-20 | the modal hides and the current candidate is marked as greeted; roster entries change only by that mark |
| WelcomeBack.CloseIsContinue | src/components/WelcomeBackModal.tsx:43-48 | the close button has exactly the effect of continuing |
| WelcomeBack.HandleStartOver | src/components/WelcomeBackModal.tsx:22-25 | the session is forgotten, the roster kept, and the modal hides |
| WelcomeBack.ModalFollowsFlow | src/components/WelcomeBackModal.tsx:13 | the modal renders only while raised with a current candidate: when not yet raised, the load effect shows it exactly when a greeting is due, the tab effect the same on the interviewee tab, and either button hides it |
| WelcomeBack.FirstAnswerRaisesModal | src/app/page.tsx:26-36 | the effect re-runs on every change of the current candidate, so recording the first answer of an in-progress candidate who has not dismissed the greeting shows the modal in the middle of the interview |
| WelcomeBack.DismissalIsFinal | src/app/page.tsx:26-48 | once continued or started over, neither effect raises the modal again |
| WelcomeBack.Progress | src/components/WelcomeBackModal.tsx:61 | progress is out of six and, for a well-formed candidate, counts the answers |
| Sidebar.JsRemainder60 | src/components/Sidebar.tsx:40 | JavaScript's remainder: in 0..59 for non-negative input, in -59..0 with the sign of the input otherwise |
| Sidebar.FormatTime | src/components/Sidebar.tsx:38-42 | for non-negative seconds, the whole minutes, a colon and the remaining seconds padded to two digits |
| Sidebar.FormatTimeRoundTrip | src/components/Sidebar.tsx:38-42 | reading the clock back gives the number of seconds |
| Sidebar.FormatTimeInjective | src/components/Sidebar.tsx:38-42 | distinct non-negative times show distinct clocks |
| Sidebar.ClockColor | src/components/Sidebar.tsx:123-130 | red in the last ten seconds, otherwise cyan while active and yellow while paused |
| Sidebar.CandidatePanel | src/components/Sidebar.tsx:104-141 | the panel is present exactly with a candidate; its timer only on the interviewee tab, marked paused exactly when inactive |
| Sidebar.QuestionLabelNumber | src/components/Sidebar.tsx:115 | the label reads back the one-based question number |
| Dashboard.FilterCandidates | src/components/InterviewerDashboard.tsx:106-111 | exactly the candidates whose lower-cased name or email contains the lower-cased term, each matching one as many times as the roster holds it and every other one not at all |
| Dashboard.FilterAppend | src/components/InterviewerDashboard.tsx:106-111 | the filter of a split roster is the filter of the first part followed by that of the second, so the roster order is kept |
| Dashboard.FilterOne | src/components/InterviewerDashboard.tsx:106-111 | a single entry is kept exactly when it matches |
| Dashboard.EmptyTermKeepsAll | src/components/InterviewerDashboard.tsx:106-111 | an empty search term keeps the whole roster in order |
| Dashboard.Insert | src/components/InterviewerDashboard.tsx:112-120 | inserting into a descending list keeps it descending and adds exactly the one element |
| Dashboard.SortCandidates | src/components/InterviewerDashboard.tsx:112-120 | the result is a permutation of its input, highest score or newest first |
| Dashboard.SortStable | src/components/InterviewerDashboard.tsx:112-120 | the sort is stable: the candidates sharing any one key keep their input order |
| Dashboard.FilteredAndSorted | src/components/InterviewerDashboard.tsx:106-120 | exactly the matching candidates, in descending key order |
| Dashboard.SortedStaysPut | src/components/InterviewerDashboard.tsx:112-120 | a list already strictly descending is left unchanged |
| Dashboard.ScoreColor | src/components/InterviewerDashboard.tsx:133-138 | green from 80, blue from 60, yellow from 40, red below 40 |
| Dashboard.ScoreColorMonotone | src/components/InterviewerDashboard.tsx:133-138 | a higher score never gets a lower band |
| Dashboard.AnswerScoreColor | src/components/InterviewerDashboard.tsx:256-257 | per-answer scores are scaled by ten: from 8 green, below 4 red |
| Dashboard.StatusColor | src/components/InterviewerDashboard.tsx:122-131 | completed is green, in-progress is blue, pending is the default |
| Dashboard.AnswerTime | src/components/InterviewerDashboard.tsx:264-265 | the time an answer took reads back as its seconds |
| Dashboard.CompletedCount | src/components/InterviewerDashboard.tsx:352 | equals the roster size exactly when all are completed, and zero exactly when none are |
| Dashboard.CompletedCountAppend | src/components/InterviewerDashboard.tsx:352 | the count adds up over a roster split in two |

## Left out

- Regular expressions. The email, phone, name, year and technical-term patterns, the section finders, and the job-title and project-line matchers are not interpreted. What they matched is an input: `Signals` for the detector, `Matches` for the extractor.
- PDF and DOCX text extraction: these call external libraries. The extracted text, or the value the library threw, is an input.
- Calls to the remote language model. The reply, or its absence when the call fails, is an input. The prompts are not modelled.
- Time. `setTimeout`, `setInterval` and `Date.now()` are modelled as explicit events and clock parameters. The fixed delays collapse into the event that follows them: the two seconds before the continuation, the further second before the next question is loaded, and the delays before the welcome message and the prompted flag.
- The chat transcript. The bot and system messages that ChatInterface adds, their ids and the duplicate-id clean-up effect (src/components/ChatInterface.tsx:75-91) are not modelled. Only the welcome message that onboarding adds and the welcome-back greeting (src/components/IntervieweeTab.tsx:37-42) are.
- The catch branches of ChatInterface's question loading, grading and completion. `generateQuestion`, `evaluateAnswer` and `generateFinalSummary` catch every failure themselves and never reject, so those branches cannot run.
- The slice's re-creation of a missing timer, for states persisted before the timer existed (src/store/slices/interviewSlice.ts:91 and 151). The model's timer is always present.
- ChatInterface.CompleteInterview: with no answers the source divides by zero and stores NaN as the score. The model keeps the previous score in that case.
- AiService.FinalScore: computed in exact rational arithmetic rather than with floating point. The two agree except where rounding near a half differs.
- Remounting. The page unmounts the chat screen on the interviewer tab, and its local state is reset on return. The model mounts once.
- The dashboard's sample-data buttons and the chat screen's demo buttons: these are development aids.
- The change-resume handlers (src/components/InterviewerDashboard.tsx:95-104): they ask for confirmation and reload the page. The reset they dispatch is `Store.ResetCurrentSession`.
- Rendering, animation and styling, apart from the text and colours the model states.
- The page-visibility listeners. Visibility is an event of the engine. The browser events behind it are not modelled.
- Dashboard.FilterCandidates: `toLowerCase` is modelled on the ASCII letters only, so a search that relies on Unicode case mapping (`É` against `é`, or the Kelvin sign U+212A against `k`) is not promised to match. The model does no Unicode case mapping at all.
- ResumeParser.ExtractTechnologies: the same ASCII-only lower-casing applies to the keyword search and to `ResumeParser.SectionCount`'s indicator search, so a keyword spelt with non-ASCII capitals is not found by the model.
- ResumeParser.ExtractSkills: the section is captured from the lower-cased text by a regular expression, and that capture is an input, so the model's ASCII-only lower-casing plays no part here; the length bounds count UTF-16 code units, as the source does.
- The Gemini API test utility imported by the page: it is not part of this model.

## Findings

| source | as written | input that shows it | evidently intended | confidence | as-written member | corrected member |
|---|---|---|---|---|---|---|
| src/components/ChatInterface.tsx:436-451 | the time-up effect fires whenever no time is left, a question is shown, the interview is active and nothing is loading; after its own answer is graded, loading ends while the time is still 0 and the question is unchanged, so it fires again | a shown question with one second left, the countdown running and nothing being graded: a tick brings the time to 0 and the effect submits; when that evaluation arrives the effect submits the same question again, and a second evaluation records a second answer to it | one time-up submission per question | not executed | ChatFindings.TimeUpRefiresAsWritten | ChatFindings.CorrectedOneAnswerPerQuestion |
| src/components/ChatInterface.tsx:106-125 | `completeInterview` is captured by the continuation scheduled in `submitAnswer` (lines 303-316) before the last answer is added, so the summary sees only the first five answers | answers scored 9, 8, 7, 6, 8 and then 7: the final score is 76, the mean of the first five, instead of 75 | the final score and summary cover all six answers | not executed | ChatFindings.StaleSummaryAsWritten | ChatFindings.SummaryCoversEveryAnswer |
| src/components/ChatInterface.tsx:197-203, 303-316 | the continuation scheduled in `submitAnswer` calls the `loadNextQuestion` of that render, which consults the `isGeneratingQuestion` captured when the answer was submitted, not the current one | an answer is typed and graded; before its continuation runs, a second answer to the same question is typed and graded; then both continuations run: the first continuation starts a generation, and the second, whose closure still sees the flag lowered, starts another, so two questions are requested at once | at most one question generation in flight | not executed | ChatFindings.DoubleGenerationAsWritten | ChatFindings.CorrectedSingleFlight |
