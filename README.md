# QuizSpin session and question-selection core, in Dafny

QuizSpin is a classroom quiz. A wheel of six categories is spun. The player
picks a difficulty (Receh, Sedang, Sulit) and is shown a multiple-choice
question from that pool. A countdown runs, and the answer is revealed when
time is up. The app keeps a ledger (`usedQuestions`) of the pool indices
already shown, so a question does not come up twice until its pool is
exhausted.

This project models that core:

- `Bank` (bank.dfy): the question bank. It covers the lookup
  `bank[category][0][difficulty]` and the normaliser. The normaliser turns
  spreadsheet rows into a bank (`Normalise`) or passes an already grouped
  object through.
- `Pools` (pools.dfy): index arithmetic over one pool. This is the list of
  unserved indices, `Available`.
- `Session` (session.dfy): the session payload and its signed token, which
  expires after seven days.
- `SessionRoute` (session_route.dfy): the `/api/session` GET, POST and
  DELETE handlers. POST overwrites the fields its body carries and merges the
  ledger by union (`MergeUsedQuestions`, the nested loops of the source).
- `SessionReplace` (session_replace.dfy): `/api/session/replace`. It replaces
  the ledger instead of merging it.
- `QuestionsRoute` (questions_route.dfy): `/api/questions`. It draws an
  unserved index, starts the slot over once every index has been served,
  records the draw and re-signs the session.
- `SharedDefault` (shared_default.dfy): the handlers as written. A request
  without a valid cookie takes `{ ...defaultSession }`, a copy of only the top
  level of the module constant, so its ledger is the one
  `defaultSession.usedQuestions` object of the server process. A cookie-less
  draw writes its pick into that object. A cookie-less POST merges in place
  into every category the object already holds. GET and the replace answer
  with it. Here that ledger is server state that each handler reads and hands
  on (`Served`). The handlers of the three route modules above are the
  intended behaviour, a fresh default per request. They coincide with these
  while the shared ledger is still empty; see "## Findings".
- `QuizSessionHook` (quiz_session_hook.dfy): the server-backed client hook.
  It covers the per-pool time and size tables, timer recovery after a
  reload, hydration, the `quizspin_ui` cache and the hook's actions, as the
  class `QuizSession`.
- `QuizApp` (quiz_app.dfy): the client-only component. It keeps the session
  in localStorage and draws in the browser. It refuses to draw from an
  exhausted pool, and going back un-consumes the current question. The
  component is the class `App`.
- `SpinWheel` (spin_wheel.dfy): which categories the wheel may land on, the
  rotation arithmetic, the spin/settle/pick sequence (class `Wheel`) and the
  difficulty buttons. The wheel and the buttons read a pool size of 0
  differently. The eligibility test treats it as "no data yet" and counts the
  category as available (components/SpinWheel.tsx:125). The buttons treat it
  as "no pool" and disable the button (components/SpinWheel.tsx:339). So the
  wheel can stop on a category whose three buttons are all disabled:
  `EligibleWithEveryButtonDisabled` gives such a case.
- `QuestionModal` (question_modal.dfy): the dialog's phase machine (ready,
  countdown, reveal_answer, answer_shown) and the answer key. It is also the
  class `Modal`.

Two effects are passed in as parameters:

- Math.random() becomes a `rand: real` in [0, 1).
- The clock becomes `nowMs: int`.

The signing key is a parameter, and the HMAC is modelled as an ideal MAC: a
tag checks only under the key and the claims it was made from.

## Model

| member | source | states |
|---|---|---|
| Bank.Lookup | app/api/questions/route.ts:48 | the pool exists exactly when the category, its table 0 and the difficulty all exist, and is that table's list |
| Bank.WaktuOf | app/api/bank/route.ts:89 | a row's seconds are never 0: a parsed non-zero number is kept, zero or NaN fall back to 30 |
| Bank.ToQuestion | app/api/bank/route.ts:81-90 | a row becomes a multiple-choice question with its text, key and WaktuOf seconds |
| Bank.File | app/api/bank/route.ts:78-90 | filing adds the category if missing, appends the question to that one pool (created empty if missing), and leaves every other pool as it was |
| Bank.AddRow | app/api/bank/route.ts:74-91 | a row without category or difficulty changes nothing; a kept row appends its question to its own pool only, and adds only its own category |
| Bank.GroupRows | app/api/bank/route.ts:72-93 | a grouped bank has no empty category or difficulty name, and no empty pool |
| Bank.NormalForm | app/api/bank/route.ts:59-96 | a passed-through object keeps its fields; rows always give a bank; a built bank has no empty pool |
| Bank.FileInPlace | app/api/bank/route.ts:78-90 | the lazy creation of `result[cat]`, `result[cat][0]` and the list, then the push, equals filing the question under (cat, diff) |
| Bank.Normalise | app/api/bank/route.ts:59-96 | the shape check and the row loop compute the normal form of every input shape |
| Bank.NormalFormShapes | app/api/bank/route.ts:61-69 | an object whose first value is an array passes through as it is; other objects and scalars give the empty bank; rows give a grouped bank |
| Bank.GroupRowsCategories | app/api/bank/route.ts:72-80 | the categories of a grouped bank are exactly those of the rows kept (non-empty trimmed category and difficulty) |
| Bank.GroupRowsSingleTable | app/api/bank/route.ts:78-80 | every category of a grouped bank holds exactly one difficulty table |
| Bank.GroupRowsPool | app/api/bank/route.ts:72-93 | each pool holds the questions of its kept rows, in row order |
| Bank.GroupRowsTotal | app/api/bank/route.ts:72-93 | grouping neither drops nor duplicates a question: the bank holds one question per kept row |
| Util.Trim | app/api/bank/route.ts:75-76 | the trimmed text has no whitespace at either end, is empty exactly for all-whitespace text, is unchanged for already-trimmed text and invents no character |
| Util.RandomIndex | app/api/questions/route.ts:67 | `Math.floor(Math.random() * n)` is an index below n |
| Util.JsRem | components/SpinWheel.tsx:147 | JavaScript's `%` lies strictly between -360 and 360 and agrees with the mathematical remainder for non-negative rotations |
| Pools.Available | app/api/questions/route.ts:58-59 | an index is available exactly when it is in the pool and not used |
| Pools.AvailableSorted | app/api/questions/route.ts:58-59 | the available indices are in increasing pool order, hence distinct |
| Pools.AvailableEmptyIff | app/api/questions/route.ts:62 | nothing is available exactly when every pool index has been used |
| Pools.AvailableAfterUse | app/api/questions/route.ts:70-74 | recording one unused pool index leaves exactly one fewer available |
| Session.SignSession | lib/session.ts:47-53 | the token carries the payload, is issued now and expires MAX_AGE (604800) seconds later, and is tagged under the key |
| Session.VerifySession | lib/session.ts:57-65 | a payload comes back exactly when the tag checks under the key and the token has not expired, and it is the signed payload; what this means for signed tokens is proved in RoundTrip, ExpiryBoundary, ExpiredRejected and TamperRejected |
| Session.RoundTrip | lib/session.ts:47-65 | verifying a token with the key that signed it, before it expires, returns the payload |
| Session.ExpiryBoundary | lib/session.ts:10 | a token is accepted one second before seven days have passed and rejected at seven days |
| Session.ExpiredRejected | lib/session.ts:57-65 | at or after `exp` no token verifies |
| Session.TamperRejected | lib/session.ts:57-65 | altered claims, or a token signed with another key, do not verify |
| SessionRoute.ReadSession | app/api/session/route.ts:13-28 | no cookie gives the default session; a cookie gives its verified payload, or the default when verification fails |
| SessionRoute.Overwrite | app/api/session/route.ts:44-51 | the spread keeps the stored ledger; the field-by-field effect is proved in OverwriteFields |
| SessionRoute.OverwriteFields | app/api/session/route.ts:44-51 | every field the body carries takes the body's value; every field it leaves out keeps the stored one |
| SessionRoute.Dedup | app/api/session/route.ts:87-89 | the Set keeps each element once, no element is lost or invented, and the list does not grow |
| SessionRoute.Union | app/api/session/route.ts:87-89 | the union holds every index of either list, each once, and is no longer than both lists together |
| SessionRoute.UnionOrder | app/api/session/route.ts:87-89 | a union lists the existing indices (first occurrences) first, then the new incoming ones in arrival order |
| SessionRoute.UnionIdempotent | app/api/session/route.ts:87-89 | uniting the same incoming list twice equals uniting it once |
| SessionRoute.MergeUsedQuestions | app/api/session/route.ts:79-93 | the nested loops compute MergedUsed: the slot-by-slot union |
| SessionRoute.MergedUsed | app/api/session/route.ts:79-93 | the merged ledger has exactly the categories of either ledger, and a category the body does not name keeps its stored table |
| SessionRoute.MergeSlots | app/api/session/route.ts:79-93 | a slot the body names becomes the union; every other slot and category keeps its stored list |
| SessionRoute.MergeGrows | app/api/session/route.ts:79-93 | no index stored before a POST is missing after it |
| SessionRoute.ConcurrentMarksSurvive | app/api/session/route.ts:79-93 | two POSTs one after the other keep every index of the store and of both bodies |
| SessionRoute.MergeIdempotent | app/api/session/route.ts:79-93 | replaying the same POST body changes nothing further |
| SessionRoute.MergeNothing | app/api/session/route.ts:79-93 | merging an empty ledger leaves the stored one as it was |
| SessionRoute.MergeExample | app/api/session/route.ts:79-93 | IPA/Sulit holding [0, 1] merged with [1, 2] holds [0, 1, 2] |
| SessionRoute.Get | app/api/session/route.ts:13-29 | GET answers with the session the cookie carries, and deletes the cookie exactly when a token was present but did not verify |
| SessionRoute.Post | app/api/session/route.ts:33-67 | POST answers with the merged session and sets a cookie signing exactly that session |
| SessionRoute.PostWith | app/api/session/route.ts:43-66 | the body's fields overwrite the read session's; the merged ledger has exactly the categories of either ledger; the cookie signs the answered session |
| SessionRoute.Delete | app/api/session/route.ts:71-75 | DELETE removes the cookie |
| SessionRoute.PostMerges | app/api/session/route.ts:37-51 | the stored session is the carried one with the body's fields overwritten and the ledger merged |
| SessionRoute.PostThenGet | app/api/session/route.ts:13-67 | a GET while the cookie set by a POST is fresh returns what the POST stored |
| SessionRoute.DeleteThenGet | app/api/session/route.ts:13-29 | after DELETE a GET sees the default session |
| SessionRoute.InvalidTokenResets | app/api/session/route.ts:20-26 | a token that fails verification reads as the default session, and GET deletes it |
| SessionReplace.Replace | app/api/session/replace/route.ts:17-46 | the body's fields overwrite the stored ones; the ledger is the body's when it carries one, else the stored one; the cookie signs that session |
| SessionReplace.ReplaceWith | app/api/session/replace/route.ts:27-46 | for any read session: the body's fields overwrite it, the ledger is the body's if present and the read one otherwise, and the cookie signs the result |
| SessionReplace.ReplaceAgreesWithoutLedger | app/api/session/replace/route.ts:28-33 | without a ledger in the body, replace and the merging POST store the same session |
| SessionReplace.ReplaceThenGet | app/api/session/replace/route.ts:17-46 | a GET while the replaced cookie is fresh returns what was stored |
| SessionReplace.ReplaceRetracts | app/api/session/replace/route.ts:11-16 | replacing [0, 1, 2] with [0, 1] removes index 2, which the merging POST could not |
| SharedDefault.Fallback | lib/session.ts:35-43 | the module-level default session with the shared ledger: the default fields, holding exactly that ledger |
| SharedDefault.ReadShared | app/api/questions/route.ts:52-55 | only the ledger can differ from the fresh-default reading; a request falling back to the default holds the shared ledger; a valid cookie, or an empty shared ledger, reads as intended |
| SharedDefault.DrawShared | app/api/questions/route.ts:52-74 | the draw over the read session; with a valid cookie it is the intended draw and leaves the shared ledger alone; a cookie-less draw leaves the shared ledger equal to the ledger it signs |
| SharedDefault.GetShared | app/api/session/route.ts:13-29 | GET answers the read session with the intended cookie action and writes nothing; it is the intended GET for a valid cookie or an empty shared ledger |
| SharedDefault.PostShared | app/api/session/route.ts:79-93 | a cookie-less POST keeps the shared ledger's categories and gives each its merged table; an empty shared ledger stays empty and the answer is the intended POST |
| SharedDefault.ReplaceShared | app/api/session/replace/route.ts:21-33 | the replace over the read session writes nothing into the shared ledger; with a valid cookie or an empty shared ledger it is the intended replace |
| SharedDefault.SecondCookielessDrawExcludesFirst | app/api/questions/route.ts:53-74 | in one process the second cookie-less draw from a pool of two or more never repeats the first, the shared slot holds both indices in order and two fewer are left, while the intended draw leaves all but one |
| SharedDefault.CookielessPostPollutes | app/api/session/route.ts:79-93 | a cookie-less POST unions its indices into the shared ledger's slots of every category that ledger holds |
| SharedDefault.DeleteThenGetShared | app/api/session/route.ts:13-18 | after DELETE a GET answers the default session holding the shared ledger |
| SharedDefault.InvalidTokenShared | app/api/session/route.ts:20-26 | a token that fails verification reads as the default session holding the shared ledger, and GET deletes it |
| QuestionsRoute.Select | app/api/questions/route.ts:57-74 | the pick is a pool index; with indices left it is an unused one appended to the slot; with none left the slot starts over as just the pick |
| QuestionsRoute.Recorded | app/api/questions/route.ts:70-81 | the drawn slot holds the new list, every other slot is unchanged, and the session shows the question with the timer not started and its duration set to the question's seconds |
| QuestionsRoute.SelectIndex | app/api/questions/route.ts:57-74 | the loops that build `allIndices` and `available`, the reset and the pick compute Select |
| QuestionsRoute.RemainingIsUnserved | app/api/questions/route.ts:87 | `remaining` is the number of pool indices the new slot leaves unserved |
| QuestionsRoute.UnservedCount | app/api/questions/route.ts:87 | for a slot of distinct pool indices, the unserved count is the pool size minus the slot length |
| QuestionsRoute.EveryUnservedReachable | app/api/questions/route.ts:67-68 | every unserved index is picked by some value of Math.random() |
| QuestionsRoute.Draw | app/api/questions/route.ts:36-95 | 400 exactly when a parameter is missing or empty, 500 exactly when the bank is unavailable, 404 exactly when the pool is missing or empty; otherwise the drawn question is the pool's entry at the index, and the token signs the session returned |
| QuestionsRoute.DrawWith | app/api/questions/route.ts:36-95 | the same answers as Draw, for any session the request was read as; the handler's logic after reading the session |
| QuestionsRoute.GetQuestion | app/api/questions/route.ts:36-95 | the handler, step by step, answers as Draw |
| QuestionsRoute.DrawRecords | app/api/questions/route.ts:57-94 | whatever session the request carried (its cookie's, a fresh default, or the shared default of SharedDefault): the drawn index was unserved and is appended, or starts the slot over when the pool was exhausted; `remaining` counts what is unserved; the timer duration is the question's seconds; every other slot is untouched |
| QuestionsRoute.DrawFromClean | app/api/questions/route.ts:57-74 | a draw from a clean slot with indices left keeps it clean, grows it by one and leaves one fewer unserved |
| QuestionsRoute.CookielessDrawStartsFresh | app/api/questions/route.ts:52-74 | with a fresh default, a request without a cookie always draws, records only its own index and leaves all but one index of the pool unserved |
| QuestionsRoute.CycleOfThree | app/api/questions/route.ts:57-74 | three draws from a pool of three serve every index once, and the fourth starts the cycle over |
| QuizSessionHook.BuildTable | hooks/useQuizSession.ts:68-92 | the nested loops fill a cell for every pool of every category with a table |
| QuizSessionHook.PoolSizes | hooks/useQuizSession.ts:81-92 | a cell exists exactly for every pool the bank offers and holds its size |
| QuizSessionHook.AllTimes | hooks/useQuizSession.ts:68-79 | a cell exists exactly for every pool and holds its first question's seconds, or 0 for an empty pool |
| QuizSessionHook.PoolSizesOfRows | hooks/useQuizSession.ts:81-92 | for a bank built from rows, a pool size counts that pool's kept rows |
| QuizSessionHook.RecoveredTimeLeft | hooks/useQuizSession.ts:139-143 | a time is recovered exactly when both timer fields are truthy; it is never negative, 0 exactly when the duration has elapsed, and otherwise duration minus elapsed seconds |
| QuizSessionHook.RecoveredAtMostDuration | hooks/useQuizSession.ts:139-143 | once the timer has started, the recovered time never exceeds the duration |
| QuizSessionHook.RecoveredWindow | hooks/useQuizSession.ts:139-143 | a positive result r is read within the second that leaves r seconds |
| QuizSessionHook.RecoveredMonotone | hooks/useQuizSession.ts:139-143 | reading later never recovers more time |
| QuizSessionHook.RecoveredExamples | hooks/useQuizSession.ts:139-143 | a 30 s timer read after 10 s has 20 left; after 31 s it has 0; without a start time nothing is recovered |
| QuizSessionHook.SaveLocalCache | hooks/useQuizSession.ts:94-99 | the saved keys override, the other stored keys are kept, and no key is invented |
| QuizSessionHook.SaveThenRead | hooks/useQuizSession.ts:94-104 | reading a saved key returns what was saved; other keys read as before |
| QuizSessionHook.QuestionAt | hooks/useQuizSession.ts:144-156 | a question is found exactly when the pool exists and the index is within it |
| QuizSessionHook.Hydrated | hooks/useQuizSession.ts:123-172 | hydration ends; failure changes nothing else; success installs the ledger and both tables, and resumes a question exactly when the session points at one |
| QuizSessionHook.HydrateResumes | hooks/useQuizSession.ts:136-156 | resuming restores the selection, the recovered timer and the cached counters; a stale index or pool gives no question rather than failing |
| QuizSessionHook.HydrateAfterDraw | hooks/useQuizSession.ts:123-172 | a session fresh from the server draw resumes the question drawn, with no timer to recover |
| QuizSessionHook.TimerStartStored | hooks/useQuizSession.ts:199-205 | recording the timer start sets the two timer fields and changes nothing else of the stored session |
| QuizSessionHook.TimerStartRecovered | hooks/useQuizSession.ts:199-205 | a reload after the timer start recovers the time left on it |
| QuizSessionHook.FinishStored | hooks/useQuizSession.ts:208-227 | finishing stores the wheel with nothing selected and keeps every used index |
| QuizSessionHook.FinishAndResetDiffer | hooks/useQuizSession.ts:208-244 | finish and full reset both return to the wheel with nothing selected, and differ only in the ledger |
| QuizSessionHook.AfterSelect | hooks/useQuizSession.ts:175-196 | the question screen with the drawn question, its counters and no timer to recover; the local ledger and both tables are not touched |
| QuizSessionHook.AfterFinish | hooks/useQuizSession.ts:208-227 | the wheel with nothing selected and no counters, holding the ledger the server answered with |
| QuizSessionHook.AfterFullReset | hooks/useQuizSession.ts:230-244 | the wheel with nothing selected and no counters, holding an empty ledger |
| QuizSessionHook.QuizSession.constructor | hooks/useQuizSession.ts:107-119 | the hook starts hydrating, on the wheel, with nothing selected |
| QuizSessionHook.QuizSession.Hydrate | hooks/useQuizSession.ts:123-172 | the mount effect's new state is Hydrated, and the cache is unchanged |
| QuizSessionHook.QuizSession.SelectQuestion | hooks/useQuizSession.ts:175-196 | only a drawn question changes the state and caches its counters; an error response changes nothing |
| QuizSessionHook.QuizSession.Finish | hooks/useQuizSession.ts:208-227 | the state returns to the wheel with the server's ledger, and the cached counters are cleared |
| QuizSessionHook.QuizSession.FullReset | hooks/useQuizSession.ts:230-244 | the cookie is deleted, the cache emptied and the ledger cleared |
| QuizApp.DifficultyTimes | components/QuizApp.tsx:138-150 | empty before the bank loads, then AllTimes, whose contract gives each pool's first-question seconds through Lookup |
| QuizApp.LoadedPoolSizes | components/QuizApp.tsx:152-164 | empty before the bank loads, then PoolSizes, whose contract gives each pool's size through Lookup |
| QuizApp.CurrentQuestion | components/QuizApp.tsx:166-172 | a question exactly when the bank has loaded, a slot is selected and its index lies within the pool; ClientSelectDraws shows it is the drawn question after a draw |
| QuizApp.Remaining | components/QuizApp.tsx:180-185 | defined exactly when a slot is selected; remaining plus the slot's used count is the pool size |
| QuizApp.TotalInPool | components/QuizApp.tsx:187-190 | defined exactly when a slot is selected, and is its pool size; with sizes from the bank, RemainingAfterSelect and ButtonMatchesDraw relate it to the unserved count |
| QuizApp.TotalUsed | components/QuizApp.tsx:174-178 | the loop counts every entry of every used list |
| QuizApp.TotalUsedAfterSlot | components/QuizApp.tsx:174-178 | replacing one slot's list changes the total by the difference in length |
| QuizApp.ClientSelect | components/QuizApp.tsx:193-233 | no draw exactly when the bank has not loaded or the slot has nothing left |
| QuizApp.ClientSelectDraws | components/QuizApp.tsx:193-233 | the pick is an unused pool index appended to its slot; other slots are untouched; the session shows that question with no timer |
| QuizApp.ExhaustionDiffers | components/QuizApp.tsx:202-205 | on an exhausted pool the client refuses, while the server starts the slot over |
| QuizApp.FinishSession | components/QuizApp.tsx:247-261 | finishing returns to the default session but keeps the ledger |
| QuizApp.GoBackSession | components/QuizApp.tsx:264-294 | going back finishes; with a current question its slot becomes the filtered list and every other slot is unchanged; without one the ledger is unchanged |
| QuizApp.TimerStarted | components/QuizApp.tsx:236-244 | both timer fields record the start and the duration, and nothing else of the session changes |
| QuizApp.Without | components/QuizApp.tsx:271 | every occurrence of the index is removed: the multiset of the result is the input's with that index's count set to 0, and nothing else is lost or invented |
| QuizApp.WithoutConcat | components/QuizApp.tsx:271 | the filter keeps order: filtering a concatenation is the concatenation of the filtered parts |
| QuizApp.GoBackRetracts | components/QuizApp.tsx:264-294 | going back from a question served once takes exactly that entry out of its slot, keeping the entries before and after it in order |
| QuizApp.GoBackWithoutQuestion | components/QuizApp.tsx:265-268 | with no current question, going back is finishing |
| QuizApp.GoBackUndoesSelect | components/QuizApp.tsx:193-294 | going back right after a draw restores every slot to its list before the draw |
| QuizApp.TotalUsedCounts | components/QuizApp.tsx:174-294 | a draw adds one to `totalUsed`, and going back subtracts the number of times the current index occurs in its slot |
| QuizApp.RemainingAfterSelect | components/QuizApp.tsx:180-233 | after a draw from a clean slot, `remaining` counts the unserved indices |
| QuizApp.App.constructor | components/QuizApp.tsx:71-83 | the component starts loading, with the default session and no recovered timer |
| QuizApp.App.Restore | components/QuizApp.tsx:87-134 | without a bank it shows the wheel; otherwise it installs the bank and the saved session, and recovers a running timer only for a saved question with both timer fields set |
| QuizApp.App.SelectQuestion | components/QuizApp.tsx:193-233 | a refused draw changes nothing; a draw installs and saves the new session and shows the question |
| QuizApp.App.RecordTimerStart | components/QuizApp.tsx:236-244 | the timer fields are set and saved, and nothing else changes |
| QuizApp.App.Finish | components/QuizApp.tsx:247-261 | the finished session is installed and saved, and the wheel is shown |
| QuizApp.App.GoBack | components/QuizApp.tsx:264-294 | the gone-back session is installed and saved, and the wheel is shown |
| QuizApp.App.FullReset | components/QuizApp.tsx:297-312 | the saved session is removed, the default is installed, and the dialog is closed |
| SpinWheel.EligibleUpTo | components/SpinWheel.tsx:134-136 | an index is listed exactly when its category has questions |
| SpinWheel.SpinPool | components/SpinWheel.tsx:134-138 | never empty and always within the six segments; when some category is eligible it is exactly the eligible ones |
| SpinWheel.Winner | components/SpinWheel.tsx:143-144 | the winner is a real segment, and an eligible one whenever any is eligible |
| SpinWheel.EverySegmentReachable | components/SpinWheel.tsx:143-144 | every segment of the pool is the winner for some value of Math.random() |
| SpinWheel.AllEligibleBeforeLoad | components/SpinWheel.tsx:119-127 | before the sizes are known every category is eligible |
| SpinWheel.ExtraTurns | components/SpinWheel.tsx:145 | a spin adds 5 to 8 whole turns |
| SpinWheel.NextRotation | components/SpinWheel.tsx:146-147 | with at least one extra turn the wheel turns forward; from a non-negative rotation with whole extra turns it stops at the target angle modulo 360 |
| SpinWheel.SpinLands | components/SpinWheel.tsx:143-149 | the wheel always turns forward, and stops with the winner's segment centre under the pointer |
| SpinWheel.Wheel.constructor | components/SpinWheel.tsx:112-115 | the wheel starts at rotation 0, still, with nothing selected |
| SpinWheel.Wheel.Spin | components/SpinWheel.tsx:130-149 | a spin while spinning is ignored; otherwise it clears the selection, turns to the winner's rotation and keeps the winner pending |
| SpinWheel.Wheel.Settle | components/SpinWheel.tsx:153-157 | the timeout stops the wheel and shows the pending winner |
| SpinWheel.Wheel.PickDiff | components/SpinWheel.tsx:161-164 | with a segment selected, its category is passed on with the difficulty; otherwise nothing is |
| SpinWheel.DifficultyButton | components/SpinWheel.tsx:336-340 | a button is disabled exactly when its pool is used up, or when the sizes are known and it has no pool |
| SpinWheel.ButtonLabels | components/SpinWheel.tsx:378 | a missing pool reads "Tidak ada soal", a used-up one "Semua terpakai", and before the sizes are known every button is enabled |
| SpinWheel.ButtonMatchesDraw | components/SpinWheel.tsx:336-340 | for sizes built from the bank, a button is enabled exactly when the client draw can still pick from that pool |
| SpinWheel.EnabledMeansEligible | components/SpinWheel.tsx:119-127 | a category with an enabled button is eligible for the wheel |
| SpinWheel.EligibleWithEveryButtonDisabled | components/SpinWheel.tsx:119-127 | the converse fails: a category can be eligible while all three of its buttons are disabled |
| QuestionModal.InitialView | components/QuestionModal.tsx:42-68 | without a recovered time the dialog is ready with the full time; with one it is revealing at 0, or counting down from it |
| QuestionModal.Step | components/QuestionModal.tsx:70-91 | the answer is shown only after the reveal; a choice changes only during the countdown; the reveal comes only from a countdown tick, with no time left |
| QuestionModal.InitialViewSound | components/QuestionModal.tsx:42-68 | the dialog opens with no time left whenever it reveals, and the mount effect keeps the opening state |
| QuestionModal.StepKeepsTimeUp | components/QuestionModal.tsx:70-91 | every event keeps "no time is left once revealed" |
| QuestionModal.RunKeepsTimeUp | components/QuestionModal.tsx:42-91 | whatever happens after the dialog opens, the answer is never shown while time is left |
| QuestionModal.CountdownRuns | components/QuestionModal.tsx:74-80 | a countdown from t shows t - k after k < t ticks and reveals at 0 after t ticks |
| QuestionModal.UrgentAtTheEnd | components/QuestionModal.tsx:98 | a countdown looks urgent exactly over its last five ticks |
| QuestionModal.BeforeDot | components/QuestionModal.tsx:56 | the prefix before the first dot: a prefix without a dot, followed by a dot or the end |
| QuestionModal.CorrectLetter | components/QuestionModal.tsx:56 | the key's letter holds no dot and has no whitespace at either end |
| QuestionModal.LabelIndex | components/QuestionModal.tsx:57 | the position of a label, or -1 exactly when the letter is not a label |
| QuestionModal.CorrectIndex | components/QuestionModal.tsx:57 | the marked choice is the one whose label is the key's letter, and -1 exactly when the letter is no label |
| QuestionModal.KeyStartingWithLabel | components/QuestionModal.tsx:56-57 | a key that is a label alone, or a label followed by a dot and any text, marks that label's choice |
| QuestionModal.LowerCaseKey | components/QuestionModal.tsx:56-57 | a lower-case key letter marks no choice |
| QuestionModal.MarkedOnlyWhenTimeUp | components/QuestionModal.tsx:151 | only the key's choice is ever marked, only once the answer is shown with no time left, and no choice when the key has no label |
| QuestionModal.Modal.constructor | components/QuestionModal.tsx:42-51 | the dialog opens in InitialView for the question's seconds |
| QuestionModal.Modal.StartTimer | components/QuestionModal.tsx:85-89 | Start hands the question's seconds on, from the ready phase only, and starts the countdown |
| QuestionModal.Modal.Tick | components/QuestionModal.tsx:74-80 | one interval tick is the Tick step |
| QuestionModal.Modal.ShowAnswer | components/QuestionModal.tsx:91 | the reveal button is the ShowAnswer step |
| QuestionModal.Modal.ChooseAnswer | components/QuestionModal.tsx:154-155 | clicking a choice is the ChooseAnswer step |

## Left out

- The HS256 signature of the `jose` library is modelled as an ideal MAC, so a forged tag never checks. The cookie's attributes (httpOnly, sameSite, path, maxAge) are not modelled.
- The verified payload also carries the `iat` and `exp` claims, which the source returns along with the session fields. The model returns only the session fields.
- Fetching the bank (the Apps Script service, `BANK_URL` and the `/bank_soal.json` fallback) is I/O. Its outcome is a parameter: a bank, or None for failure. The 502 answer of the bank route is not modelled.
- JavaScript's `Number()` parsing of `waktu` is modelled as its result, `Option<int>`, where None is NaN. A fractional `waktu` is not modelled.
- A `jawaban` that is not a string would make `.split` throw. Only string keys are modelled.
- A `kategori` or `tingkat` that is not a string would make `.trim()` throw, and so would a null row. Only rows whose fields are strings or missing are modelled.
- POST spreads the whole request body into the stored session, so keys other than the seven session fields are signed and returned by GET. The model's body carries only the session fields.
- A difficulty is kept as the string it arrived as, so the `Difficulty` union type is not enforced.
- A saved client session in the `'loading'` state is not modelled, because the model's session state is only wheel or question.
- localStorage and sessionStorage failures are not modelled, nor JSON parse errors. A failed hydration is modelled as the `None` outcome of the two fetches.
- The hook's `recordTimerStart` is modelled only by its request body and what the server stores (`TimerStartStored`), because it changes no hook state.
- Timers: the dialog's 1-second interval and the wheel's 4.2-second timeout are modelled as explicit `Tick` and `Settle` calls, so scheduling and races between timers are not modelled.
- Sound, the SVG geometry, the colours and the timer ring use floating point, and the star field uses its own random generator. None of them is modelled. The answer texts are shown but not modelled.
- `mergeUsedQuestions` copies the stored ledger only at the top level, so the stored and merged ledgers share their inner tables. With a valid cookie the stored ledger is dropped after the request, so this has no effect. The cookie-less case, where the stored ledger is the shared default one, is `SharedDefault.PostShared`.
- ReadSession: reads the fresh default the route intends. The shared ledger that a fallback request reads as written is `SharedDefault.ReadShared` (see "## Findings").
- Get: answers a fresh empty ledger without a valid cookie. As written it answers the shared ledger: `SharedDefault.GetShared`.
- DeleteThenGet: states the fresh default. As written, the GET after DELETE answers the shared ledger: `SharedDefault.DeleteThenGetShared`.
- InvalidTokenResets: states the fresh default. As written the ledger is the shared one: `SharedDefault.InvalidTokenShared`.
- Post: starts a cookie-less POST from a fresh default. As written it starts from the shared ledger and merges into it: `SharedDefault.PostShared`.
- Replace: starts a cookie-less replace from a fresh default. As written it starts from the shared ledger: `SharedDefault.ReplaceShared`.
- Draw: starts a cookie-less draw from an empty ledger. As written it starts from the shared ledger and writes its pick into it: `SharedDefault.DrawShared`.
- GetQuestion: answers as Draw, so it also starts from the fresh default.
- File, AddRow, GroupRows, Draw, MergedUsed, MergeUsedQuestions: the source's tables are plain JavaScript objects, where a name such as `constructor` or `__proto__` finds a property of `Object.prototype` rather than a missing key. For example, a row with such a category is filed outside the returned bank; a `difficulty=constructor` query fails with 500 instead of 404; a POSTed ledger keyed `__proto__` writes into `Object.prototype` for the whole process. The model's maps treat every name as an ordinary key, so category and difficulty names are assumed not to be `Object.prototype` property names.
- `ResumeToast`, `ClientRoot` and the page layout are presentation, and are not part of this model.
- EnabledMeansEligible: requires the pool size to be non-negative, as every size built from a bank is. A hand-written negative size would break the lemma.

## Findings

| source | as written | input that shows it | evidently intended | confidence | as-written member | corrected member |
|---|---|---|---|---|---|---|
| app/api/questions/route.ts:53-55 | `{ ...defaultSession }` copies only the top level, so every request without a valid cookie shares the module-level `defaultSession.usedQuestions`. A cookie-less draw writes its pick into it (lines 64, 70-74), and a cookie-less POST merges into it (app/api/session/route.ts:83-89) | the IPA/Sulit pool has two questions, and two GET /api/questions without a cookie reach one server process: the second must pick the other index and answers remaining 0 | every request without a valid cookie starts from a fresh, empty ledger ("return clean defaults", app/api/session/route.ts:22), so the second answers remaining 1 | high; not executed | SharedDefault.SecondCookielessDrawExcludesFirst | QuestionsRoute.CookielessDrawStartsFresh |
