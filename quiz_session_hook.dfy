/** The client side of the server-backed quiz (hooks/useQuizSession.ts): the
    per-pool time and size tables, the timer recovery after a reload, the
    hydration branch, the small `quizspin_ui` cache, and the hook state that
    selectQuestion, finish and fullReset replace. */
module QuizSessionHook {
  import opened Util
  import opened Bank
  import opened Session
  import opened SessionRoute
  import opened QuestionsRoute

  // ---------------------------------------------------------------------------
  // buildAllTimes and buildPoolSizes
  // ---------------------------------------------------------------------------

  /** `table[category][difficulty]` */
  type Table = map<string, map<string, int>>

  /** What a table records per pool: the first question's seconds (0 for an
      empty pool) or the number of questions. */
  datatype Measure = FirstTime | PoolSize

  function Cell(measure: Measure, questions: seq<Question>): int {
    match measure
    case FirstTime => if |questions| == 0 then 0 else questions[0].waktu
    case PoolSize => |questions|
  }

  /** One category's row after the difficulties in `done` are filled in. */
  function RowOn(measure: Measure, pools: Bank.Pools, done: set<string>): map<string, int>
    requires done <= pools.Keys
  {
    map d | d in done :: Cell(measure, pools[d])
  }

  /** The table after the categories in `done` are filled in; a category whose
      `arr[0]` is missing is skipped. */
  function TableOn(measure: Measure, bank: QuestionBank, done: set<string>): Table
    requires done <= bank.Keys
  {
    map c | c in done && |bank[c]| > 0 :: RowOn(measure, bank[c][0], bank[c][0].Keys)
  }

  /** The whole table for one measure, built with the nested loops of the source. */
  method BuildTable(bank: QuestionBank, measure: Measure) returns (result: Table)
    ensures result == TableOn(measure, bank, bank.Keys)
  {
    result := map[];
    var todo := bank.Keys;
    while todo != {}
      invariant todo <= bank.Keys
      invariant result == TableOn(measure, bank, bank.Keys - todo)
      decreases todo
    {
      var cat :| cat in todo;
      ghost var done := bank.Keys - todo;
      assert bank.Keys - (todo - {cat}) == done + {cat};
      todo := todo - {cat};
      var arr := bank[cat];
      if |arr| == 0 {
        assert TableOn(measure, bank, done + {cat}) == TableOn(measure, bank, done);
        continue;
      }
      var catData := arr[0];
      var row: map<string, int> := map[];
      var rest := catData.Keys;
      while rest != {}
        invariant rest <= catData.Keys
        invariant row == RowOn(measure, catData, catData.Keys - rest)
        decreases rest
      {
        var diff :| diff in rest;
        assert catData.Keys - (rest - {diff}) == (catData.Keys - rest) + {diff};
        row := row[diff := Cell(measure, catData[diff])];
        rest := rest - {diff};
      }
      assert catData.Keys - rest == catData.Keys;
      TableStep(measure, bank, done, cat);
      result := result[cat := row];
    }
    assert bank.Keys - todo == bank.Keys;
  }

  /** The outer loop's step: one more category with a table filled in. */
  lemma TableStep(measure: Measure, bank: QuestionBank, done: set<string>, c: string)
    requires done <= bank.Keys && c in bank && c !in done && |bank[c]| > 0
    ensures TableOn(measure, bank, done)[c := RowOn(measure, bank[c][0], bank[c][0].Keys)]
              == TableOn(measure, bank, done + {c})
  {
  }

  /** `buildPoolSizes`: a cell exactly for every pool the bank offers, holding
      its number of questions; a row exactly for every category with a table. */
  function PoolSizes(bank: QuestionBank): (t: Table)
    ensures forall c :: c in t <==> c in bank && |bank[c]| > 0
    ensures forall c, d :: c in t && d in t[c] <==> Lookup(bank, c, d).Some?
    ensures forall c, d :: Lookup(bank, c, d).Some? ==> t[c][d] == |Lookup(bank, c, d).value|
  {
    TableOn(PoolSize, bank, bank.Keys)
  }

  /** `buildAllTimes`: the same cells, holding the first question's seconds, or 0 for an empty pool. */
  function AllTimes(bank: QuestionBank): (t: Table)
    ensures forall c :: c in t <==> c in bank && |bank[c]| > 0
    ensures forall c, d :: c in t && d in t[c] <==> Lookup(bank, c, d).Some?
    ensures forall c, d :: Lookup(bank, c, d).Some? && Lookup(bank, c, d).value != [] ==>
              t[c][d] == Lookup(bank, c, d).value[0].waktu
    ensures forall c, d :: Lookup(bank, c, d) == Some([]) ==> t[c][d] == 0
  {
    TableOn(FirstTime, bank, bank.Keys)
  }

  /** For a bank grouped from sheet rows, every pool size counts the kept rows
      filed under that pool. */
  lemma PoolSizesOfRows(rows: seq<Row>, c: string, d: string)
    requires KeptPool(rows, c, d) != []
    ensures var t := PoolSizes(GroupRows(rows));
            c in t && d in t[c] && t[c][d] == |KeptPool(rows, c, d)|
  {
    GroupRowsPool(rows, c, d);
  }

  // ---------------------------------------------------------------------------
  // Timer recovery
  // ---------------------------------------------------------------------------

  /** A number that JavaScript treats as true: present and not zero. */
  predicate Truthy(x: Option<int>) {
    x.Some? && x.value != 0
  }

  /** Whole seconds since `startedAt`: Math.floor((now - startedAt) / 1000). */
  function Elapsed(startedAt: int, nowMs: int): int {
    (nowMs - startedAt) / 1000
  }

  /** The seconds left on a timer after a reload: computed only when both timer
      fields are set, never negative, zero exactly when the duration has elapsed. */
  function RecoveredTimeLeft(startedAt: Option<int>, duration: Option<int>, nowMs: int): (r: Option<int>)
    ensures r.Some? <==> Truthy(startedAt) && Truthy(duration)
    ensures r.Some? ==> r.value >= 0
    ensures r.Some? ==> (r.value == 0 <==> Elapsed(startedAt.value, nowMs) >= duration.value)
    ensures r.Some? && r.value > 0 ==> r.value + Elapsed(startedAt.value, nowMs) == duration.value
  {
    if Truthy(startedAt) && Truthy(duration) then
      var left := duration.value - Elapsed(startedAt.value, nowMs);
      Some(if left < 0 then 0 else left)
    else None
  }

  /** The recovered seconds never exceed the duration once the timer has started. */
  lemma RecoveredAtMostDuration(startedAt: int, duration: int, nowMs: int)
    requires startedAt != 0 && duration > 0 && nowMs >= startedAt
    ensures 0 <= RecoveredTimeLeft(Some(startedAt), Some(duration), nowMs).value <= duration
  {
  }

  /** A positive result `r` is read while the clock is in the second that leaves
      `r` seconds: between `duration - r` and `duration - r + 1` seconds after the start. */
  lemma RecoveredWindow(startedAt: int, duration: int, nowMs: int)
    requires Truthy(Some(startedAt)) && Truthy(Some(duration))
    requires RecoveredTimeLeft(Some(startedAt), Some(duration), nowMs).value > 0
    ensures var r := RecoveredTimeLeft(Some(startedAt), Some(duration), nowMs).value;
            startedAt + (duration - r) * 1000 <= nowMs < startedAt + (duration - r + 1) * 1000
  {
  }

  /** Reading later never recovers more time. */
  lemma RecoveredMonotone(startedAt: int, duration: int, early: int, late: int)
    requires startedAt != 0 && duration != 0 && early <= late
    ensures RecoveredTimeLeft(Some(startedAt), Some(duration), late).value
         <= RecoveredTimeLeft(Some(startedAt), Some(duration), early).value
  {
    assert Elapsed(startedAt, early) <= Elapsed(startedAt, late) by {
      DivMonotone(early - startedAt, late - startedAt);
    }
  }

  lemma DivMonotone(a: int, b: int)
    requires a <= b
    ensures a / 1000 <= b / 1000
  {
    assert a == (a / 1000) * 1000 + a % 1000;
    assert b == (b / 1000) * 1000 + b % 1000;
  }

  /** A 30-second timer read 10 s after it started has 20 s left; read 31 s
      after, it has run out; a timer with no start time recovers nothing. */
  lemma RecoveredExamples()
    ensures RecoveredTimeLeft(Some(1000), Some(30), 11000) == Some(20)
    ensures RecoveredTimeLeft(Some(1000), Some(30), 32000) == Some(0)
    ensures RecoveredTimeLeft(None, Some(30), 32000) == None
    ensures RecoveredTimeLeft(Some(0), Some(30), 32000) == None
  {
  }

  // ---------------------------------------------------------------------------
  // The `quizspin_ui` cache
  // ---------------------------------------------------------------------------

  /** The JSON object kept under `quizspin_ui`: its keys and their number-or-null values. */
  type UiCache = map<string, Option<int>>

  /** `saveLocalCache`: `{ ...existing, ...partial }`. */
  function SaveLocalCache(existing: UiCache, partial: UiCache): (r: UiCache)
    ensures forall k :: k in r <==> k in existing || k in partial
    ensures forall k :: k in partial ==> r[k] == partial[k]
    ensures forall k :: k in existing && k !in partial ==> r[k] == existing[k]
  {
    existing + partial
  }

  /** `local[key] ?? null` */
  function Cached(cache: UiCache, key: string): Option<int> {
    if key in cache then cache[key] else None
  }

  /** Saving then reading returns what was saved, and leaves the other keys readable as before. */
  lemma SaveThenRead(existing: UiCache, partial: UiCache, key: string)
    ensures key in partial ==> Cached(SaveLocalCache(existing, partial), key) == partial[key]
    ensures key !in partial ==> Cached(SaveLocalCache(existing, partial), key) == Cached(existing, key)
  {
  }

  // ---------------------------------------------------------------------------
  // Hook state and hydration
  // ---------------------------------------------------------------------------

  datatype HookState = HookState(
    appState: AppState,
    selectedCategory: Option<string>,
    selectedDifficulty: Option<string>,
    currentQuestion: Option<Question>,
    allDifficultyTimes: Table,
    poolSizes: Table,
    recoveredTimeLeft: Option<int>,
    hydrating: bool,
    usedQuestions: UsedQuestions,
    remaining: Option<int>,
    totalInPool: Option<int>)

  const InitialHookState := HookState(Wheel, None, None, None, map[], map[], None, true, map[], None, None)

  /** `pool[index] ?? null` for the pool at (category, difficulty), missing pools read as empty. */
  function QuestionAt(bank: QuestionBank, category: string, difficulty: string, index: int): (q: Option<Question>)
    ensures q.Some? <==> Lookup(bank, category, difficulty).Some?
                         && 0 <= index < |Lookup(bank, category, difficulty).value|
    ensures q.Some? ==> q.value == Lookup(bank, category, difficulty).value[index]
  {
    match Lookup(bank, category, difficulty)
    case None => None
    case Some(pool) => if 0 <= index < |pool| then Some(pool[index]) else None
  }

  /** The session points at a question to resume. */
  predicate Resumable(session: SessionPayload) {
    session.state == AppState.Question && Given(session.category) && Given(session.difficulty)
    && session.questionIndex.Some?
  }

  /** The session and the bank, as the two parallel fetches return them. */
  datatype Fetched = Fetched(session: SessionPayload, bank: QuestionBank)

  /** The hook state after hydration; None for `fetched` is the failure path. */
  function Hydrated(prev: HookState, fetched: Option<Fetched>, cache: UiCache, nowMs: int): (h: HookState)
    ensures !h.hydrating
    ensures fetched.None? ==> h == prev.(hydrating := false)
    ensures fetched.Some? ==> h.usedQuestions == fetched.value.session.usedQuestions
    ensures fetched.Some? ==>
              h.poolSizes == PoolSizes(fetched.value.bank) && h.allDifficultyTimes == AllTimes(fetched.value.bank)
    ensures fetched.Some? ==> (h.appState == AppState.Question <==> Resumable(fetched.value.session))
    ensures fetched.Some? && !Resumable(fetched.value.session) ==>
              h == prev.(appState := Wheel, allDifficultyTimes := h.allDifficultyTimes,
                         poolSizes := h.poolSizes, hydrating := false, usedQuestions := h.usedQuestions)
  {
    match fetched
    case None => prev.(hydrating := false)
    case Some(Fetched(session, bank)) =>
      if Resumable(session) then
        HookState(
          AppState.Question,
          session.category,
          session.difficulty,
          QuestionAt(bank, session.category.value, session.difficulty.value, session.questionIndex.value),
          AllTimes(bank),
          PoolSizes(bank),
          RecoveredTimeLeft(session.timerStartedAt, session.timerDuration, nowMs),
          false,
          session.usedQuestions,
          Cached(cache, "remaining"),
          Cached(cache, "totalInPool"))
      else
        prev.(appState := Wheel, allDifficultyTimes := AllTimes(bank), poolSizes := PoolSizes(bank),
              hydrating := false, usedQuestions := session.usedQuestions)
  }

  /** Resuming a question: the selection, the recovered timer and the cached
      counters come back; an index past the end of its pool, or a pool that no
      longer exists, gives no current question rather than failing. */
  lemma HydrateResumes(prev: HookState, session: SessionPayload, bank: QuestionBank, cache: UiCache, nowMs: int)
    requires Resumable(session)
    ensures var h := Hydrated(prev, Some(Fetched(session, bank)), cache, nowMs);
            var c, d, i := session.category.value, session.difficulty.value, session.questionIndex.value;
            && h.selectedCategory == session.category && h.selectedDifficulty == session.difficulty
            && h.recoveredTimeLeft == RecoveredTimeLeft(session.timerStartedAt, session.timerDuration, nowMs)
            && h.remaining == Cached(cache, "remaining") && h.totalInPool == Cached(cache, "totalInPool")
            && (Lookup(bank, c, d).None? || i >= |Lookup(bank, c, d).value| || i < 0 ==> h.currentQuestion == None)
            && (Lookup(bank, c, d).Some? && 0 <= i < |Lookup(bank, c, d).value| ==>
                  h.currentQuestion == Some(Lookup(bank, c, d).value[i]))
  {
  }

  /** A session cookie fresh from the server draw resumes the question it drew. */
  lemma HydrateAfterDraw(c: string, d: string, bank: QuestionBank, cookie: Option<Token>, key: Key,
                         drawnAt: int, rand: real, prev: HookState, cache: UiCache, nowMs: int)
    requires 0.0 <= rand < 1.0
    requires Draw(Some(c), Some(d), Some(bank), cookie, key, drawnAt, rand).Drawn?
    ensures var r := Draw(Some(c), Some(d), Some(bank), cookie, key, drawnAt, rand);
            var h := Hydrated(prev, Some(Fetched(r.session, bank)), cache, nowMs);
            h.appState == AppState.Question && h.currentQuestion == Some(r.question)
            && h.recoveredTimeLeft == None
  {
  }

  // ---------------------------------------------------------------------------
  // The request bodies of recordTimerStart and finish
  // ---------------------------------------------------------------------------

  /** `{ timerStartedAt: Date.now(), timerDuration: duration }` */
  function TimerStartBody(duration: int, nowMs: int): Patch {
    EmptyPatch.(timerStartedAt := Some(Some(nowMs)), timerDuration := Some(Some(duration)))
  }

  /** `{ state: 'wheel', category: null, ..., timerDuration: null }` */
  const FinishBody := Patch(Some(Wheel), Some(None), Some(None), Some(None), Some(None), Some(None), None)

  /** Recording the timer start sets the two timer fields and changes nothing
      else of the stored session, the ledger included. */
  lemma TimerStartStored(cookie: Option<Token>, duration: int, key: Key, nowMs: int)
    ensures Post(cookie, TimerStartBody(duration, nowMs), key, nowMs).session
         == ReadSession(cookie, key, nowMs).(timerStartedAt := Some(nowMs), timerDuration := Some(duration))
  {
    MergeNothing(ReadSession(cookie, key, nowMs).usedQuestions);
  }

  /** A reload after the timer start recovers the time left on it. */
  lemma TimerStartRecovered(cookie: Option<Token>, duration: int, key: Key, startedAt: int,
                            prev: HookState, bank: QuestionBank, cache: UiCache, nowMs: int)
    requires startedAt != 0 && duration != 0
    requires Resumable(ReadSession(cookie, key, startedAt))
    ensures var s := Post(cookie, TimerStartBody(duration, startedAt), key, startedAt).session;
            Hydrated(prev, Some(Fetched(s, bank)), cache, nowMs).recoveredTimeLeft
              == RecoveredTimeLeft(Some(startedAt), Some(duration), nowMs)
  {
    TimerStartStored(cookie, duration, key, startedAt);
  }

  /** Finishing returns the stored session to the wheel with nothing selected
      and keeps every used index. */
  lemma FinishStored(cookie: Option<Token>, key: Key, nowMs: int)
    ensures Post(cookie, FinishBody, key, nowMs).session
         == DefaultSession.(usedQuestions := ReadSession(cookie, key, nowMs).usedQuestions)
  {
    MergeNothing(ReadSession(cookie, key, nowMs).usedQuestions);
  }

  // ---------------------------------------------------------------------------
  // The hook
  // ---------------------------------------------------------------------------

  /** The state after a drawn question arrives. */
  function AfterSelect(prev: HookState, category: string, difficulty: string,
                       question: Question, remaining: int, totalInPool: int): (h: HookState)
    ensures h.appState == AppState.Question && h.currentQuestion == Some(question) && h.recoveredTimeLeft == None
    ensures h.selectedCategory == Some(category) && h.selectedDifficulty == Some(difficulty)
    ensures h.remaining == Some(remaining) && h.totalInPool == Some(totalInPool)
    ensures h.usedQuestions == prev.usedQuestions && h.hydrating == prev.hydrating
    ensures h.poolSizes == prev.poolSizes && h.allDifficultyTimes == prev.allDifficultyTimes
  {
    prev.(appState := AppState.Question, selectedCategory := Some(category),
          selectedDifficulty := Some(difficulty), currentQuestion := Some(question),
          recoveredTimeLeft := None, remaining := Some(remaining), totalInPool := Some(totalInPool))
  }

  /** The state after finishing, given the session the POST answered with. */
  function AfterFinish(prev: HookState, posted: SessionPayload): (h: HookState)
    ensures h.appState == Wheel && h.currentQuestion == None && h.recoveredTimeLeft == None
    ensures h.selectedCategory == None && h.selectedDifficulty == None
    ensures h.remaining == None && h.totalInPool == None
    ensures h.usedQuestions == posted.usedQuestions && h.hydrating == prev.hydrating
    ensures h.poolSizes == prev.poolSizes && h.allDifficultyTimes == prev.allDifficultyTimes
  {
    prev.(appState := Wheel, selectedCategory := None, selectedDifficulty := None,
          currentQuestion := None, recoveredTimeLeft := None, remaining := None,
          totalInPool := None, usedQuestions := posted.usedQuestions)
  }

  /** The state after a full reset. */
  function AfterFullReset(prev: HookState): (h: HookState)
    ensures h.appState == Wheel && h.currentQuestion == None && h.recoveredTimeLeft == None
    ensures h.selectedCategory == None && h.selectedDifficulty == None
    ensures h.remaining == None && h.totalInPool == None
    ensures h.usedQuestions == map[] && h.hydrating == prev.hydrating
    ensures h.poolSizes == prev.poolSizes && h.allDifficultyTimes == prev.allDifficultyTimes
  {
    prev.(appState := Wheel, selectedCategory := None, selectedDifficulty := None,
          currentQuestion := None, recoveredTimeLeft := None, remaining := None,
          totalInPool := None, usedQuestions := map[])
  }

  /** Finishing and resetting both leave the wheel with nothing selected; they
      differ only in the ledger, which finishing takes from the server and
      resetting empties. */
  lemma FinishAndResetDiffer(prev: HookState, posted: SessionPayload)
    ensures AfterFinish(prev, posted).usedQuestions == posted.usedQuestions
    ensures AfterFullReset(prev).usedQuestions == map[]
    ensures AfterFinish(prev, posted).(usedQuestions := map[]) == AfterFullReset(prev)
    ensures AfterFinish(prev, posted).appState == Wheel && AfterFinish(prev, posted).currentQuestion == None
  {
  }

  /** The hook: its state cell and the `quizspin_ui` session-storage entry. */
  class QuizSession {
    var state: HookState
    var uiCache: UiCache

    constructor(cache: UiCache)
      ensures state == InitialHookState && uiCache == cache
    {
      state := InitialHookState;
      uiCache := cache;
    }

    /** The mount effect. */
    method Hydrate(fetched: Option<Fetched>, nowMs: int)
      modifies this
      ensures state == Hydrated(old(state), fetched, old(uiCache), nowMs)
      ensures uiCache == old(uiCache)
    {
      state := Hydrated(state, fetched, uiCache, nowMs);
    }

    /** `selectQuestion` given the server's answer: only a drawn question
        changes anything; an error response is swallowed. */
    method SelectQuestion(category: string, difficulty: string, response: DrawResult)
      modifies this
      ensures response.Drawn? ==>
                state == AfterSelect(old(state), category, difficulty, response.question,
                                     response.remaining, response.totalInPool)
                && uiCache == SaveLocalCache(old(uiCache), map["remaining" := Some(response.remaining),
                                                               "totalInPool" := Some(response.totalInPool)])
      ensures !response.Drawn? ==> state == old(state) && uiCache == old(uiCache)
    {
      if !response.Drawn? {
        return;
      }
      uiCache := SaveLocalCache(uiCache, map["remaining" := Some(response.remaining),
                                             "totalInPool" := Some(response.totalInPool)]);
      state := AfterSelect(state, category, difficulty, response.question, response.remaining,
                           response.totalInPool);
    }

    /** `finish` given the session the POST answered with. */
    method Finish(posted: SessionPayload)
      modifies this
      ensures state == AfterFinish(old(state), posted)
      ensures uiCache == SaveLocalCache(old(uiCache), map["remaining" := None, "totalInPool" := None])
    {
      uiCache := SaveLocalCache(uiCache, map["remaining" := None, "totalInPool" := None]);
      state := AfterFinish(state, posted);
    }

    /** `fullReset`: the cookie is deleted, the cache entry removed, the ledger emptied. */
    method FullReset() returns (cookie: CookieAction)
      modifies this
      ensures cookie == Delete()
      ensures state == AfterFullReset(old(state))
      ensures uiCache == map[]
    {
      cookie := Delete();
      uiCache := map[];
      state := AfterFullReset(state);
    }
  }
}
