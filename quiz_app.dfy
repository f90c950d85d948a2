/** The client-only quiz of components/QuizApp.tsx: the session lives in
    component state and in localStorage, the draw happens in the browser and
    refuses to start over when a pool is exhausted, and going back from a
    question un-consumes it. */
module QuizApp {
  import opened Util
  import opened Pools
  import opened Bank
  import opened Session
  import opened SessionRoute
  import opened QuestionsRoute
  import opened QuizSessionHook

  /** The component's `appState`. */
  datatype Screen = Loading | OnWheel | OnQuestion

  function ScreenOf(state: AppState): Screen {
    match state
    case Wheel => OnWheel
    case Question => OnQuestion
  }

  // ---------------------------------------------------------------------------
  // Derived values
  // ---------------------------------------------------------------------------

  /** `difficultyTimes` and `poolSizes`: empty until the bank has loaded. */
  function DifficultyTimes(bankData: Option<QuestionBank>): (t: Table)
    ensures bankData.None? ==> t == map[]
    ensures bankData.Some? ==> t == AllTimes(bankData.value)
  {
    if bankData.None? then map[] else AllTimes(bankData.value)
  }

  function LoadedPoolSizes(bankData: Option<QuestionBank>): (t: Table)
    ensures bankData.None? ==> t == map[]
    ensures bankData.Some? ==> t == PoolSizes(bankData.value)
  {
    if bankData.None? then map[] else PoolSizes(bankData.value)
  }

  /** `poolSizes[category]?.[difficulty] ?? 0` */
  function SizeOf(sizes: Table, category: string, difficulty: string): int {
    if category in sizes && difficulty in sizes[category] then sizes[category][difficulty] else 0
  }

  /** `currentQuestion`: the question the session points at, or None when
      nothing is selected, the bank has not loaded or the index is stale. */
  function CurrentQuestion(bankData: Option<QuestionBank>, session: SessionPayload): (q: Option<Question>)
    ensures q.Some? <==> bankData.Some? && Given(session.category) && Given(session.difficulty)
                         && session.questionIndex.Some?
                         && QuestionAt(bankData.value, session.category.value, session.difficulty.value,
                                       session.questionIndex.value).Some?
    ensures q.Some? ==> q == QuestionAt(bankData.value, session.category.value, session.difficulty.value,
                                        session.questionIndex.value)
  {
    if bankData.None? || !Given(session.category) || !Given(session.difficulty) || session.questionIndex.None?
    then None
    else QuestionAt(bankData.value, session.category.value, session.difficulty.value, session.questionIndex.value)
  }

  /** `remaining`: pool size minus the length of the slot's used list, for the selected slot. */
  function Remaining(session: SessionPayload, sizes: Table): (r: Option<int>)
    ensures r.Some? <==> Given(session.category) && Given(session.difficulty)
    ensures r.Some? ==> r.value + |Slot(session.usedQuestions, session.category.value, session.difficulty.value)|
                        == SizeOf(sizes, session.category.value, session.difficulty.value)
  {
    if !Given(session.category) || !Given(session.difficulty) then None
    else
      var c, d := session.category.value, session.difficulty.value;
      Some(SizeOf(sizes, c, d) - |Slot(session.usedQuestions, c, d)|)
  }

  /** `totalInPool`: the selected slot's pool size. */
  function TotalInPool(session: SessionPayload, sizes: Table): (r: Option<int>)
    ensures r.Some? <==> Given(session.category) && Given(session.difficulty)
    ensures r.Some? ==> r.value == SizeOf(sizes, session.category.value, session.difficulty.value)
  {
    if !Given(session.category) || !Given(session.difficulty) then None
    else Some(SizeOf(sizes, session.category.value, session.difficulty.value))
  }

  // ---------------------------------------------------------------------------
  // totalUsed
  // ---------------------------------------------------------------------------

  /** The lengths of one category's lists. */
  function SlotLengths(diffs: map<string, seq<int>>): map<string, int> {
    map d | d in diffs :: |diffs[d]|
  }

  ghost function CategoryUsed(diffs: map<string, seq<int>>): int {
    SumValues(SlotLengths(diffs))
  }

  ghost function CategoryTotals(used: UsedQuestions): map<string, int> {
    map c | c in used :: CategoryUsed(used[c])
  }

  /** The number of entries over all used lists. */
  ghost function TotalUsedOf(used: UsedQuestions): int {
    SumValues(CategoryTotals(used))
  }

  /** `totalUsed`: the length of all used lists flattened together. */
  method TotalUsed(used: UsedQuestions) returns (n: int)
    ensures n == TotalUsedOf(used)
  {
    n := 0;
    ghost var done: set<string> := {};
    var todo := used.Keys;
    while todo != {}
      invariant todo == used.Keys - done && done <= used.Keys
      invariant n == SumValues(TotalsOn(used, done))
      decreases todo
    {
      var cat :| cat in todo;
      var diffs := used[cat];
      ghost var doneD: set<string> := {};
      ghost var before := n;
      var rest := diffs.Keys;
      while rest != {}
        invariant rest == diffs.Keys - doneD && doneD <= diffs.Keys
        invariant n == before + SumValues(LengthsOn(diffs, doneD))
        decreases rest
      {
        var diff :| diff in rest;
        LengthsStep(diffs, doneD, diff);
        n := n + |diffs[diff]|;
        doneD := doneD + {diff};
        rest := rest - {diff};
      }
      assert LengthsOn(diffs, doneD) == SlotLengths(diffs);
      TotalsStep(used, done, cat);
      done := done + {cat};
      todo := todo - {cat};
    }
    assert TotalsOn(used, done) == CategoryTotals(used);
  }

  /** The lengths of the lists in `done`. */
  ghost function LengthsOn(diffs: map<string, seq<int>>, done: set<string>): map<string, int>
    requires done <= diffs.Keys
  {
    map d | d in done :: |diffs[d]|
  }

  /** The category totals of the categories in `done`. */
  ghost function TotalsOn(used: UsedQuestions, done: set<string>): map<string, int>
    requires done <= used.Keys
  {
    map c | c in done :: CategoryUsed(used[c])
  }

  lemma LengthsStep(diffs: map<string, seq<int>>, done: set<string>, d: string)
    requires done <= diffs.Keys && d in diffs && d !in done
    ensures SumValues(LengthsOn(diffs, done + {d})) == SumValues(LengthsOn(diffs, done)) + |diffs[d]|
  {
    assert LengthsOn(diffs, done)[d := |diffs[d]|] == LengthsOn(diffs, done + {d});
    SumValuesUpdate(LengthsOn(diffs, done), d, |diffs[d]|);
  }

  lemma TotalsStep(used: UsedQuestions, done: set<string>, c: string)
    requires done <= used.Keys && c in used && c !in done
    ensures SumValues(TotalsOn(used, done + {c})) == SumValues(TotalsOn(used, done)) + CategoryUsed(used[c])
  {
    assert TotalsOn(used, done)[c := CategoryUsed(used[c])] == TotalsOn(used, done + {c});
    SumValuesUpdate(TotalsOn(used, done), c, CategoryUsed(used[c]));
  }

  /** Replacing one slot's list changes the total by the difference in length. */
  lemma TotalUsedAfterSlot(used: UsedQuestions, c: string, d: string, slot: seq<int>)
    ensures TotalUsedOf(used[c := CategoryOf(used, c)[d := slot]])
         == TotalUsedOf(used) - |Slot(used, c, d)| + |slot|
  {
    var diffs := CategoryOf(used, c);
    var diffs' := diffs[d := slot];
    assert SlotLengths(diffs') == SlotLengths(diffs)[d := |slot|];
    SumValuesUpdate(SlotLengths(diffs), d, |slot|);
    var used' := used[c := diffs'];
    assert CategoryTotals(used') == CategoryTotals(used)[c := CategoryUsed(diffs')];
    SumValuesUpdate(CategoryTotals(used), c, CategoryUsed(diffs'));
    if c !in used {
      assert SlotLengths(diffs) == map[];
    }
  }

  /** Nobody has used a negative number of questions. */
  lemma TotalUsedNonNegative(used: UsedQuestions)
    ensures TotalUsedOf(used) >= 0
  {
    forall c | c in used
      ensures CategoryUsed(used[c]) >= 0
    {
      SumValuesNonNegative(SlotLengths(used[c]));
    }
    SumValuesNonNegative(CategoryTotals(used));
  }

  // ---------------------------------------------------------------------------
  // Session transitions
  // ---------------------------------------------------------------------------

  /** `selectQuestion`: draw an unused index of the pool; None (the session is
      left as it is) before the bank has loaded or when every index is used. */
  function ClientSelect(bankData: Option<QuestionBank>, session: SessionPayload,
                        category: string, difficulty: string, rand: real): (r: Option<SessionPayload>)
    requires 0.0 <= rand < 1.0
    ensures r.None? <==> bankData.None?
                         || Available(|Lookup(bankData.value, category, difficulty).GetOr([])|,
                                      Slot(session.usedQuestions, category, difficulty)) == []
  {
    if bankData.None? then None
    else
      var pool := Lookup(bankData.value, category, difficulty).GetOr([]);
      var used := Slot(session.usedQuestions, category, difficulty);
      var available := Available(|pool|, used);
      if available == [] then None
      else
        var pick := available[RandomIndex(rand, |available|)];
        var all := session.usedQuestions;
        Some(SessionPayload(AppState.Question, Some(category), Some(difficulty), Some(pick), None, None,
                            all[category := CategoryOf(all, category)[difficulty := used + [pick]]]))
  }

  /** `recordTimerStart`: the timer fields record the start and the duration;
      nothing else of the session changes. */
  function TimerStarted(session: SessionPayload, duration: int, nowMs: int): (s: SessionPayload)
    ensures s.timerStartedAt == Some(nowMs) && s.timerDuration == Some(duration)
    ensures s.(timerStartedAt := session.timerStartedAt, timerDuration := session.timerDuration) == session
  {
    session.(timerStartedAt := Some(nowMs), timerDuration := Some(duration))
  }

  /** `finish`: back to the wheel with nothing selected and no timer. */
  function FinishSession(session: SessionPayload): (s: SessionPayload)
    ensures s == DefaultSession.(usedQuestions := session.usedQuestions)
  {
    session.(state := Wheel, category := None, difficulty := None, questionIndex := None,
             timerStartedAt := None, timerDuration := None)
  }

  /** `used.filter(idx => idx !== index)`: every occurrence removed, order kept. */
  function Without(used: seq<int>, index: int): (r: seq<int>)
    ensures forall x :: x in r <==> x in used && x != index
    ensures multiset(r) == multiset(used)[index := 0]
    ensures |r| == |used| - multiset(used)[index]
  {
    if used == [] then []
    else
      var init, last := used[..|used| - 1], used[|used| - 1];
      assert used == init + [last];
      if last == index then Without(init, index) else Without(init, index) + [last]
  }

  /** The filter works element by element, so it keeps the order of what it
      keeps: filtering a concatenation filters each part. */
  lemma {:induction false} WithoutConcat(a: seq<int>, b: seq<int>, index: int)
    ensures Without(a + b, index) == Without(a, index) + Without(b, index)
    decreases |b|
  {
    if b == [] {
      assert a + b == a;
    } else {
      var init, last := b[..|b| - 1], b[|b| - 1];
      assert a + b == (a + init) + [last];
      assert (a + b)[..|a + b| - 1] == a + init;
      WithoutConcat(a, init, index);
    }
  }

  /** `goBack`: finish, and take the current question's index out of its slot. */
  function GoBackSession(session: SessionPayload): (s: SessionPayload)
    ensures s.(usedQuestions := session.usedQuestions) == FinishSession(session)
    ensures Given(session.category) && Given(session.difficulty) && session.questionIndex.Some? ==>
              var c, d := session.category.value, session.difficulty.value;
              && Slot(s.usedQuestions, c, d) == Without(Slot(session.usedQuestions, c, d), session.questionIndex.value)
              && forall c', d' :: (c', d') != (c, d) ==>
                   Slot(s.usedQuestions, c', d') == Slot(session.usedQuestions, c', d')
    ensures !Given(session.category) || !Given(session.difficulty) || session.questionIndex.None? ==>
              s.usedQuestions == session.usedQuestions
  {
    if !Given(session.category) || !Given(session.difficulty) || session.questionIndex.None? then
      FinishSession(session)
    else
      var c, d, all := session.category.value, session.difficulty.value, session.usedQuestions;
      FinishSession(session).(usedQuestions :=
        all[c := CategoryOf(all, c)[d := Without(Slot(all, c, d), session.questionIndex.value)]])
  }

  /** The client draw: the pick was unused and is within the pool, it is
      appended to its slot, every other slot is as it was, and the session
      shows the question with no timer. */
  lemma ClientSelectDraws(bankData: Option<QuestionBank>, session: SessionPayload,
                          category: string, difficulty: string, rand: real)
    requires 0.0 <= rand < 1.0
    ensures var r := ClientSelect(bankData, session, category, difficulty, rand);
            r.Some? ==>
              var pool := Lookup(bankData.value, category, difficulty).value;
              var used := Slot(session.usedQuestions, category, difficulty);
              var pick := r.value.questionIndex.value;
              && r.value.questionIndex.Some?
              && 0 <= pick < |pool| && pick !in used
              && Slot(r.value.usedQuestions, category, difficulty) == used + [pick]
              && (forall c, d :: (c, d) != (category, difficulty) ==>
                    Slot(r.value.usedQuestions, c, d) == Slot(session.usedQuestions, c, d))
              && r.value.state == AppState.Question
              && r.value.category == Some(category) && r.value.difficulty == Some(difficulty)
              && r.value.timerStartedAt == None && r.value.timerDuration == None
              && CurrentQuestion(bankData, r.value) == (if category != "" && difficulty != "" then Some(pool[pick]) else None)
  {
    var r := ClientSelect(bankData, session, category, difficulty, rand);
    if r.Some? {
      var pool := Lookup(bankData.value, category, difficulty).GetOr([]);
      var available := Available(|pool|, Slot(session.usedQuestions, category, difficulty));
      assert available[RandomIndex(rand, |available|)] in available;
      assert pool != [];
    }
  }

  /** The two draws part ways on an exhausted pool: the client refuses and keeps
      the session, while the server starts the slot over. */
  lemma ExhaustionDiffers(bank: QuestionBank, session: SessionPayload, category: string, difficulty: string,
                          rand: real)
    requires 0.0 <= rand < 1.0
    requires Lookup(bank, category, difficulty).Some? && Lookup(bank, category, difficulty).value != []
    requires forall i :: 0 <= i < |Lookup(bank, category, difficulty).value| ==>
               i in Slot(session.usedQuestions, category, difficulty)
    ensures ClientSelect(Some(bank), session, category, difficulty, rand) == None
    ensures var n := |Lookup(bank, category, difficulty).value|;
            var s := Select(n, Slot(session.usedQuestions, category, difficulty), rand);
            s.slot == [s.index] && s.remaining == n - 1
  {
    AvailableEmptyIff(|Lookup(bank, category, difficulty).value|, Slot(session.usedQuestions, category, difficulty));
  }

  /** Going back from a question served once takes exactly that entry out of
      its slot and keeps the entries before and after it, in order. */
  lemma GoBackRetracts(session: SessionPayload, before: seq<int>, after: seq<int>)
    requires Given(session.category) && Given(session.difficulty) && session.questionIndex.Some?
    requires var i := session.questionIndex.value;
             && Slot(session.usedQuestions, session.category.value, session.difficulty.value) == before + [i] + after
             && i !in before && i !in after
    ensures Slot(GoBackSession(session).usedQuestions, session.category.value, session.difficulty.value)
            == before + after
  {
    var i := session.questionIndex.value;
    WithoutConcat(before + [i], after, i);
    WithoutConcat(before, [i], i);
    WithoutAbsent(before, i);
    WithoutAbsent(after, i);
    assert Without([i], i) == [] by {
      assert [i][..0] == [];
    }
  }

  /** With no current question, going back is finishing. */
  lemma GoBackWithoutQuestion(session: SessionPayload)
    requires !Given(session.category) || !Given(session.difficulty) || session.questionIndex.None?
    ensures GoBackSession(session) == FinishSession(session)
  {
  }

  /** Removing an index a list never held leaves the list as it was. */
  lemma {:induction false} WithoutAbsent(used: seq<int>, index: int)
    requires index !in used
    ensures Without(used, index) == used
  {
    if used != [] {
      WithoutAbsent(used[..|used| - 1], index);
      assert used[..|used| - 1] + [used[|used| - 1]] == used;
    }
  }

  /** Going back right after a draw gives every slot back the list it had
      before the draw. */
  lemma GoBackUndoesSelect(bankData: Option<QuestionBank>, session: SessionPayload,
                           category: string, difficulty: string, rand: real)
    requires 0.0 <= rand < 1.0 && category != "" && difficulty != ""
    requires ClientSelect(bankData, session, category, difficulty, rand).Some?
    ensures var back := GoBackSession(ClientSelect(bankData, session, category, difficulty, rand).value);
            forall c, d :: Slot(back.usedQuestions, c, d) == Slot(session.usedQuestions, c, d)
  {
    var drawn := ClientSelect(bankData, session, category, difficulty, rand).value;
    ClientSelectDraws(bankData, session, category, difficulty, rand);
    var used := Slot(session.usedQuestions, category, difficulty);
    var pick := drawn.questionIndex.value;
    WithoutAbsent(used, pick);
    assert Without(used + [pick], pick) == Without(used, pick) by {
      assert (used + [pick])[..|used + [pick]| - 1] == used;
    }
  }

  /** A draw adds exactly one to `totalUsed`; going back subtracts the number of
      entries it removes. */
  lemma TotalUsedCounts(bankData: Option<QuestionBank>, session: SessionPayload,
                        category: string, difficulty: string, rand: real)
    requires 0.0 <= rand < 1.0
    ensures var r := ClientSelect(bankData, session, category, difficulty, rand);
            r.Some? ==> TotalUsedOf(r.value.usedQuestions) == TotalUsedOf(session.usedQuestions) + 1
    ensures Given(session.category) && Given(session.difficulty) && session.questionIndex.Some? ==>
              var c, d := session.category.value, session.difficulty.value;
              var slot := Slot(session.usedQuestions, c, d);
              TotalUsedOf(GoBackSession(session).usedQuestions)
                == TotalUsedOf(session.usedQuestions) - multiset(slot)[session.questionIndex.value]
  {
    var r := ClientSelect(bankData, session, category, difficulty, rand);
    if r.Some? {
      var used := Slot(session.usedQuestions, category, difficulty);
      TotalUsedAfterSlot(session.usedQuestions, category, difficulty, used + [r.value.questionIndex.value]);
    }
    if Given(session.category) && Given(session.difficulty) && session.questionIndex.Some? {
      var c, d := session.category.value, session.difficulty.value;
      var slot := Slot(session.usedQuestions, c, d);
      TotalUsedAfterSlot(session.usedQuestions, c, d, Without(slot, session.questionIndex.value));
    }
  }

  /** After a draw from a slot of distinct pool indices, `remaining` counts the
      indices still unserved. */
  lemma RemainingAfterSelect(bank: QuestionBank, session: SessionPayload,
                             category: string, difficulty: string, rand: real)
    requires 0.0 <= rand < 1.0 && category != "" && difficulty != ""
    requires ClientSelect(Some(bank), session, category, difficulty, rand).Some?
    requires var used := Slot(session.usedQuestions, category, difficulty);
             NoDup(used) && forall i :: 0 <= i < |used| ==> 0 <= used[i] < |Lookup(bank, category, difficulty).GetOr([])|
    ensures var s := ClientSelect(Some(bank), session, category, difficulty, rand).value;
            Remaining(s, PoolSizes(bank))
              == Some(|Available(|Lookup(bank, category, difficulty).value|, Slot(s.usedQuestions, category, difficulty))|)
  {
    var s := ClientSelect(Some(bank), session, category, difficulty, rand).value;
    ClientSelectDraws(Some(bank), session, category, difficulty, rand);
    var n := |Lookup(bank, category, difficulty).value|;
    var used := Slot(session.usedQuestions, category, difficulty);
    var pick := s.questionIndex.value;
    var slot := Slot(s.usedQuestions, category, difficulty);
    assert slot == used + [pick];
    AppendClean(n, used, pick);
    UnservedCount(n, slot);
    var sizes := PoolSizes(bank);
    assert Lookup(bank, category, difficulty).Some?;
    assert SizeOf(sizes, category, difficulty) == n;
    assert s.category == Some(category) && s.difficulty == Some(difficulty);
    assert Remaining(s, sizes).value + |slot| == n;
  }

  /** Appending an unused pool index keeps a list of distinct pool indices clean. */
  lemma AppendClean(n: nat, used: seq<int>, pick: int)
    requires NoDup(used) && forall i :: 0 <= i < |used| ==> 0 <= used[i] < n
    requires 0 <= pick < n && pick !in used
    ensures var slot := used + [pick];
            NoDup(slot) && forall i :: 0 <= i < |slot| ==> 0 <= slot[i] < n
  {
  }

  // ---------------------------------------------------------------------------
  // The component
  // ---------------------------------------------------------------------------

  /** The component's state cells and the `quizspin_session` localStorage entry. */
  class App {
    var screen: Screen
    var bankData: Option<QuestionBank>
    var session: SessionPayload
    var showResetConfirm: bool
    var recoveredTimeLeft: Option<int>
    var stored: Option<SessionPayload>

    constructor(saved: Option<SessionPayload>)
      ensures screen == Loading && bankData == None && session == DefaultSession
      ensures !showResetConfirm && recoveredTimeLeft == None && stored == saved
    {
      screen := Loading;
      bankData := None;
      session := DefaultSession;
      showResetConfirm := false;
      recoveredTimeLeft := None;
      stored := saved;
    }

    /** The mount effect given the loaded bank (None when both sources failed):
        restore the saved session and recover a running timer. */
    method Restore(loaded: Option<QuestionBank>, nowMs: int)
      modifies this
      ensures loaded.None? ==> screen == OnWheel && bankData == old(bankData) && session == old(session)
                               && recoveredTimeLeft == old(recoveredTimeLeft)
      ensures loaded.Some? ==> bankData == loaded
      ensures loaded.Some? && old(stored).None? ==>
                screen == OnWheel && session == old(session) && recoveredTimeLeft == old(recoveredTimeLeft)
      ensures loaded.Some? && old(stored).Some? ==>
                var saved := old(stored).value;
                && session == saved && screen == ScreenOf(saved.state)
                && recoveredTimeLeft
                   == (if saved.state == AppState.Question && Truthy(saved.timerStartedAt) && Truthy(saved.timerDuration)
                       then RecoveredTimeLeft(saved.timerStartedAt, saved.timerDuration, nowMs)
                       else old(recoveredTimeLeft))
      ensures stored == old(stored) && showResetConfirm == old(showResetConfirm)
    {
      if loaded.None? {
        screen := OnWheel;
        return;
      }
      bankData := loaded;
      match stored {
        case None =>
          screen := OnWheel;
        case Some(saved) =>
          if saved.state == AppState.Question && Truthy(saved.timerStartedAt) && Truthy(saved.timerDuration) {
            recoveredTimeLeft := RecoveredTimeLeft(saved.timerStartedAt, saved.timerDuration, nowMs);
          }
          session := saved;
          screen := ScreenOf(saved.state);
      }
    }

    method SelectQuestion(category: string, difficulty: string, rand: real)
      requires 0.0 <= rand < 1.0
      modifies this
      ensures var r := ClientSelect(old(bankData), old(session), category, difficulty, rand);
              && (r.None? ==> screen == old(screen) && session == old(session) && stored == old(stored)
                              && recoveredTimeLeft == old(recoveredTimeLeft))
              && (r.Some? ==> session == r.value && stored == Some(r.value) && screen == OnQuestion
                              && recoveredTimeLeft == None)
      ensures bankData == old(bankData) && showResetConfirm == old(showResetConfirm)
    {
      var r := ClientSelect(bankData, session, category, difficulty, rand);
      if r.None? {
        return;
      }
      session := r.value;
      screen := OnQuestion;
      recoveredTimeLeft := None;
      stored := Some(r.value);
    }

    method RecordTimerStart(duration: int, nowMs: int)
      modifies this
      ensures session == TimerStarted(old(session), duration, nowMs) && stored == Some(session)
      ensures screen == old(screen) && bankData == old(bankData) && recoveredTimeLeft == old(recoveredTimeLeft)
      ensures showResetConfirm == old(showResetConfirm)
    {
      session := TimerStarted(session, duration, nowMs);
      stored := Some(session);
    }

    method Finish()
      modifies this
      ensures session == FinishSession(old(session)) && stored == Some(session)
      ensures screen == OnWheel && recoveredTimeLeft == None
      ensures bankData == old(bankData) && showResetConfirm == old(showResetConfirm)
    {
      session := FinishSession(session);
      screen := OnWheel;
      recoveredTimeLeft := None;
      stored := Some(session);
    }

    method GoBack()
      modifies this
      ensures session == GoBackSession(old(session)) && stored == Some(session)
      ensures screen == OnWheel && recoveredTimeLeft == None
      ensures bankData == old(bankData) && showResetConfirm == old(showResetConfirm)
    {
      session := GoBackSession(session);
      screen := OnWheel;
      recoveredTimeLeft := None;
      stored := Some(session);
    }

    method FullReset()
      modifies this
      ensures session == DefaultSession && stored == None
      ensures screen == OnWheel && recoveredTimeLeft == None && !showResetConfirm
      ensures bankData == old(bankData)
    {
      stored := None;
      session := DefaultSession;
      screen := OnWheel;
      recoveredTimeLeft := None;
      showResetConfirm := false;
    }
  }
}
