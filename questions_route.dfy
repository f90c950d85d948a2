/** GET /api/questions (app/api/questions/route.ts): draw one question of a
    category and difficulty without repeating any index the session has
    already used in that slot, resetting the slot once the pool is
    exhausted, and record the draw in a re-signed session cookie. */
module QuestionsRoute {
  import opened Util
  import opened Pools
  import opened Bank
  import opened Session
  import opened SessionRoute

  // ---------------------------------------------------------------------------
  // Choosing an index
  // ---------------------------------------------------------------------------

  /** The drawn index, how many unserved indices the draw leaves, and the slot's new list. */
  datatype Selection = Selection(index: int, remaining: int, slot: seq<int>)

  /** Draw among the unserved indices of a pool of `n`; when none is left, the
      slot starts over and the draw is among all `n`. */
  function Select(n: nat, used: seq<int>, rand: real): (s: Selection)
    requires n > 0 && 0.0 <= rand < 1.0
    ensures 0 <= s.index < n
    ensures Available(n, used) != [] ==>
              s.index !in used && s.slot == used + [s.index]
              && s.remaining == |Available(n, used)| - 1
    ensures Available(n, used) == [] ==> s.slot == [s.index] && s.remaining == n - 1
  {
    var available := Available(n, used);
    if available == [] then
      var i := Range(n)[RandomIndex(rand, n)];
      Selection(i, n - 1, [i])
    else
      var i := available[RandomIndex(rand, |available|)];
      assert i in available;
      Selection(i, |available| - 1, used + [i])
  }

  /** `allIndices`, `available` (with the reset) and the pick, with the loops
      that `map` and `filter` run. */
  method SelectIndex(n: nat, used: seq<int>, rand: real) returns (s: Selection)
    requires n > 0 && 0.0 <= rand < 1.0
    ensures s == Select(n, used, rand)
  {
    var allIndices: seq<int> := [];
    var available: seq<int> := [];
    for i := 0 to n
      invariant allIndices == Range(i)
      invariant available == Available(i, used)
    {
      allIndices := allIndices + [i];
      if i !in used {
        available := available + [i];
      }
      assert available == Available(i + 1, used);
    }
    assert available == Available(n, used) && allIndices == Range(n);
    var slot := used;
    if |available| == 0 {
      available := allIndices;
      slot := [];
    }
    var picked := available[RandomIndex(rand, |available|)];
    s := Selection(picked, |available| - 1, slot + [picked]);
    assert slot == [] ==> slot + [picked] == [picked];
  }

  /** `remaining` is the number of pool indices the new slot leaves unserved,
      whether or not the draw reset the slot. */
  lemma RemainingIsUnserved(n: nat, used: seq<int>, rand: real)
    requires n > 0 && 0.0 <= rand < 1.0
    ensures Select(n, used, rand).remaining == |Available(n, Select(n, used, rand).slot)|
  {
    var s := Select(n, used, rand);
    if Available(n, used) != [] {
      AvailableAfterUse(n, used, s.index);
    } else {
      AvailableOfUnused(n, []);
      AvailableAfterUse(n, [], s.index);
      assert [] + [s.index] == [s.index];
    }
  }

  /** A slot that holds distinct pool indices keeps holding distinct pool indices. */
  lemma SelectKeepsSlotClean(n: nat, used: seq<int>, rand: real)
    requires n > 0 && 0.0 <= rand < 1.0
    requires NoDup(used) && forall i :: 0 <= i < |used| ==> 0 <= used[i] < n
    ensures var slot := Select(n, used, rand).slot;
            NoDup(slot) && forall i :: 0 <= i < |slot| ==> 0 <= slot[i] < n
  {
  }

  /** A clean slot of `k` distinct pool indices leaves `n - k` of them unserved. */
  lemma {:induction false} UnservedCount(n: nat, used: seq<int>)
    requires NoDup(used) && forall i :: 0 <= i < |used| ==> 0 <= used[i] < n
    ensures |Available(n, used)| == n - |used|
  {
    if used == [] {
      AvailableOfUnused(n, used);
    } else {
      var init, x := used[..|used| - 1], used[|used| - 1];
      UnservedCount(n, init);
      assert x !in init;
      AvailableAfterUse(n, init, x);
      assert init + [x] == used;
    }
  }

  /** Every unserved index can come out of the draw: there is a value of
      Math.random() that picks it. */
  lemma EveryUnservedReachable(n: nat, used: seq<int>, i: int)
    requires n > 0 && i in Available(n, used)
    ensures exists rand: real :: 0.0 <= rand < 1.0 && Select(n, used, rand).index == i
  {
    var available := Available(n, used);
    var k :| 0 <= k < |available| && available[k] == i;
    RandomIndexReaches(k, |available|);
    var rand := k as real / |available| as real;
    assert Select(n, used, rand).index == i;
  }

  // ---------------------------------------------------------------------------
  // The handler
  // ---------------------------------------------------------------------------

  /** The responses: 400, 500, 404 (with remaining and totalInPool both 0) and
      the drawn question with the session that records it and its new token. */
  datatype DrawResult =
    | BadRequest
    | BankUnavailable
    | NoQuestions
    | Drawn(question: Question, questionIndex: int, remaining: int, totalInPool: int,
            session: SessionPayload, token: Token)

  /** A query parameter that is present and not empty. */
  predicate Given(param: Option<string>) {
    param.Some? && param.value != ""
  }

  /** The session after drawing `index`: the slot holds `slot`, and the session
      shows that question with its timer not yet started. */
  function Recorded(session: SessionPayload, category: string, difficulty: string,
                    index: int, slot: seq<int>, waktu: int): (s: SessionPayload)
    ensures Slot(s.usedQuestions, category, difficulty) == slot
    ensures forall c, d :: (c, d) != (category, difficulty) ==>
              Slot(s.usedQuestions, c, d) == Slot(session.usedQuestions, c, d)
    ensures s.state == AppState.Question && s.category == Some(category) && s.difficulty == Some(difficulty)
    ensures s.questionIndex == Some(index) && s.timerStartedAt == None && s.timerDuration == Some(waktu)
  {
    var used := session.usedQuestions;
    session.(
      state := AppState.Question,
      category := Some(category),
      difficulty := Some(difficulty),
      questionIndex := Some(index),
      timerStartedAt := None,
      timerDuration := Some(waktu),
      usedQuestions := used[category := CategoryOf(used, category)[difficulty := slot]])
  }

  /** What the handler answers once it has read `session` from the request.
      `bank` is None when the bank could not be loaded. */
  function DrawWith(category: Option<string>, difficulty: Option<string>, bank: Option<QuestionBank>,
                    session: SessionPayload, key: Key, nowMs: int, rand: real): (r: DrawResult)
    requires 0.0 <= rand < 1.0
    ensures r.BadRequest? <==> !Given(category) || !Given(difficulty)
    ensures r.BankUnavailable? <==> Given(category) && Given(difficulty) && bank.None?
    ensures r.NoQuestions? <==> Given(category) && Given(difficulty) && bank.Some?
                                && (Lookup(bank.value, category.value, difficulty.value) == None
                                    || Lookup(bank.value, category.value, difficulty.value) == Some([]))
    ensures r.Drawn? ==>
              var pool := Lookup(bank.value, category.value, difficulty.value).value;
              && r.totalInPool == |pool| && 0 <= r.questionIndex < |pool|
              && r.question == pool[r.questionIndex]
              && r.token == SignSession(r.session, key, nowMs)
  {
    if !Given(category) || !Given(difficulty) then BadRequest
    else if bank.None? then BankUnavailable
    else match Lookup(bank.value, category.value, difficulty.value)
      case None => NoQuestions
      case Some(pool) =>
        if |pool| == 0 then NoQuestions
        else
          var sel := Select(|pool|, Slot(session.usedQuestions, category.value, difficulty.value), rand);
          var s := Recorded(session, category.value, difficulty.value, sel.index, sel.slot,
                            pool[sel.index].waktu);
          Drawn(pool[sel.index], sel.index, sel.remaining, |pool|, s, SignSession(s, key, nowMs))
  }

  /** What the handler answers to a request carrying `cookie`. */
  function Draw(category: Option<string>, difficulty: Option<string>, bank: Option<QuestionBank>,
                cookie: Option<Token>, key: Key, nowMs: int, rand: real): (r: DrawResult)
    requires 0.0 <= rand < 1.0
    ensures r.BadRequest? <==> !Given(category) || !Given(difficulty)
    ensures r.BankUnavailable? <==> Given(category) && Given(difficulty) && bank.None?
    ensures r.NoQuestions? <==> Given(category) && Given(difficulty) && bank.Some?
                                && (Lookup(bank.value, category.value, difficulty.value) == None
                                    || Lookup(bank.value, category.value, difficulty.value) == Some([]))
    ensures r.Drawn? ==>
              var pool := Lookup(bank.value, category.value, difficulty.value).value;
              && r.totalInPool == |pool| && 0 <= r.questionIndex < |pool|
              && r.question == pool[r.questionIndex]
              && r.token == SignSession(r.session, key, nowMs)
  {
    DrawWith(category, difficulty, bank, ReadSession(cookie, key, nowMs), key, nowMs, rand)
  }

  /** The handler step by step: validate, load, look up, read the session,
      select, record, sign. */
  method GetQuestion(category: Option<string>, difficulty: Option<string>, bank: Option<QuestionBank>,
                     cookie: Option<Token>, key: Key, nowMs: int, rand: real) returns (r: DrawResult)
    requires 0.0 <= rand < 1.0
    ensures r == Draw(category, difficulty, bank, cookie, key, nowMs, rand)
  {
    if !Given(category) || !Given(difficulty) {
      return BadRequest;
    }
    if bank.None? {
      return BankUnavailable;
    }
    var cat, diff := category.value, difficulty.value;
    var found := Lookup(bank.value, cat, diff);
    if found.None? || |found.value| == 0 {
      return NoQuestions;
    }
    var pool := found.value;
    var session := ReadSession(cookie, key, nowMs);
    var sel := SelectIndex(|pool|, Slot(session.usedQuestions, cat, diff), rand);
    var question := pool[sel.index];
    session := Recorded(session, cat, diff, sel.index, sel.slot, question.waktu);
    var token := SignSession(session, key, nowMs);
    r := Drawn(question, sel.index, sel.remaining, |pool|, session, token);
  }

  /** The draw's guarantee about the session it stores, whatever session the
      request carried (the cookie's, or a copy of the default one): the drawn
      index was unserved in its slot (unless the slot was exhausted and starts
      over), it is appended to that slot, `remaining` counts what is still
      unserved, and every other slot is untouched. */
  lemma DrawRecords(category: Option<string>, difficulty: Option<string>, bank: Option<QuestionBank>,
                    session: SessionPayload, key: Key, nowMs: int, rand: real)
    requires 0.0 <= rand < 1.0
    ensures var r := DrawWith(category, difficulty, bank, session, key, nowMs, rand);
            r.Drawn? ==>
              var c, d := category.value, difficulty.value;
              var before := Slot(session.usedQuestions, c, d);
              var after := Slot(r.session.usedQuestions, c, d);
              var n := r.totalInPool;
              && (Available(n, before) != [] ==> r.questionIndex !in before && after == before + [r.questionIndex])
              && (Available(n, before) == [] ==> after == [r.questionIndex])
              && r.remaining == |Available(n, after)|
              && r.session.questionIndex == Some(r.questionIndex)
              && r.session.timerDuration == Some(r.question.waktu)
              && forall c', d' :: (c', d') != (c, d) ==>
                   Slot(r.session.usedQuestions, c', d') == Slot(session.usedQuestions, c', d')
  {
    var r := DrawWith(category, difficulty, bank, session, key, nowMs, rand);
    if r.Drawn? {
      var c, d := category.value, difficulty.value;
      RemainingIsUnserved(r.totalInPool, Slot(session.usedQuestions, c, d), rand);
    }
  }

  /** A request with both parameters, a loaded bank and a non-empty pool is
      answered with the selection over the slot of the session it carries. */
  lemma DrawWithDrawn(category: string, difficulty: string, bank: QuestionBank,
                      session: SessionPayload, key: Key, nowMs: int, rand: real)
    requires category != "" && difficulty != "" && 0.0 <= rand < 1.0
    requires Lookup(bank, category, difficulty).Some? && Lookup(bank, category, difficulty).value != []
    ensures var pool := Lookup(bank, category, difficulty).value;
            var sel := Select(|pool|, Slot(session.usedQuestions, category, difficulty), rand);
            var s := Recorded(session, category, difficulty, sel.index, sel.slot, pool[sel.index].waktu);
            DrawWith(Some(category), Some(difficulty), Some(bank), session, key, nowMs, rand)
              == Drawn(pool[sel.index], sel.index, sel.remaining, |pool|, s, SignSession(s, key, nowMs))
  {
  }

  /** With a fresh default session, as the route intends, a request without a
      cookie draws from an empty ledger: it records only its own index and
      leaves every other index of the pool unserved, whatever came before. */
  lemma CookielessDrawStartsFresh(category: string, difficulty: string, bank: QuestionBank,
                                  key: Key, nowMs: int, rand: real)
    requires category != "" && difficulty != "" && 0.0 <= rand < 1.0
    requires Lookup(bank, category, difficulty).Some? && Lookup(bank, category, difficulty).value != []
    ensures var r := Draw(Some(category), Some(difficulty), Some(bank), None, key, nowMs, rand);
            && r.Drawn?
            && r.session.usedQuestions == map[category := map[difficulty := [r.questionIndex]]]
            && r.remaining == r.totalInPool - 1
  {
    var pool := Lookup(bank, category, difficulty).value;
    var n := |pool|;
    assert ReadSession(None, key, nowMs) == DefaultSession;
    assert Slot(DefaultSession.usedQuestions, category, difficulty) == [];
    UnservedCount(n, []);
    var sel := Select(n, [], rand);
    assert sel.slot == [sel.index] && sel.remaining == n - 1;
    var s := Recorded(DefaultSession, category, difficulty, sel.index, sel.slot, pool[sel.index].waktu);
    assert s.usedQuestions == map[category := map[difficulty := [sel.index]]];
    DrawWithDrawn(category, difficulty, bank, DefaultSession, key, nowMs, rand);
  }

  /** A draw from a clean slot that still has unserved indices grows it by one
      and leaves one fewer unserved. */
  lemma DrawFromClean(n: nat, used: seq<int>, rand: real)
    requires n > 0 && 0.0 <= rand < 1.0
    requires NoDup(used) && forall i :: 0 <= i < |used| ==> 0 <= used[i] < n
    requires |used| < n
    ensures var s := Select(n, used, rand);
            && NoDup(s.slot) && (forall i :: 0 <= i < |s.slot| ==> 0 <= s.slot[i] < n)
            && |s.slot| == |used| + 1 && s.remaining == n - |used| - 1
  {
    UnservedCount(n, used);
    SelectKeepsSlotClean(n, used, rand);
  }

  /** A pool of three drawn from a fresh slot: three draws serve every index
      once (leaving 2, 1 and 0 unserved), and the fourth starts the cycle over
      (leaving 2). */
  lemma CycleOfThree(r1: real, r2: real, r3: real, r4: real)
    requires 0.0 <= r1 < 1.0 && 0.0 <= r2 < 1.0 && 0.0 <= r3 < 1.0 && 0.0 <= r4 < 1.0
    ensures var s1 := Select(3, [], r1);
            var s2 := Select(3, s1.slot, r2);
            var s3 := Select(3, s2.slot, r3);
            var s4 := Select(3, s3.slot, r4);
            && s1.remaining == 2 && s2.remaining == 1 && s3.remaining == 0
            && (forall i :: 0 <= i < 3 ==> i in s3.slot)
            && s4.remaining == 2 && s4.slot == [s4.index]
  {
    var s1 := Select(3, [], r1);
    DrawFromClean(3, [], r1);
    var s2 := Select(3, s1.slot, r2);
    DrawFromClean(3, s1.slot, r2);
    var s3 := Select(3, s2.slot, r3);
    DrawFromClean(3, s2.slot, r3);
    UnservedCount(3, s3.slot);
    AvailableEmptyIff(3, s3.slot);
  }
}
