/** The module-level `defaultSession` of lib/session.ts as the route handlers
    use it. `{ ...defaultSession }` copies only the top level of the record,
    so a request that falls back to the default session holds the very
    `usedQuestions` object of the module constant, and whatever a handler
    writes into that ledger stays there for every later request served by
    the same server process. Here that ledger is explicit server state:
    every handler reads it and answers together with the ledger it leaves.
    The handlers of QuestionsRoute, SessionRoute and SessionReplace are the
    intended behaviour, a fresh default for every request; they are this
    module's handlers for a process whose ledger is still empty. */
module SharedDefault {
  import opened Util
  import opened Pools
  import opened Bank
  import opened Session
  import opened SessionRoute
  import opened SessionReplace
  import opened QuestionsRoute

  /** A handler's answer and the shared ledger as the handler leaves it. */
  datatype Served<T> = Served(answer: T, shared: UsedQuestions)

  /** `defaultSession` once earlier requests have left `shared` in its ledger. */
  function Fallback(shared: UsedQuestions): (s: SessionPayload)
    ensures s.usedQuestions == shared
    ensures s.(usedQuestions := map[]) == DefaultSession
  {
    DefaultSession.(usedQuestions := shared)
  }

  /** The request falls back to the default session: it has no token, or one
      that does not verify. */
  predicate FromDefault(cookie: Option<Token>, key: Key, nowMs: int) {
    !HasToken(cookie) || VerifySession(cookie.value, key, nowMs).None?
  }

  /** The session a request carries as the routes read it: the verified
      payload, or a copy of `defaultSession` holding the shared ledger. Only
      the ledger can differ from the fresh-default reading, and only for a
      request that falls back to the default. */
  function ReadShared(cookie: Option<Token>, key: Key, nowMs: int, shared: UsedQuestions): (s: SessionPayload)
    ensures s.(usedQuestions := ReadSession(cookie, key, nowMs).usedQuestions) == ReadSession(cookie, key, nowMs)
    ensures FromDefault(cookie, key, nowMs) ==> s.usedQuestions == shared
    ensures !FromDefault(cookie, key, nowMs) || shared == map[] ==> s == ReadSession(cookie, key, nowMs)
  {
    if FromDefault(cookie, key, nowMs) then Fallback(shared) else ReadSession(cookie, key, nowMs)
  }

  // ---------------------------------------------------------------------------
  // The handlers as written
  // ---------------------------------------------------------------------------

  /** GET /api/questions. A request that fell back to the default writes its
      reset and its pick into the shared ledger, which then is exactly the
      ledger of the session it signs. */
  function DrawShared(category: Option<string>, difficulty: Option<string>, bank: Option<QuestionBank>,
                      cookie: Option<Token>, key: Key, nowMs: int, rand: real,
                      shared: UsedQuestions): (r: Served<DrawResult>)
    requires 0.0 <= rand < 1.0
    ensures r.answer == DrawWith(category, difficulty, bank, ReadShared(cookie, key, nowMs, shared), key, nowMs, rand)
    ensures !FromDefault(cookie, key, nowMs) ==>
              r.answer == Draw(category, difficulty, bank, cookie, key, nowMs, rand) && r.shared == shared
    ensures shared == map[] ==> r.answer == Draw(category, difficulty, bank, cookie, key, nowMs, rand)
    ensures FromDefault(cookie, key, nowMs) && r.answer.Drawn? ==> r.shared == r.answer.session.usedQuestions
    ensures !r.answer.Drawn? ==> r.shared == shared
  {
    var r := DrawWith(category, difficulty, bank, ReadShared(cookie, key, nowMs, shared), key, nowMs, rand);
    Served(r, if FromDefault(cookie, key, nowMs) && r.Drawn? then r.session.usedQuestions else shared)
  }

  /** GET /api/session: it answers `defaultSession` itself, shared ledger
      included, and writes nothing. */
  function GetShared(cookie: Option<Token>, key: Key, nowMs: int, shared: UsedQuestions): (r: Served<SessionResponse>)
    ensures r.shared == shared
    ensures r.answer.session == ReadShared(cookie, key, nowMs, shared)
    ensures r.answer.cookie == Get(cookie, key, nowMs).cookie
    ensures !FromDefault(cookie, key, nowMs) || shared == map[] ==> r.answer == Get(cookie, key, nowMs)
  {
    Served(Get(cookie, key, nowMs).(session := ReadShared(cookie, key, nowMs, shared)), shared)
  }

  /** POST /api/session. `mergeUsedQuestions` copies the base ledger only at
      the top level, so for a request that fell back to the default, every
      category the shared ledger already holds is merged in place: the
      shared ledger keeps its categories and takes their merged tables. */
  function PostShared(cookie: Option<Token>, body: Patch, key: Key, nowMs: int,
                      shared: UsedQuestions): (r: Served<SessionResponse>)
    ensures r.answer == PostWith(ReadShared(cookie, key, nowMs, shared), body, key, nowMs)
    ensures !FromDefault(cookie, key, nowMs) ==> r.answer == Post(cookie, body, key, nowMs) && r.shared == shared
    ensures shared == map[] ==> r.answer == Post(cookie, body, key, nowMs) && r.shared == map[]
    ensures FromDefault(cookie, key, nowMs) ==>
              && r.shared.Keys == shared.Keys
              && forall c :: c in shared ==> r.shared[c] == r.answer.session.usedQuestions[c]
  {
    var existing := ReadShared(cookie, key, nowMs, shared);
    var posted := PostWith(existing, body, key, nowMs);
    var merged := posted.session.usedQuestions;
    Served(posted, if FromDefault(cookie, key, nowMs) then map c | c in shared :: merged[c] else shared)
  }

  /** POST /api/session/replace: without a ledger in the body the answer holds
      the shared ledger; nothing is written into it. */
  function ReplaceShared(cookie: Option<Token>, body: Patch, key: Key, nowMs: int,
                         shared: UsedQuestions): (r: Served<SessionResponse>)
    ensures r.shared == shared
    ensures r.answer == ReplaceWith(ReadShared(cookie, key, nowMs, shared), body, key, nowMs)
    ensures !FromDefault(cookie, key, nowMs) || shared == map[] ==> r.answer == Replace(cookie, body, key, nowMs)
  {
    Served(ReplaceWith(ReadShared(cookie, key, nowMs, shared), body, key, nowMs), shared)
  }

  // ---------------------------------------------------------------------------
  // What the sharing does
  // ---------------------------------------------------------------------------

  /** In one server process, the second of two cookie-less draws from a slot
      never repeats the first: the first draw's index stays in the shared
      ledger, so the second one is recorded after it and one index fewer is
      left. The intended route answers the second draw as it answered the
      first (CookielessDrawStartsFresh). */
  lemma SecondCookielessDrawExcludesFirst(category: string, difficulty: string, bank: QuestionBank,
                                          key: Key, t1: int, t2: int, r1: real, r2: real)
    requires category != "" && difficulty != "" && 0.0 <= r1 < 1.0 && 0.0 <= r2 < 1.0
    requires Lookup(bank, category, difficulty).Some? && |Lookup(bank, category, difficulty).value| >= 2
    ensures var first := DrawShared(Some(category), Some(difficulty), Some(bank), None, key, t1, r1, map[]);
            var second := DrawShared(Some(category), Some(difficulty), Some(bank), None, key, t2, r2, first.shared);
            && first.answer.Drawn? && second.answer.Drawn?
            && second.answer.questionIndex != first.answer.questionIndex
            && Slot(second.shared, category, difficulty) == [first.answer.questionIndex, second.answer.questionIndex]
            && second.answer.remaining == second.answer.totalInPool - 2
            && Draw(Some(category), Some(difficulty), Some(bank), None, key, t2, r2).remaining
               == second.answer.totalInPool - 1
  {
    var pool := Lookup(bank, category, difficulty).value;
    var n := |pool|;
    var first := DrawShared(Some(category), Some(difficulty), Some(bank), None, key, t1, r1, map[]);
    CookielessDrawStartsFresh(category, difficulty, bank, key, t1, r1);
    var i := first.answer.questionIndex;
    assert first.shared == map[category := map[difficulty := [i]]];
    var before := Slot(first.shared, category, difficulty);
    assert before == [i];
    var fallback := Fallback(first.shared);
    var sel := Select(n, before, r2);
    UnservedCount(n, before);
    assert sel.index !in before && sel.slot == [i, sel.index];
    UnservedCount(n, sel.slot);
    assert sel.remaining == n - 2;
    DrawWithDrawn(category, difficulty, bank, fallback, key, t2, r2);
    var s := Recorded(fallback, category, difficulty, sel.index, sel.slot, pool[sel.index].waktu);
    assert Slot(s.usedQuestions, category, difficulty) == [i, sel.index];
    CookielessDrawStartsFresh(category, difficulty, bank, key, t2, r2);
  }

  /** A cookie-less POST writes the indices it brings into the shared ledger
      for every slot of a category the ledger already holds, so every later
      cookie-less request sees them. */
  lemma CookielessPostPollutes(body: Patch, key: Key, nowMs: int, shared: UsedQuestions,
                               category: string, difficulty: string)
    requires body.usedQuestions.Some? && category in shared
    requires category in body.usedQuestions.value && difficulty in body.usedQuestions.value[category]
    ensures var r := PostShared(None, body, key, nowMs, shared);
            Slot(r.shared, category, difficulty)
              == Union(Slot(shared, category, difficulty), body.usedQuestions.value[category][difficulty])
  {
    var r := PostShared(None, body, key, nowMs, shared);
    MergeSlots(shared, body.usedQuestions.value, category, difficulty);
    assert r.shared[category] == r.answer.session.usedQuestions[category];
  }

  /** After DELETE, a GET answers the default session with whatever ledger
      earlier cookie-less requests left in it. */
  lemma DeleteThenGetShared(cookie: Option<Token>, key: Key, now: int, shared: UsedQuestions)
    ensures GetShared(Carry(cookie, Delete()), key, now, shared)
         == Served(SessionResponse(Fallback(shared), KeepCookie), shared)
  {
  }

  /** A token that fails verification reads as the default session with the
      shared ledger, and GET deletes it. */
  lemma InvalidTokenShared(token: Token, key: Key, now: int, shared: UsedQuestions)
    requires token != Malformed("") && VerifySession(token, key, now).None?
    ensures GetShared(Some(token), key, now, shared)
         == Served(SessionResponse(Fallback(shared), DeleteCookie), shared)
  {
  }
}
