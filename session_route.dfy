/** The session store of app/api/session/route.ts: GET reads the cookie (falling
    back to the default session), POST overwrites the fields it is given and
    unions `usedQuestions` slot by slot, DELETE removes the cookie. The cookie
    is an optional token; what a response does to it is a CookieAction. */
module SessionRoute {
  import opened Util
  import opened Pools
  import opened Session

  // ---------------------------------------------------------------------------
  // The cookie carrier
  // ---------------------------------------------------------------------------

  /** `if (!token)`: a missing cookie and an empty one are both "no token". */
  predicate HasToken(cookie: Option<Token>) {
    cookie.Some? && cookie.value != Malformed("")
  }

  /** The session a request carries: its verified payload, or the default one
      when there is no token or it does not verify. */
  function ReadSession(cookie: Option<Token>, key: Key, nowMs: int): (s: SessionPayload)
    ensures !HasToken(cookie) ==> s == DefaultSession
    ensures HasToken(cookie) ==> s == VerifySession(cookie.value, key, nowMs).GetOr(DefaultSession)
  {
    if !HasToken(cookie) then DefaultSession
    else VerifySession(cookie.value, key, nowMs).GetOr(DefaultSession)
  }

  datatype CookieAction = KeepCookie | SetCookie(token: Token) | DeleteCookie

  /** The cookie the browser holds after a response. */
  function Carry(cookie: Option<Token>, action: CookieAction): Option<Token> {
    match action
    case KeepCookie => cookie
    case SetCookie(t) => Some(t)
    case DeleteCookie => None
  }

  datatype SessionResponse = SessionResponse(session: SessionPayload, cookie: CookieAction)

  // ---------------------------------------------------------------------------
  // Partial bodies and the shallow overwrite
  // ---------------------------------------------------------------------------

  /** A `Partial<SessionPayload>` body: None for a field the body leaves out;
      for a nullable field, Some(None) is an explicit `null`. */
  datatype Patch = Patch(
    state: Option<AppState>,
    category: Option<Option<string>>,
    difficulty: Option<Option<string>>,
    questionIndex: Option<Option<int>>,
    timerStartedAt: Option<Option<int>>,
    timerDuration: Option<Option<int>>,
    usedQuestions: Option<UsedQuestions>)

  const EmptyPatch := Patch(None, None, None, None, None, None, None)

  /** `{ ...existing, ...body }` for every field but `usedQuestions`, which both
      session routes set afterwards. */
  function Overwrite(existing: SessionPayload, body: Patch): (s: SessionPayload)
    ensures s.usedQuestions == existing.usedQuestions
  {
    SessionPayload(
      body.state.GetOr(existing.state),
      body.category.GetOr(existing.category),
      body.difficulty.GetOr(existing.difficulty),
      body.questionIndex.GetOr(existing.questionIndex),
      body.timerStartedAt.GetOr(existing.timerStartedAt),
      body.timerDuration.GetOr(existing.timerDuration),
      existing.usedQuestions)
  }

  /** A field the body carries takes the body's value; a field it leaves out keeps its value. */
  lemma OverwriteFields(existing: SessionPayload, body: Patch)
    ensures body.state.Some? ==> Overwrite(existing, body).state == body.state.value
    ensures body.state.None? ==> Overwrite(existing, body).state == existing.state
    ensures body.category.Some? ==> Overwrite(existing, body).category == body.category.value
    ensures body.category.None? ==> Overwrite(existing, body).category == existing.category
    ensures body.difficulty.Some? ==> Overwrite(existing, body).difficulty == body.difficulty.value
    ensures body.difficulty.None? ==> Overwrite(existing, body).difficulty == existing.difficulty
    ensures body.questionIndex.Some? ==> Overwrite(existing, body).questionIndex == body.questionIndex.value
    ensures body.questionIndex.None? ==> Overwrite(existing, body).questionIndex == existing.questionIndex
    ensures body.timerStartedAt.Some? ==> Overwrite(existing, body).timerStartedAt == body.timerStartedAt.value
    ensures body.timerStartedAt.None? ==> Overwrite(existing, body).timerStartedAt == existing.timerStartedAt
    ensures body.timerDuration.Some? ==> Overwrite(existing, body).timerDuration == body.timerDuration.value
    ensures body.timerDuration.None? ==> Overwrite(existing, body).timerDuration == existing.timerDuration
  {
  }

  // ---------------------------------------------------------------------------
  // Union of two index lists: Array.from(new Set([...existing, ...indices]))
  // ---------------------------------------------------------------------------

  /** The first occurrence of every element, in order (what a JavaScript Set keeps). */
  function Dedup(s: seq<int>): (r: seq<int>)
    ensures NoDup(r)
    ensures forall x :: x in r <==> x in s
    ensures |r| <= |s|
  {
    if s == [] then []
    else
      var d := Dedup(s[..|s| - 1]);
      if s[|s| - 1] in d then d else d + [s[|s| - 1]]
  }

  /** `Array.from(new Set([...existing, ...indices]))`: every index of either
      list, each once. */
  function Union(existing: seq<int>, indices: seq<int>): (r: seq<int>)
    ensures NoDup(r)
    ensures forall x :: x in r <==> x in existing || x in indices
    ensures |r| <= |existing| + |indices|
  {
    Dedup(existing + indices)
  }

  /** The elements of `b` that are not in `a`, in order. */
  function Fresh(b: seq<int>, a: seq<int>): (r: seq<int>)
    ensures forall x :: x in r <==> x in b && x !in a
  {
    if b == [] then []
    else if b[|b| - 1] in a then Fresh(b[..|b| - 1], a)
    else Fresh(b[..|b| - 1], a) + [b[|b| - 1]]
  }

  /** A duplicate-free list is its own first-occurrence list. */
  lemma {:induction false} DedupOfNoDup(s: seq<int>)
    requires NoDup(s)
    ensures Dedup(s) == s
  {
    if s != [] {
      var init := s[..|s| - 1];
      DedupOfNoDup(init);
      assert s[|s| - 1] !in init;
      assert init + [s[|s| - 1]] == s;
    }
  }

  /** The order of a union: the existing indices (first occurrences) first, then
      the incoming indices that are new, in incoming order. */
  lemma {:induction false} UnionOrder(a: seq<int>, b: seq<int>)
    ensures Union(a, b) == Dedup(a) + Dedup(Fresh(b, a))
  {
    if b == [] {
      assert a + b == a;
    } else {
      var init, x := b[..|b| - 1], b[|b| - 1];
      assert b == init + [x];
      UnionOrder(a, init);
      UnionStep(a, init, x);
    }
  }

  /** One incoming index more: the inductive step of UnionOrder. */
  lemma UnionStep(a: seq<int>, init: seq<int>, x: int)
    requires Union(a, init) == Dedup(a) + Dedup(Fresh(init, a))
    ensures Union(a, init + [x]) == Dedup(a) + Dedup(Fresh(init + [x], a))
  {
    var b := init + [x];
    var d := Dedup(a + init);
    assert (a + b)[..|a + b| - 1] == a + init;
    assert Dedup(a + b) == if x in d then d else d + [x];
    assert b[..|b| - 1] == init;
    if x !in a {
      FreshStep(a, init, x);
    }
  }

  lemma FreshStep(a: seq<int>, init: seq<int>, x: int)
    requires x !in a
    requires Union(a, init) == Dedup(a) + Dedup(Fresh(init, a))
    ensures var d := Dedup(a + init);
            Dedup(a) + Dedup(Fresh(init + [x], a)) == if x in d then d else d + [x]
  {
    var f := Fresh(init, a);
    FreshLast(a, init, x);
    DedupSnoc(f, x);
    SnocAfter(Dedup(a), Dedup(f), Dedup(a + init), x);
  }

  /** Adding `x` after `e` within `front + e`, when `x` is not in `front`. */
  lemma SnocAfter(front: seq<int>, e: seq<int>, d: seq<int>, x: int)
    requires d == front + e && x !in front
    ensures front + (if x in e then e else e + [x]) == if x in d then d else d + [x]
  {
    if x !in e {
      assert front + (e + [x]) == d + [x];
    }
  }

  /** Dedup of a list with one more element at the end. */
  lemma DedupSnoc(s: seq<int>, x: int)
    ensures Dedup(s + [x]) == if x in Dedup(s) then Dedup(s) else Dedup(s) + [x]
  {
    assert (s + [x])[..|s|] == s;
  }

  lemma FreshLast(a: seq<int>, init: seq<int>, x: int)
    requires x !in a
    ensures Fresh(init + [x], a) == Fresh(init, a) + [x]
  {
    var b := init + [x];
    assert b[..|b| - 1] == init;
  }

  /** Unioning already-recorded indices again changes nothing. */
  lemma {:induction false} DedupAbsorbs(u: seq<int>, b: seq<int>)
    requires NoDup(u)
    requires forall x :: x in b ==> x in u
    ensures Dedup(u + b) == u
  {
    if b == [] {
      assert u + b == u;
      DedupOfNoDup(u);
    } else {
      var init := b[..|b| - 1];
      DedupAbsorbs(u, init);
      assert (u + b)[..|u + b| - 1] == u + init;
      assert (u + b)[|u + b| - 1] == b[|b| - 1];
      assert b[|b| - 1] in b;
    }
  }

  /** Union is idempotent: merging the same incoming list twice equals merging it once. */
  lemma UnionIdempotent(a: seq<int>, b: seq<int>)
    ensures Union(Union(a, b), b) == Union(a, b)
  {
    DedupAbsorbs(Union(a, b), b);
  }

  /** Existing indices keep their order when they were already duplicate-free:
      the union extends them. */
  lemma UnionExtends(a: seq<int>, b: seq<int>)
    requires NoDup(a)
    ensures Union(a, b) == a + Dedup(Fresh(b, a))
  {
    UnionOrder(a, b);
    DedupOfNoDup(a);
  }

  // ---------------------------------------------------------------------------
  // mergeUsedQuestions
  // ---------------------------------------------------------------------------

  /** `m[key] ?? {}` */
  function CategoryOf(used: UsedQuestions, category: string): map<string, seq<int>> {
    if category in used then used[category] else map[]
  }

  /** `used[category]?.[difficulty] ?? []` */
  function Slot(used: UsedQuestions, category: string, difficulty: string): seq<int> {
    var diffs := CategoryOf(used, category);
    if difficulty in diffs then diffs[difficulty] else []
  }

  /** One category after the difficulties in `done` have been unioned in. */
  function MergeDiffsOn(base: map<string, seq<int>>, incoming: map<string, seq<int>>, done: set<string>)
    : map<string, seq<int>>
    requires done <= incoming.Keys
  {
    map d | d in base.Keys + done ::
      if d in done then Union(if d in base then base[d] else [], incoming[d]) else base[d]
  }

  /** The whole ledger after the categories in `done` have been merged. */
  function MergedUsedOn(base: UsedQuestions, incoming: UsedQuestions, done: set<string>): UsedQuestions
    requires done <= incoming.Keys
  {
    map c | c in base.Keys + done ::
      if c in done then MergeDiffsOn(CategoryOf(base, c), incoming[c], incoming[c].Keys) else base[c]
  }

  /** What `mergeUsedQuestions(base, incoming)` returns. */
  function MergedUsed(base: UsedQuestions, incoming: UsedQuestions): (r: UsedQuestions)
    ensures forall c :: c in r <==> c in base || c in incoming
    ensures forall c :: c in base && c !in incoming ==> r[c] == base[c]
  {
    MergedUsedOn(base, incoming, incoming.Keys)
  }

  /** `mergeUsedQuestions`: for each incoming category, `result[cat] ??= {}`, then
      for each incoming difficulty the slot becomes the union of what it held
      and what came in. */
  method MergeUsedQuestions(base: UsedQuestions, incoming: UsedQuestions) returns (result: UsedQuestions)
    ensures result == MergedUsed(base, incoming)
  {
    result := base;
    var todo := incoming.Keys;
    ghost var done: set<string> := {};
    while todo != {}
      invariant done <= incoming.Keys && todo == incoming.Keys - done
      invariant result == MergedUsedOn(base, incoming, done)
      decreases todo
    {
      var cat :| cat in todo;
      var diffs := if cat in result then result[cat] else map[];
      MergedUsedUntouched(base, incoming, done, cat);
      var rest := incoming[cat].Keys;
      ghost var doneD: set<string> := {};
      while rest != {}
        invariant doneD <= incoming[cat].Keys && rest == incoming[cat].Keys - doneD
        invariant diffs == MergeDiffsOn(CategoryOf(base, cat), incoming[cat], doneD)
        decreases rest
      {
        var diff :| diff in rest;
        MergeDiffsStep(CategoryOf(base, cat), incoming[cat], doneD, diff);
        var existing := if diff in diffs then diffs[diff] else [];
        diffs := diffs[diff := Union(existing, incoming[cat][diff])];
        doneD := doneD + {diff};
        rest := rest - {diff};
      }
      assert doneD == incoming[cat].Keys;
      MergedUsedStep(base, incoming, done, cat);
      result := result[cat := diffs];
      done := done + {cat};
      todo := todo - {cat};
    }
    assert done == incoming.Keys;
  }

  /** The inner loop's step: one more difficulty unioned in. */
  lemma MergeDiffsStep(base: map<string, seq<int>>, incoming: map<string, seq<int>>, done: set<string>, d: string)
    requires done <= incoming.Keys && d in incoming && d !in done
    ensures var before := MergeDiffsOn(base, incoming, done);
            before[d := Union(if d in before then before[d] else [], incoming[d])]
              == MergeDiffsOn(base, incoming, done + {d})
  {
  }

  /** A category not merged yet still holds its base value. */
  lemma MergedUsedUntouched(base: UsedQuestions, incoming: UsedQuestions, done: set<string>, c: string)
    requires done <= incoming.Keys && c !in done
    ensures var partial := MergedUsedOn(base, incoming, done);
            (if c in partial then partial[c] else map[]) == CategoryOf(base, c)
  {
  }

  /** The outer loop's step: one more category merged. */
  lemma MergedUsedStep(base: UsedQuestions, incoming: UsedQuestions, done: set<string>, c: string)
    requires done <= incoming.Keys && c in incoming && c !in done
    ensures MergedUsedOn(base, incoming, done)[c := MergeDiffsOn(CategoryOf(base, c), incoming[c], incoming[c].Keys)]
              == MergedUsedOn(base, incoming, done + {c})
  {
  }

  /** The merge slot by slot: a slot named in `incoming` becomes the union of
      both lists, duplicate-free; every other category and every other
      difficulty keeps exactly its base list. */
  lemma MergeSlots(base: UsedQuestions, incoming: UsedQuestions, c: string, d: string)
    ensures c in MergedUsed(base, incoming) <==> c in base || c in incoming
    ensures c in incoming && d in incoming[c] ==>
              Slot(MergedUsed(base, incoming), c, d) == Union(Slot(base, c, d), incoming[c][d])
              && NoDup(Slot(MergedUsed(base, incoming), c, d))
    ensures c !in incoming ==> Slot(MergedUsed(base, incoming), c, d) == Slot(base, c, d)
    ensures c !in incoming && c in base ==> MergedUsed(base, incoming)[c] == base[c]
    ensures c in incoming && d !in incoming[c] ==>
              (d in CategoryOf(MergedUsed(base, incoming), c) <==> d in CategoryOf(base, c))
              && Slot(MergedUsed(base, incoming), c, d) == Slot(base, c, d)
  {
  }

  /** The merge only grows: no index recorded before a POST is missing after it. */
  lemma MergeGrows(base: UsedQuestions, incoming: UsedQuestions, c: string, d: string, x: int)
    requires x in Slot(base, c, d)
    ensures x in Slot(MergedUsed(base, incoming), c, d)
  {
    MergeSlots(base, incoming, c, d);
  }

  /** Two tabs posting their marks one after the other lose neither: every index
      either tab recorded, and every index recorded before, is in the result. */
  lemma ConcurrentMarksSurvive(base: UsedQuestions, tab1: UsedQuestions, tab2: UsedQuestions,
                               c: string, d: string, x: int)
    requires x in Slot(base, c, d) || x in Slot(tab1, c, d) || x in Slot(tab2, c, d)
    ensures x in Slot(MergedUsed(MergedUsed(base, tab1), tab2), c, d)
  {
    var once := MergedUsed(base, tab1);
    MergeSlots(base, tab1, c, d);
    MergeSlots(once, tab2, c, d);
  }

  /** Merging nothing leaves the ledger as it was. */
  lemma MergeNothing(base: UsedQuestions)
    ensures MergedUsed(base, map[]) == base
  {
  }

  /** Replaying the same POST body is harmless: the merge is idempotent. */
  lemma MergeIdempotent(base: UsedQuestions, incoming: UsedQuestions)
    ensures MergedUsed(MergedUsed(base, incoming), incoming) == MergedUsed(base, incoming)
  {
    var once := MergedUsed(base, incoming);
    var twice := MergedUsed(once, incoming);
    forall c | c in twice
      ensures c in once && twice[c] == once[c]
    {
      if c in incoming {
        MergeDiffsIdempotent(CategoryOf(base, c), incoming[c]);
        assert CategoryOf(once, c) == MergeDiffsOn(CategoryOf(base, c), incoming[c], incoming[c].Keys);
      }
    }
    assert twice.Keys == once.Keys;
  }

  /** One category merged twice with the same incoming difficulties is merged once. */
  lemma MergeDiffsIdempotent(base: map<string, seq<int>>, incoming: map<string, seq<int>>)
    ensures var once := MergeDiffsOn(base, incoming, incoming.Keys);
            MergeDiffsOn(once, incoming, incoming.Keys) == once
  {
    var once := MergeDiffsOn(base, incoming, incoming.Keys);
    var twice := MergeDiffsOn(once, incoming, incoming.Keys);
    forall d | d in twice
      ensures d in once && twice[d] == once[d]
    {
      if d in incoming {
        UnionIdempotent(if d in base then base[d] else [], incoming[d]);
      }
    }
    assert twice.Keys == once.Keys;
  }

  // ---------------------------------------------------------------------------
  // The three handlers
  // ---------------------------------------------------------------------------

  /** GET: the session the cookie carries, or the default one; a token that fails
      verification is also deleted. */
  function Get(cookie: Option<Token>, key: Key, nowMs: int): (r: SessionResponse)
    ensures r.session == ReadSession(cookie, key, nowMs)
    ensures r.cookie == DeleteCookie
            <==> HasToken(cookie) && VerifySession(cookie.value, key, nowMs).None?
    ensures r.cookie != DeleteCookie ==> r.cookie == KeepCookie
  {
    if !HasToken(cookie) then SessionResponse(DefaultSession, KeepCookie)
    else match VerifySession(cookie.value, key, nowMs)
      case None => SessionResponse(DefaultSession, DeleteCookie)
      case Some(s) => SessionResponse(s, KeepCookie)
  }

  /** POST once the stored session `existing` is read: overwrite the fields the
      body carries, union `usedQuestions`, re-sign. */
  function PostWith(existing: SessionPayload, body: Patch, key: Key, nowMs: int): (r: SessionResponse)
    ensures r.cookie == SetCookie(SignSession(r.session, key, nowMs))
    ensures r.session == Overwrite(existing, body).(usedQuestions := r.session.usedQuestions)
    ensures forall c :: c in r.session.usedQuestions <==> c in existing.usedQuestions || c in body.usedQuestions.GetOr(map[])
  {
    var merged := Overwrite(existing, body)
      .(usedQuestions := MergedUsed(existing.usedQuestions, body.usedQuestions.GetOr(map[])));
    SessionResponse(merged, SetCookie(SignSession(merged, key, nowMs)))
  }

  /** POST: the session the request carries, overwritten and merged, re-signed. */
  function Post(cookie: Option<Token>, body: Patch, key: Key, nowMs: int): (r: SessionResponse)
    ensures r.cookie == SetCookie(SignSession(r.session, key, nowMs))
  {
    PostWith(ReadSession(cookie, key, nowMs), body, key, nowMs)
  }

  /** DELETE: remove the cookie. */
  function Delete(): (a: CookieAction)
    ensures a.DeleteCookie?
  {
    DeleteCookie
  }

  /** What POST does to the session the request carried: the named fields are
      overwritten, and `usedQuestions` is the union merge of the body's
      ledger into the carried one (untouched when the body has none). */
  lemma PostMerges(cookie: Option<Token>, body: Patch, key: Key, nowMs: int)
    ensures var existing := ReadSession(cookie, key, nowMs);
            var s := Post(cookie, body, key, nowMs).session;
            && s == Overwrite(existing, body).(usedQuestions := s.usedQuestions)
            && s.usedQuestions == MergedUsed(existing.usedQuestions, body.usedQuestions.GetOr(map[]))
            && (body.usedQuestions.None? ==> s.usedQuestions == existing.usedQuestions)
  {
    MergeNothing(ReadSession(cookie, key, nowMs).usedQuestions);
  }

  /** A GET while the cookie set by a POST is fresh returns what the POST stored. */
  lemma PostThenGet(cookie: Option<Token>, body: Patch, key: Key, postedAt: int, now: int)
    requires EpochSeconds(now) < EpochSeconds(postedAt) + MAX_AGE
    ensures var posted := Post(cookie, body, key, postedAt);
            Get(Carry(cookie, posted.cookie), key, now) == SessionResponse(posted.session, KeepCookie)
  {
  }

  /** After DELETE, a GET sees the default session and leaves the cookie alone. */
  lemma DeleteThenGet(cookie: Option<Token>, key: Key, now: int)
    ensures Get(Carry(cookie, Delete()), key, now) == SessionResponse(DefaultSession, KeepCookie)
  {
  }

  /** A token that fails verification reads as the default session, and GET deletes it. */
  lemma InvalidTokenResets(token: Token, key: Key, now: int)
    requires token != Malformed("") && VerifySession(token, key, now).None?
    ensures Get(Some(token), key, now) == SessionResponse(DefaultSession, DeleteCookie)
    ensures ReadSession(Some(token), key, now) == DefaultSession
  {
  }

  /** The worked example: IPA/Sulit holding [0, 1], merged with [1, 2], holds [0, 1, 2]. */
  lemma MergeExample()
    ensures MergedUsed(map["IPA" := map["Sulit" := [0, 1]]], map["IPA" := map["Sulit" := [1, 2]]])
         == map["IPA" := map["Sulit" := [0, 1, 2]]]
  {
    var base := map["IPA" := map["Sulit" := [0, 1]]];
    var incoming := map["IPA" := map["Sulit" := [1, 2]]];
    UnionExample();
    var diffs := MergeDiffsOn(base["IPA"], incoming["IPA"], {"Sulit"});
    assert diffs == map["Sulit" := [0, 1, 2]];
    var merged := MergedUsed(base, incoming);
    assert merged.Keys == {"IPA"};
    assert merged["IPA"] == diffs;
  }

  /** [0, 1] united with [1, 2] is [0, 1, 2]. */
  lemma UnionExample()
    ensures Union([0, 1], [1, 2]) == [0, 1, 2]
  {
    UnionExtends([0, 1], [1, 2]);
    FreshExample();
    DedupOfNoDup([2]);
  }

  lemma FreshExample()
    ensures Fresh([1, 2], [0, 1]) == [2]
  {
    assert [1, 2][..1] == [1];
    assert [1][..0] == [];
  }
}
