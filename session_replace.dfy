/** POST /api/session/replace (app/api/session/replace/route.ts): like the merging
    POST, except that a `usedQuestions` in the body replaces the stored ledger
    outright. Going back from a question uses it to un-consume an index that
    the union merge would otherwise keep. */
module SessionReplace {
  import opened Util
  import opened Session
  import opened SessionRoute

  /** Overwrite the fields the body carries; `usedQuestions` is the body's when
      it has one and the stored one otherwise; re-sign. */
  function Replace(cookie: Option<Token>, body: Patch, key: Key, nowMs: int): (r: SessionResponse)
    ensures r.cookie == SetCookie(SignSession(r.session, key, nowMs))
    ensures r.session == Overwrite(ReadSession(cookie, key, nowMs), body)
                           .(usedQuestions := r.session.usedQuestions)
    ensures body.usedQuestions.Some? ==> r.session.usedQuestions == body.usedQuestions.value
    ensures body.usedQuestions.None? ==> r.session.usedQuestions == ReadSession(cookie, key, nowMs).usedQuestions
  {
    ReplaceWith(ReadSession(cookie, key, nowMs), body, key, nowMs)
  }

  /** The replace once the stored session `existing` is read. */
  function ReplaceWith(existing: SessionPayload, body: Patch, key: Key, nowMs: int): (r: SessionResponse)
    ensures r.cookie == SetCookie(SignSession(r.session, key, nowMs))
    ensures r.session == Overwrite(existing, body).(usedQuestions := r.session.usedQuestions)
    ensures body.usedQuestions.Some? ==> r.session.usedQuestions == body.usedQuestions.value
    ensures body.usedQuestions.None? ==> r.session.usedQuestions == existing.usedQuestions
  {
    var replaced := Overwrite(existing, body)
      .(usedQuestions := body.usedQuestions.GetOr(existing.usedQuestions));
    SessionResponse(replaced, SetCookie(SignSession(replaced, key, nowMs)))
  }

  /** Without a ledger in the body the two POST routes store the same session. */
  lemma ReplaceAgreesWithoutLedger(cookie: Option<Token>, body: Patch, key: Key, nowMs: int)
    requires body.usedQuestions.None?
    ensures Replace(cookie, body, key, nowMs) == Post(cookie, body, key, nowMs)
  {
    MergeNothing(ReadSession(cookie, key, nowMs).usedQuestions);
  }

  /** A GET while the cookie set by the replace is fresh returns what it stored. */
  lemma ReplaceThenGet(cookie: Option<Token>, body: Patch, key: Key, postedAt: int, now: int)
    requires EpochSeconds(now) < EpochSeconds(postedAt) + MAX_AGE
    ensures var replaced := Replace(cookie, body, key, postedAt);
            Get(Carry(cookie, replaced.cookie), key, now) == SessionResponse(replaced.session, KeepCookie)
  {
  }

  /** Why the route exists: going back from IPA/Sulit index 2 with [0, 1, 2]
      stored, the merging POST of the shortened ledger [0, 1] keeps 2, while
      the replace removes it. */
  lemma ReplaceRetracts(cookie: Option<Token>, key: Key, nowMs: int)
    requires ReadSession(cookie, key, nowMs).usedQuestions == map["IPA" := map["Sulit" := [0, 1, 2]]]
    ensures var body := EmptyPatch.(usedQuestions := Some(map["IPA" := map["Sulit" := [0, 1]]]));
            && Slot(Post(cookie, body, key, nowMs).session.usedQuestions, "IPA", "Sulit") == [0, 1, 2]
            && Slot(Replace(cookie, body, key, nowMs).session.usedQuestions, "IPA", "Sulit") == [0, 1]
  {
    var stored := map["IPA" := map["Sulit" := [0, 1, 2]]];
    var incoming := map["IPA" := map["Sulit" := [0, 1]]];
    MergeSlots(stored, incoming, "IPA", "Sulit");
    assert Union([0, 1, 2], [0, 1]) == [0, 1, 2] by {
      DedupAbsorbs([0, 1, 2], [0, 1]);
    }
  }
}
