/**
 The push-confirmation engine: a handle is used once, a wait is bounded, a success leaves a bearer
 in the cache.
 */
module Confirmation {
  import opened Options
  import opened Wire
  import opened Engine
  import opened Ledger
  import opened Exchange
  import opened Acquisition

  // -------------------------------------------------- handles in a history

  /** Begun here for this scope and event; not yet answered unless terminal. */
  predicate Open(log: History, h: Handle) {
    && Begun(h.id, h.scope, h.eventid) in log
    && (!h.terminal ==> Answers(log, h.id) == 0)
  }

  lemma {:induction false} BegunBelow(log: History, h: nat, scope: string, eventid: string)
    requires WellSourced(log) && Begun(h, scope, eventid) in log
    ensures h < |log|
  {
    if Last(log) != Begun(h, scope, eventid) {
      assert log == Front(log) + [Last(log)];
      BegunBelow(Front(log), h, scope, eventid);
    }
  }

  /** A handle not yet begun has no answer. */
  lemma {:induction false} NoEarlyAnswer(log: History, h: nat)
    requires WellSourced(log) && h >= |log|
    ensures Answers(log, h) == 0
  {
    if |log| > 0 {
      NoEarlyAnswer(Front(log), h);
      if Last(log).Answered? && Last(log).handle == h {
        var scope, eventid :| Begun(h, scope, eventid) in Front(log);
        BegunBelow(Front(log), h, scope, eventid);
      }
    }
  }

  /** At most one conclusive answer per handle. */
  lemma {:induction false} AnsweredOnce(log: History, h: nat)
    requires WellSourced(log)
    ensures Answers(log, h) <= 1
  {
    if |log| > 0 {
      AnsweredOnce(Front(log), h);
    }
  }

  /** Each redemption follows an approval of the same handle at once. */
  lemma {:induction false} RedeemedAfterApproval(log: History, h: nat)
    requires WellSourced(log)
    ensures Redemptions(log, h) + (if |log| > 0 && Approves(Last(log), h) then 1 else 0) <= Approvals(log, h)
  {
    if |log| > 0 {
      RedeemedAfterApproval(Front(log), h);
    }
  }

  predicate Approves(e: Event, h: nat) {
    e.Answered? && e.handle == h && e.reply.Some?
  }

  function Approvals(log: History, h: nat): nat {
    if |log| == 0 then 0 else Approvals(Front(log), h) + (if Approves(Last(log), h) then 1 else 0)
  }

  lemma {:induction false} ApprovalsAreAnswers(log: History, h: nat)
    ensures Approvals(log, h) <= Answers(log, h)
    ensures Answered(h, None) in log ==> Approvals(log, h) < Answers(log, h)
  {
    if |log| > 0 {
      ApprovalsAreAnswers(Front(log), h);
      assert log == Front(log) + [Last(log)];
    }
  }

  /**
   * Over any history a context can have: an authreply is redeemed at most once, only for a handle
   * that was begun and approved, and never for a denied one.
   */
  lemma {:induction false} RedeemedAtMostOnce(log: History, h: nat)
    requires WellSourced(log)
    ensures Redemptions(log, h) <= 1
    ensures Answered(h, None) in log ==> Redemptions(log, h) == 0
    ensures Redemptions(log, h) > 0 ==> Approvals(log, h) == 1
  {
    AnsweredOnce(log, h);
    RedeemedAfterApproval(log, h);
    ApprovalsAreAnswers(log, h);
  }

  /** Answers of the handles that existed before, `except` for one, are as they were. */
  ghost predicate OthersKept(a: History, b: History, except: nat) {
    forall x: nat :: x < |a| && x != except ==> Answers(b, x) == Answers(a, x)
  }

  // -------------------------------------------------------------- spending

  /**
   * At most so many sends and budgeted check-ins, the session-start check-in apart, and no dispatch
   * under a bearer.
   */
  predicate Spends(s: State, s': State, sends: nat, budgeted: nat) {
    && Onward(s, s')
    && Owns(s'.log) == Owns(s.log)
    && Usage(s'.log).sends + 3 * Fired(s) <= Usage(s.log).sends + sends + 3 * Fired(s')
    && Usage(s'.log).budgeted <= Usage(s.log).budgeted + budgeted
  }

  lemma QuietSpends(s: State, s': State, n: nat, b: nat)
    requires Quietly(s, s', n, b)
    ensures Spends(s, s', n, b)
  {
    AnonymousKeeps(s.log, s'.log);
  }

  /** What an unauthenticated exchange can report. */
  predicate WireRc(rc: Rc) {
    rc != AuthExpired && rc != UserRejected && rc != ConfirmTimeout
  }

  lemma RawRc(w: Env, s: State, verb: Method, path: string, body: Body, tls: Tls)
    ensures WireRc(RequestRaw(w, s, verb, path, body, None, tls).rc)
  {
  }

  lemma JsonRc(w: Env, s: State, verb: Method, path: string, body: Body, tls: Tls)
    ensures WireRc(RequestJson(w, s, verb, path, body, None, tls).rc)
  {
    RawRc(w, s, verb, path, body, tls);
  }

  lemma ExtPostRc(w: Env, s: State, path: string, body: Body)
    ensures WireRc(ExtLoginPost(w, s, path, body).rc)
  {
    var g := RequestJson(w, s, POST, path, body, None, Default);
    JsonRc(w, s, POST, path, body, Default);
    JsonRc(w, CheckinRun(w, g.s, ExtRecovery).s, POST, path, body, Default);
  }

  lemma ExtTokenRc(w: Env, s: State, reply: string)
    ensures WireRc(ExtToken(w, s, reply).rc)
  {
    ExtPostRc(w, ClearError(s), EXT_TOKEN_PATH, Object(map["authreply" := Str(reply)]));
  }

  // ----------------------------------------------------------------- begin

  lemma {:induction false} BeginSteps(w: Env, s: State, url: Option<string>, scope: string, ctxStr: Option<string>,
        note: Option<string>)
    requires Inv(w, s)
    ensures var b := ConfirmBegin(w, s, url, scope, ctxStr, note);
            && Inv(w, b.s) && Spends(s, b.s, PushCost(w), 0)
            && b.s.auth == s.auth
            && OthersKept(s.log, b.s.log, |s.log|)
            && (b.rc == Ok ==>
                  && b.handle.value.scope == scope && !b.handle.value.terminal
                  && |s.log| <= b.handle.value.id && |s.log| < |b.s.log|
                  && Open(b.s.log, b.handle.value))
  {
    hide Inv, PushRecovering, PushCost, Anonymously, Usage, Answers, Owns;
    var p := PushRecovering(w, s, url, scope, ctxStr, note);
    PushQuiet(w, s, url, scope, ctxStr, note);
    QuietSpends(s, p.s, PushCost(w), 0);
    QuietInv(w, s, p.s, PushCost(w), 0);
    AnonymousKeeps(s.log, p.s.log);
    if p.rc == Ok {
      var e := Begun(|p.s.log|, scope, p.eventid);
      Append(p.s.log, e);
      InvSourced(w, p.s);
      NoEarlyAnswer(p.s.log, |p.s.log|);
      NoteInv(w, p.s, e);
    }
  }

  lemma InvSourced(w: Env, s: State)
    requires Inv(w, s)
    ensures WellSourced(s.log)
  {
  }

  /** A justified event that stores nothing and logs nobody in keeps the invariant. */
  lemma {:induction false} NoteInv(w: Env, s: State, e: Event)
    requires Inv(w, s) && Justified(s.log, e)
    requires !e.Stored? && !e.LoggedIn? && !e.CheckinBegan?
    ensures Inv(w, Note(s, e))
  {
    Append(s.log, e);
    if s.auth.Some? {
      var cache := s.auth.value.cache;
      forall k | k in cache
        ensures HasStored(s.log + [e], k, cache[k].token)
      {
        StoredStays(s.log, s.log + [e], k, cache[k].token);
      }
    }
  }

  // ------------------------------------------------------------------ poll

  lemma CheckQuiet(w: Env, s: State, url: Option<string>, eventid: string)
    ensures Quietly(s, EventCheck(w, s, url, eventid).s, 1, 0)
    ensures WireRc(EventCheck(w, s, url, eventid).rc)
  {
    hide Quietly;
    var s1 := ClearError(s);
    var a := NotifySend(w, s1, GET, url, CheckPath(eventid), NoBody);
    NotifyQuiet(w, s1, GET, url, CheckPath(eventid), NoBody);
    QuietlyWithError(s, s1, a.s, 1);
    var c := EventCheck(w, s, url, eventid);
    assert c.s == SetError(s, 0, false) || c.s == a.s || c.s == SetError(a.s, a.status, false);
    assert WireRc(a.rc);
  }

  /** An answered check is one broker poll for this event, with that answer. */
  lemma CheckAnswer(w: Env, s: State, url: Option<string>, eventid: string)
    ensures var c := EventCheck(w, s, url, eventid);
            c.rc == Ok ==>
              && Usage(c.s.log).sends == Usage(s.log).sends + 1
              && |c.s.log| > 0
              && (c.verdict.Denied? ==> IsConclusivePoll(Last(c.s.log), eventid, None))
              && (c.verdict.Approved? ==> IsConclusivePoll(Last(c.s.log), eventid, Some(c.verdict.reply)))
  {
    hide Justified, BrokerBase, MapHttpStatus, Usage, Answers, Owns, WellSourced, Mints, MintedOncePerLogin;
    var s1 := ClearError(s);
    var req := Request(GET, BrokerBase(url) + CheckPath(eventid), NoBody, None, Verify, false);
    Append(s1.log, Sent(req, None, Outgoing(w, s1, req)));
    assert (BrokerBase(url) + CheckPath(eventid))[|BrokerBase(url)|..] == CheckPath(eventid);
  }

  /** The one request of a check. */
  function CheckRequest(url: Option<string>, eventid: string): Request {
    var base := if url.Some? then url.value else "https://api.encedo.com/notify";
    Request(GET, base + "/event/check/" + eventid, NoBody, None, Verify, false)
  }

  /** What an outcome of that request says: a verdict, or the result the check fails with. */
  predicate SaysPending(o: Outcome) {
    o.Reply? && o.status == 202
  }

  predicate SaysDenied(o: Outcome) {
    o.Success() && o.status != 202 && o.body.Object? && "deny" in o.body.fields
  }

  predicate SaysApproved(o: Outcome, reply: string) {
    && o.Success() && o.status != 202 && o.body.Object? && "deny" !in o.body.fields
    && "authreply" in o.body.fields && o.body.fields["authreply"] == Str(reply)
  }

  /** A check that can be made at all: a broker to ask, and an event that fits the path buffer. */
  predicate Checkable(url: Option<string>, eventid: string) {
    url != Some("") && |"/event/check/"| + |eventid| < 160
  }

  /**
   * One check, decided by the outcome of its one request and by nothing else: 202 is pending, a `deny`
   * member a denial whatever else is there, a text `authreply` without it an approval with that text,
   * any other 2xx PROTOCOL, any other status its own result.
   */
  lemma {:induction false} CheckVerdict(w: Env, s: State, url: Option<string>, eventid: string)
    ensures var c := EventCheck(w, s, url, eventid);
            var req := CheckRequest(url, eventid);
            var o := w.device(s.log, req);
            if !Checkable(url, eventid) then c.rc == Arg && c.s.log == s.log
            else
              && c.s == s.(log := s.log + [Sent(req, None, o)], err := c.s.err)
              && (SaysPending(o) <==> c.rc == Ok && c.verdict == Pending)
              && (SaysDenied(o) <==> c.rc == Ok && c.verdict == Denied)
              && (forall reply :: SaysApproved(o, reply) <==> c.rc == Ok && c.verdict == Approved(reply))
              && (o.Success() && c.rc != Ok ==> c.rc == Protocol && c.s.err.status == o.status)
              && (o.Reply? && !o.Success() ==> MeansStatus(c.rc, o.status) && c.s.err.status == o.status)
              && (o.Failed? ==> c.rc == o.rc)
  {
    CheckedPath(url, eventid);
    hide BrokerBase, CheckPath, CheckRequest;
  }

  lemma CheckedPath(url: Option<string>, eventid: string)
    ensures var req := Request(GET, BrokerBase(url) + CheckPath(eventid), NoBody, None, Verify, false);
            CheckRequest(url, eventid) == req
    ensures Checkable(url, eventid) <==> |BrokerBase(url)| > 0 && |CheckPath(eventid)| < 160
  {
    var base := BrokerBase(url);
    assert base + "/event/check/" + eventid == base + CheckPath(eventid);
  }

  /** And one poll of a usable handle: a denial finishes it as USER_REJECTED, an approval is redeemed. */
  lemma {:induction false} PollVerdict(w: Env, s: State, h: Handle)
    requires !h.terminal && Checkable(h.url, h.eventid)
    ensures var p := ConfirmPoll(w, s, h);
            var req := CheckRequest(h.url, h.eventid);
            var o := w.device(s.log, req);
            var sent := s.log + [Sent(req, None, o)];
            && (SaysPending(o) ==> p.rc == Ok && !p.approved && p.h == h && p.s.log == sent)
            && (SaysDenied(o) ==>
                  && p.rc == UserRejected && !p.approved && p.h == h.(terminal := true) && p.s.auth == s.auth
                  && p.s.log == sent + [Answered(h.id, None)])
            && (forall reply :: SaysApproved(o, reply) ==>
                  p.h == h.(terminal := true) && sent + [Answered(h.id, Some(reply)), Redeemed(h.id)] <= p.s.log)
            && (!SaysPending(o) && !SaysDenied(o) && (forall reply :: !SaysApproved(o, reply)) ==>
                  p.rc != Ok && p.rc != UserRejected && !p.approved && p.h == h && p.s.log == sent)
  {
    hide EventCheck, ExtToken, CacheSeed, CheckRequest, SaysPending, SaysDenied, SaysApproved;
    CheckVerdict(w, s, h.url, h.eventid);
    CheckQuiet(w, s, h.url, h.eventid);
    var c := EventCheck(w, s, h.url, h.eventid);
    if c.rc == Ok && c.verdict.Approved? {
      RedeemingGrows(w, Note(Note(c.s, Answered(h.id, Some(c.verdict.reply))), Redeemed(h.id)), h, c.verdict.reply);
      assert c.s.log + [Answered(h.id, Some(c.verdict.reply))] + [Redeemed(h.id)]
          == c.s.log + [Answered(h.id, Some(c.verdict.reply)), Redeemed(h.id)];
    }
  }

  lemma {:induction false} RedeemingGrows(w: Env, s: State, h: Handle, reply: string)
    ensures var t := ExtToken(w, s, reply);
            s.log <= t.s.log && s.log <= CacheSeed(w, t.s, h.scope, t.token, ByConfirm(h.id)).log
  {
    hide ExtToken, Quietly, Claim, CacheExpiry;
    ExtTokenQuiet(w, s, reply);
    var t := ExtToken(w, s, reply);
    QuietLonger(s, t.s, ExtCost(w), 0);
  }

  /** A wait ends with the first poll that does not leave it pending, as that poll did. */
  lemma {:induction false} WaitEndsAsPoll(w: Env, s: State, h: Handle, timeout: int)
    requires timeout > 0
    ensures var p := ConfirmPoll(w, s, h);
            p.rc != Ok || p.approved ==> ConfirmWait(w, s, h, timeout) == p
  {
    hide ConfirmPoll;
  }

  /** The bearer of an approved confirmation, stored under the scope it was begun for. */
  predicate Confirmed(s': State, h: Handle) {
    && Cached(s', h.scope).Some?
    && |s'.log| > 0
    && Last(s'.log) == Stored(h.scope, Cached(s', h.scope).value.token, ByConfirm(h.id))
  }

  /** Everything one poll may do; a usable handle ends exactly when a conclusive answer was recorded. */
  ghost predicate PollOutcome(w: Env, s: State, h: Handle, p: Polled) {
    && Inv(w, p.s) && Spends(s, p.s, 1 + ExtCost(w), 0)
    && p.h == h.(terminal := p.h.terminal) && (h.terminal ==> p.h.terminal)
    && Open(p.s.log, p.h)
    && (!h.terminal ==> Answers(p.s.log, h.id) == if p.h.terminal then 1 else 0)
    && OthersKept(s.log, p.s.log, h.id)
    && Mobile(p.s) == Mobile(s)
    && Usage(p.s.log).slept == Usage(s.log).slept
    && p.rc != ConfirmTimeout && p.rc != AuthExpired
    && (h.terminal ==> p.rc == Arg && p.s.log == s.log && p.s.auth == s.auth)
    && (!p.h.terminal ==> Spends(s, p.s, 1, 0))
    && (p.approved ==> p.rc == Ok && p.h.terminal && Confirmed(p.s, h))
    && (!p.approved ==> p.s.auth == s.auth)
    && (p.rc == Ok && !p.approved ==> !p.h.terminal && Usage(p.s.log).sends == Usage(s.log).sends + 1)
    && (p.rc == UserRejected ==> p.h.terminal && Last(p.s.log) == Answered(h.id, None))
  }

  lemma {:induction false} DeniedSteps(w: Env, s: State, h: Handle, c: State)
    requires Inv(w, s) && Open(s.log, h) && !h.terminal
    requires Quietly(s, c, 1, 0) && |c.log| > 0 && IsConclusivePoll(Last(c.log), h.eventid, None)
    ensures var s' := SetError(Note(c, Answered(h.id, None)), 0, false);
            PollOutcome(w, s, h, Polled(UserRejected, false, h.(terminal := true), s'))
  {
    var e := Answered(h.id, None);
    QuietInv(w, s, c, 1, 0);
    AnonymousKeeps(s.log, c.log);
    Append(c.log, e);
    assert Begun(h.id, h.scope, h.eventid) in c.log;
    NoteInv(w, c, e);
  }

  /** An approval and the start of its redemption on record. */
  lemma {:induction false} ApprovalNoted(w: Env, s: State, h: Handle, c: State, reply: string)
    requires Inv(w, s) && Open(s.log, h) && !h.terminal
    requires Quietly(s, c, 1, 0) && |c.log| > 0 && IsConclusivePoll(Last(c.log), h.eventid, Some(reply))
    ensures var s1 := Note(Note(c, Answered(h.id, Some(reply))), Redeemed(h.id));
            && Inv(w, s1) && Spends(s, s1, 1, 0) && OthersKept(s.log, s1.log, h.id)
            && Usage(s1.log).slept == Usage(s.log).slept && Answers(s1.log, h.id) == 1
            && s1.auth == s.auth
            && Begun(h.id, h.scope, h.eventid) in s1.log
            && Answered(h.id, Some(reply)) in s1.log && Redeemed(h.id) in s1.log
  {
    hide Inv, Anonymously, Usage, Answers, Owns, WellSourced, IsConclusivePoll;
    var e1, e2 := Answered(h.id, Some(reply)), Redeemed(h.id);
    QuietInv(w, s, c, 1, 0);
    QuietSpends(s, c, 1, 0);
    AnonymousKeeps(s.log, c.log);
    Append(c.log, e1);
    Append(c.log + [e1], e2);
    assert Begun(h.id, h.scope, h.eventid) in c.log;
    NoteInv(w, c, e1);
    NoteInv(w, Note(c, e1), e2);
  }

  /** From an approval to the redemption's reply. */
  lemma {:induction false} ApprovedSteps(w: Env, s: State, h: Handle, c: State, reply: string)
    requires Inv(w, s) && Open(s.log, h) && !h.terminal
    requires Quietly(s, c, 1, 0) && |c.log| > 0 && IsConclusivePoll(Last(c.log), h.eventid, Some(reply))
    ensures var s1 := Note(Note(c, Answered(h.id, Some(reply))), Redeemed(h.id));
            var t := ExtToken(w, s1, reply);
            && Inv(w, t.s) && Spends(s, t.s, 1 + ExtCost(w), 0)
            && OthersKept(s.log, t.s.log, h.id)
            && Usage(t.s.log).slept == Usage(s.log).slept && Answers(t.s.log, h.id) == 1
            && t.s.auth == s.auth && WireRc(t.rc)
            && Begun(h.id, h.scope, h.eventid) in t.s.log
            && (t.rc == Ok ==> |t.s.log| > 0 && AnsweredWith(t.s.log, h.id, h.scope, t.token))
  {
    hide Inv, Anonymously, Usage, Answers, Owns, WellSourced, ExtToken, IsRedemption, IsConclusivePoll, ExtCost;
    ApprovalNoted(w, s, h, c, reply);
    var s1 := Note(Note(c, Answered(h.id, Some(reply))), Redeemed(h.id));
    var t := ExtToken(w, s1, reply);
    ExtTokenQuiet(w, s1, reply);
    ExtTokenRc(w, s1, reply);
    QuietInv(w, s1, t.s, ExtCost(w), 0);
    QuietSpends(s1, t.s, ExtCost(w), 0);
    AnonymousKeeps(s1.log, t.s.log);
    SpendsThen(s, s1, t.s, 1, 0, ExtCost(w), 0);
  }

  /** A seed stores the bearer under the scope given and touches no other entry. */
  predicate Seeded(s: State, s': State, scope: string, token: string, source: Source) {
    && s'.log == s.log + [Stored(scope, token, source)]
    && s'.auth.Some? && scope in s'.auth.value.cache && s'.auth.value.cache[scope].token == token
    && s'.certRefreshed == s.certRefreshed && s'.checkinDone == s.checkinDone && s'.inCheckin == s.inCheckin
    && (if s.auth.Some? then
          && s'.auth.value.cache - {scope} == s.auth.value.cache - {scope}
          && s'.auth.value == s.auth.value.(cache := s'.auth.value.cache)
        else
          && s'.auth.value.cache.Keys == {scope}
          && s'.auth.value == Session(None, false, false, s'.auth.value.cache))
  }

  lemma StoreSeeds(s: State, scope: string, token: string, exp: int, source: Source)
    ensures Seeded(s, Store(s, scope, token, exp, source), scope, token, source)
  {
    var cache := if s.auth.Some? then s.auth.value.cache else map[];
    assert cache[scope := Bearer(token, exp)] - {scope} == cache - {scope};
  }

  lemma SeedStores(w: Env, s: State, scope: string, token: string, source: Source)
    ensures var s' := CacheSeed(w, s, scope, token, source);
            && Seeded(s, s', scope, token, source) && s.ticks <= s'.ticks
            && ExpiresFrom(w, s'.auth.value.cache[scope], w.clock(s.ticks))
            && (ExpiryClaim(w, token).None? ==> s.ticks < s'.ticks)
  {
    StoredExpires(w, token, 0);
    StoredExpires(w, token, w.clock(s.ticks));
    if Claim(w, token, "exp").Some? {
      StoreSeeds(s, scope, token, CacheExpiry(w, token, 0), source);
    } else {
      StoreSeeds(Tick(s), scope, token, CacheExpiry(w, token, w.clock(s.ticks)), source);
    }
  }

  /** Seeding the cache with a bearer from outside the passphrase exchange. */
  lemma {:induction false} SeedSteps(w: Env, s: State, scope: string, token: string, source: Source)
    requires Inv(w, s) && !source.ByPost? && Justified(s.log, Stored(scope, token, source))
    ensures var s' := CacheSeed(w, s, scope, token, source);
            && Inv(w, s') && Spends(s, s', 0, 0) && Mobile(s') == Mobile(s)
            && s'.log == s.log + [Stored(scope, token, source)]
            && Cached(s', scope).Some? && Cached(s', scope).value.token == token
            && Usage(s'.log).slept == Usage(s.log).slept
            && forall x: nat :: Answers(s'.log, x) == Answers(s.log, x)
  {
    hide CacheSeed, ExpiryClaim, ExpiresFrom, Timed, HasStored, Answers, Owns, Usage, WellSourced;
    var s' := CacheSeed(w, s, scope, token, source);
    SeedStores(w, s, scope, token, source);
    Append(s.log, Stored(scope, token, source));
    NewestStored(s.log, scope, token, source);
    ExpiresTimed(w, s'.auth.value.cache[scope], s.ticks, s'.ticks);
    if s.auth.Some? {
      CacheStays(w, s, s', scope, Stored(scope, token, source));
    }
  }

  /** A check without a conclusive answer leaves the handle open. */
  lemma {:induction false} InconclusiveSteps(w: Env, s: State, h: Handle, c: Check)
    requires Inv(w, s) && Open(s.log, h) && !h.terminal
    requires Quietly(s, c.s, 1, 0) && WireRc(c.rc) && (c.rc == Ok ==> Usage(c.s.log).sends == Usage(s.log).sends + 1)
    ensures PollOutcome(w, s, h, Polled(c.rc, false, h, c.s))
  {
    QuietInv(w, s, c.s, 1, 0);
    AnonymousKeeps(s.log, c.s.log);
  }

  lemma RedeemedOutcome(w: Env, s: State, h: Handle, m: State, s': State, token: string)
    requires Open(s.log, h) && !h.terminal
    requires Spends(s, m, 1 + ExtCost(w), 0) && OthersKept(s.log, m.log, h.id)
    requires Usage(m.log).slept == Usage(s.log).slept && m.auth == s.auth && Answers(m.log, h.id) == 1
    requires Begun(h.id, h.scope, h.eventid) in m.log
    requires Inv(w, s') && Spends(m, s', 0, 0) && Mobile(s') == Mobile(m)
    requires s'.log == m.log + [Stored(h.scope, token, ByConfirm(h.id))]
    requires Cached(s', h.scope).Some? && Cached(s', h.scope).value.token == token
    requires Usage(s'.log).slept == Usage(m.log).slept
    requires forall x: nat :: Answers(s'.log, x) == Answers(m.log, x)
    ensures PollOutcome(w, s, h, Polled(Ok, true, h.(terminal := true), s'))
  {
    hide Inv, Usage, Answers, Owns, ExtCost;
  }

  /** Redemption succeeded: the bearer goes under the scope of the handle. */
  lemma {:induction false} RedeemedSteps(w: Env, s: State, h: Handle, m: State, token: string)
    requires Inv(w, s) && Open(s.log, h) && !h.terminal
    requires Inv(w, m) && Spends(s, m, 1 + ExtCost(w), 0) && OthersKept(s.log, m.log, h.id)
    requires Usage(m.log).slept == Usage(s.log).slept && m.auth == s.auth && Answers(m.log, h.id) == 1
    requires Begun(h.id, h.scope, h.eventid) in m.log
    requires |m.log| > 0 && AnsweredWith(m.log, h.id, h.scope, token)
    ensures var s' := CacheSeed(w, m, h.scope, token, ByConfirm(h.id));
            PollOutcome(w, s, h, Polled(Ok, true, h.(terminal := true), s'))
  {
    hide Inv, Usage, Answers, Owns, AnsweredWith, CacheSeed, ExtCost, PollOutcome, OthersKept, Spends, Open;
    SeedSteps(w, m, h.scope, token, ByConfirm(h.id));
    RedeemedOutcome(w, s, h, m, CacheSeed(w, m, h.scope, token, ByConfirm(h.id)), token);
  }

  lemma {:induction false} PollSteps(w: Env, s: State, h: Handle)
    requires Inv(w, s) && Open(s.log, h)
    ensures PollOutcome(w, s, h, ConfirmPoll(w, s, h))
  {
    if h.terminal {
      SameButErrorInv(w, s, SetError(s, 0, false));
    } else {
      var c := EventCheck(w, s, h.url, h.eventid);
      CheckQuiet(w, s, h.url, h.eventid);
      CheckAnswer(w, s, h.url, h.eventid);
      if c.rc != Ok || c.verdict.Pending? {
        InconclusiveSteps(w, s, h, c);
      } else if c.verdict.Denied? {
        DeniedSteps(w, s, h, c.s);
      } else {
        ApprovedPoll(w, s, h, c.s, c.verdict.reply);
      }
    }
  }

  lemma {:induction false} ApprovedPoll(w: Env, s: State, h: Handle, c: State, reply: string)
    requires Inv(w, s) && Open(s.log, h) && !h.terminal
    requires Quietly(s, c, 1, 0) && |c.log| > 0 && IsConclusivePoll(Last(c.log), h.eventid, Some(reply))
    ensures var t := ExtToken(w, Note(Note(c, Answered(h.id, Some(reply))), Redeemed(h.id)), reply);
            PollOutcome(w, s, h,
              if t.rc != Ok then Polled(t.rc, false, h.(terminal := true), t.s)
              else Polled(Ok, true, h.(terminal := true), CacheSeed(w, t.s, h.scope, t.token, ByConfirm(h.id))))
  {
    ApprovedSteps(w, s, h, c, reply);
    var t := ExtToken(w, Note(Note(c, Answered(h.id, Some(reply))), Redeemed(h.id)), reply);
    if t.rc == Ok {
      RedeemedSteps(w, s, h, t.s, t.token);
    }
  }

  // ------------------------------------------------------------------ wait

  /** Polls of a wait with `left` milliseconds to go. */
  function Polls(left: nat, interval: Millis): nat {
    if left == 0 then 1 else if left <= interval then 2 else 1 + Polls(left - interval, interval)
  }

  /** One more than the number of intervals begun. */
  lemma {:induction false} PollsIsCeiling(left: nat, interval: Millis)
    ensures (Polls(left, interval) - 2) * interval < left <= (Polls(left, interval) - 1) * interval
  {
    if left > interval {
      PollsIsCeiling(left - interval, interval);
      var q := Polls(left - interval, interval);
      assert (q - 1) * interval == (q - 2) * interval + interval;
      assert q * interval == (q - 1) * interval + interval;
    } else if left == 0 {
      assert (1 - 2) * interval < 0;
    }
  }

  function Left(timeout: int, elapsed: nat): nat {
    if elapsed < timeout then timeout - elapsed else 0
  }

  /** Everything a wait may do: bounded polls and sleep, and the handle's fate. */
  ghost predicate WaitOutcome(w: Env, s: State, h: Handle, left: nat, p: Polled) {
    && Inv(w, p.s) && Spends(s, p.s, Polls(left, w.pollInterval) + ExtCost(w), 0)
    && p.h == h.(terminal := p.h.terminal) && (h.terminal ==> p.h.terminal)
    && Open(p.s.log, p.h)
    && OthersKept(s.log, p.s.log, h.id)
    && Mobile(p.s) == Mobile(s)
    && Usage(p.s.log).slept <= Usage(s.log).slept + left
    && p.rc != AuthExpired
    && (p.rc == Ok <==> p.approved)
    && (p.approved ==> p.h.terminal && Confirmed(p.s, h))
    && (!p.approved ==> p.s.auth == s.auth)
    && (h.terminal ==> p.rc == Arg && p.s.log == s.log)
    && (p.rc == ConfirmTimeout ==>
          && !p.h.terminal
          && Usage(p.s.log).slept == Usage(s.log).slept + left
          && Usage(p.s.log).sends == Usage(s.log).sends + Polls(left, w.pollInterval))
  }

  /** After a pending poll, sleeping one step. */
  lemma {:induction false} SleepSteps(w: Env, s: State, h: Handle, step: nat)
    requires Inv(w, s) && Open(s.log, h)
    ensures var s' := Note(s, Slept(step));
            && Inv(w, s') && Open(s'.log, h) && OthersKept(s.log, s'.log, h.id) && Spends(s, s', 0, 0)
            && Usage(s'.log) == Usage(s.log).(slept := Usage(s.log).slept + step)
  {
    NoteInv(w, s, Slept(step));
    Append(s.log, Slept(step));
  }

  lemma {:induction false} WaitSteps(w: Env, s: State, h: Handle, timeout: int, elapsed: nat)
    requires Inv(w, s) && Open(s.log, h)
    ensures WaitOutcome(w, s, h, Left(timeout, elapsed), WaitFrom(w, s, h, timeout, elapsed))
    decreases Left(timeout, elapsed), 1
  {
    var p := ConfirmPoll(w, s, h);
    var r := WaitFrom(w, s, h, timeout, elapsed);
    if p.rc == Ok && !p.approved && elapsed < timeout {
      var step := if w.pollInterval > timeout - elapsed then timeout - elapsed else w.pollInterval;
      assert r == WaitFrom(w, Note(p.s, Slept(step)), p.h, timeout, elapsed + step);
      WaitMore(w, s, h, timeout, elapsed, p, step, r);
    } else {
      assert r == if p.rc == Ok && !p.approved then Polled(ConfirmTimeout, false, p.h, SetError(p.s, 0, false)) else p;
      PollSteps(w, s, h);
      WaitEnds(w, s, h, p, Left(timeout, elapsed), r);
    }
  }

  /** A pending poll with time left: sleep and go on. */
  lemma {:induction false} WaitMore(w: Env, s: State, h: Handle, timeout: int, elapsed: nat, p: Polled, step: nat,
        r: Polled)
    requires Inv(w, s) && Open(s.log, h)
    requires p == ConfirmPoll(w, s, h) && p.rc == Ok && !p.approved && elapsed < timeout
    requires step == if w.pollInterval > timeout - elapsed then timeout - elapsed else w.pollInterval
    requires r == WaitFrom(w, Note(p.s, Slept(step)), p.h, timeout, elapsed + step)
    ensures WaitOutcome(w, s, h, Left(timeout, elapsed), r)
    decreases Left(timeout, elapsed), 0
  {
    hide Inv, Open, ConfirmPoll, PollOutcome, WaitOutcome, OthersKept, Spends;
    var s1 := Note(p.s, Slept(step));
    PollSteps(w, s, h);
    SleepSteps(w, p.s, p.h, step);
    WaitSteps(w, s1, p.h, timeout, elapsed + step);
    var left := Left(timeout, elapsed);
    assert left == timeout - elapsed && Left(timeout, elapsed + step) == left - step;
    assert WaitOutcome(w, s1, p.h, left - step, r);
    WaitChain(w, s, h, p, s1, left, step, r);
  }

  /** The poll a wait returns on: conclusive, failed, or pending with no time left. */
  lemma WaitEnds(w: Env, s: State, h: Handle, p: Polled, left: nat, r: Polled)
    requires PollOutcome(w, s, h, p)
    requires if p.rc == Ok && !p.approved then
               left == 0 && r == Polled(ConfirmTimeout, false, p.h, SetError(p.s, 0, false))
             else r == p
    ensures WaitOutcome(w, s, h, left, r)
  {
    assert Polls(left, w.pollInterval) >= 1;
    if p.rc == Ok && !p.approved {
      SameButErrorInv(w, p.s, r.s);
    }
  }

  lemma SameButErrorInv(w: Env, s: State, s': State)
    requires Inv(w, s) && s' == s.(err := s'.err)
    ensures Inv(w, s')
  {
  }

  lemma {:induction false} WaitChain(w: Env, s: State, h: Handle, p: Polled, s1: State, left: nat, step: nat, r: Polled)
    requires PollOutcome(w, s, h, p) && p.rc == Ok && !p.approved
    requires 0 < step <= left && (step == left <==> left <= w.pollInterval) && (step < left ==> step == w.pollInterval)
    requires s1 == Note(p.s, Slept(step)) && OthersKept(p.s.log, s1.log, h.id) && Spends(p.s, s1, 0, 0)
    requires Usage(s1.log) == Usage(p.s.log).(slept := Usage(p.s.log).slept + step)
    requires WaitOutcome(w, s1, p.h, left - step, r)
    ensures WaitOutcome(w, s, h, left, r)
  {
    hide Inv, Owns, Usage, Answers;
    assert Polls(left, w.pollInterval) == 1 + Polls(left - step, w.pollInterval);
    forall x: nat | x < |s.log| && x != h.id
      ensures Answers(r.s.log, x) == Answers(s.log, x)
    {
      assert Answers(r.s.log, x) == Answers(s1.log, x) == Answers(p.s.log, x);
    }
  }

  // ----------------------------------------------------------- mobile mode

  function MobileCost(w: Env): nat {
    PushCost(w) + Polls(w.confirmTimeout, w.pollInterval) + ExtCost(w)
  }

  /**
   * A mobile acquisition: a wait that succeeds has cached a bearer for the scope, so the branch
   * "confirmed but nothing cached" is dead.
   */
  lemma {:induction false} MobileSteps(w: Env, s: State, scope: string)
    requires Inv(w, s)
    ensures var t := MobileToken(w, s, scope);
            && Inv(w, t.s) && Spends(s, t.s, MobileCost(w), 0)
            && OthersKept(s.log, t.s.log, |s.log|)
            && Mobile(t.s) == Mobile(s)
            && t.rc != AuthExpired
            && (t.rc == Ok ==>
                  && |t.s.log| > |s.log|
                  && Last(t.s.log).Stored? && Last(t.s.log).key == scope && Last(t.s.log).token == t.token
                  && Last(t.s.log).source.ByConfirm? && |s.log| <= Last(t.s.log).source.handle)
  {
    var s1 := ProactiveCheckin(w, s);
    ProactiveQuiet(w, s);
    QuietInv(w, s, s1, 0, 0);
    QuietSpends(s, s1, 0, 0);
    AnonymousKeeps(s.log, s1.log);
    hide Inv, Quietly, ProactiveCheckin, ConfirmBegin, WaitFrom, ConfirmWait, Spends;
    var b := ConfirmBegin(w, s1, None, scope, None, None);
    BeginSteps(w, s1, None, scope, None, None);
    SpendsThen(s, s1, b.s, 0, 0, PushCost(w), 0);
    BeginRc(w, s1, None, scope, None, None);
    if b.rc == Ok {
      MobileWaits(w, s, scope, b, MobileToken(w, s, scope));
    }
  }

  lemma MobileWaits(w: Env, s: State, scope: string, b: Begin, t: Token)
    requires Inv(w, b.s) && Spends(s, b.s, PushCost(w), 0) && OthersKept(s.log, b.s.log, |s.log|)
    requires b.handle.Some? && Open(b.s.log, b.handle.value) && b.handle.value.scope == scope
    requires |s.log| <= b.handle.value.id
    requires b == ConfirmBegin(w, ProactiveCheckin(w, s), None, scope, None, None) && t == MobileToken(w, s, scope)
    ensures Inv(w, t.s) && Spends(s, t.s, MobileCost(w), 0)
    ensures OthersKept(s.log, t.s.log, |s.log|)
    ensures Mobile(t.s) == Mobile(b.s) && t.rc != AuthExpired && |t.s.log| >= |b.s.log|
    ensures t.rc == Ok ==> |t.s.log| > 0 && Last(t.s.log) == Stored(scope, t.token, ByConfirm(b.handle.value.id))
  {
    var p := WaitFrom(w, b.s, b.handle.value, w.confirmTimeout, 0);
    WaitSteps(w, b.s, b.handle.value, w.confirmTimeout, 0);
    SpendsThen(s, b.s, p.s, PushCost(w), 0, Polls(w.confirmTimeout, w.pollInterval) + ExtCost(w), 0);
    hide Inv, Spends, WaitFrom, ConfirmBegin, ProactiveCheckin;
    assert p == ConfirmWait(w, b.s, b.handle.value, w.confirmTimeout);
  }

  lemma SpendsThen(s1: State, s2: State, s3: State, n: nat, g: nat, n': nat, g': nat)
    requires Spends(s1, s2, n, g) && Spends(s2, s3, n', g')
    ensures Spends(s1, s3, n + n', g + g')
  {
  }

  lemma BeginRc(w: Env, s: State, url: Option<string>, scope: string, ctxStr: Option<string>, note: Option<string>)
    ensures WireRc(ConfirmBegin(w, s, url, scope, ctxStr, note).rc)
  {
    FireRc(w, s, url, scope, ctxStr, note);
    var p := FirePush(w, s, url, scope, ctxStr, note);
    FireRc(w, CheckinRun(w, Tick(p.s), Reason.BrokerDrift).s, url, scope, ctxStr, note);
    assert WireRc(PushRecovering(w, s, url, scope, ctxStr, note).rc);
  }

  lemma FireRc(w: Env, s: State, url: Option<string>, scope: string, ctxStr: Option<string>, note: Option<string>)
    ensures WireRc(FirePush(w, s, url, scope, ctxStr, note).rc)
  {
    var session := NotifySession(w, s, url);
    SessionRc(w, s, url);
    var r := ExtRequest(w, session.s, session.token, scope, ctxStr, note);
    ExtRequestRc(w, session.s, session.token, scope, ctxStr, note);
    EventNewRc(w, r.s, url, r.authreq, r.epk);
    assert FirePush(w, s, url, scope, ctxStr, note).rc
        == if session.rc != Ok then session.rc
           else if r.rc != Ok then r.rc
           else EventNew(w, r.s, url, r.authreq, r.epk).rc;
  }

  lemma SessionRc(w: Env, s: State, url: Option<string>)
    ensures WireRc(NotifySession(w, s, url).rc)
  {
  }

  lemma EventNewRc(w: Env, s: State, url: Option<string>, authreq: string, epk: string)
    ensures WireRc(EventNew(w, s, url, authreq, epk).rc)
  {
  }

  lemma ExtRequestRc(w: Env, s: State, epk: string, scope: string, ctxStr: Option<string>, note: Option<string>)
    ensures WireRc(ExtRequest(w, s, epk, scope, ctxStr, note).rc)
  {
    var fields := ExtFields(epk, scope, ctxStr, note);
    ExtPostRc(w, ClearError(s), EXT_REQUEST_PATH, Object(fields));
  }
}
