/**
 The statements about the request engine a client relies on, each for every reachable context and
 every device.
 */
module Guarantees {
  import opened Options
  import opened Wire
  import opened Engine
  import opened Ledger
  import opened Exchange
  import opened Acquisition
  import opened Confirmation
  import opened Requests
  import opened Runs

  /** The context after these calls. */
  function Reached(w: Env, calls: seq<Call>): State {
    Run(w, Start(), calls).s
  }

  // ---------------------------------------------------------- send bounds

  /**
   * A scoped request in passphrase mode makes at most 55 sends, 9 with automatic check-ins off;
   * three of them only in the one call that makes the session-start check-in.
   */
  lemma {:induction false} PassphraseRequestBound(
      w: Env, calls: seq<Call>, verb: Method, path: string, body: Body, scope: string)
    requires !Mobile(Reached(w, calls))
    ensures var s := Reached(w, calls);
            var s' := RequestRaw(w, s, verb, path, body, Some(scope), Default).s;
            var sends := Usage(s'.log).sends - Usage(s.log).sends;
            && sends <= (if w.noAutoCheckin then 9 else 55)
            && (s.checkinDone || !s'.checkinDone ==> sends <= if w.noAutoCheckin then 6 else 52)
            && Usage(s'.log).budgeted <= Usage(s.log).budgeted + 2
  {
    RunKeeps(w, calls);
    var own := RequestSteps(w, Reached(w, calls), verb, path, body, scope, Default);
  }

  /** In mobile mode the bound grows with the number of polls of two waits. */
  lemma {:induction false} MobileRequestBound(
      w: Env, calls: seq<Call>, verb: Method, path: string, body: Body, scope: string)
    requires Mobile(Reached(w, calls))
    ensures var s := Reached(w, calls);
            var s' := RequestRaw(w, s, verb, path, body, Some(scope), Default).s;
            Usage(s'.log).sends
              <= Usage(s.log).sends + 2 * Polls(w.confirmTimeout, w.pollInterval)
                 + (if w.noAutoCheckin then 13 else 101)
  {
    RunKeeps(w, calls);
    var own := RequestSteps(w, Reached(w, calls), verb, path, body, scope, Default);
  }

  /**
   * In passphrase mode one call of the token chokepoint spends at most one check-in on 403 and clock
   * drift together. Mobile mode has no such budget: see `Recoveries.RecoveryCheckins`.
   */
  lemma {:induction false} OneBudgetedCheckin(w: Env, calls: seq<Call>, scope: string)
    requires !Mobile(Reached(w, calls))
    ensures var s := Reached(w, calls);
            var s' := EnsureToken(w, s, scope).s;
            && Usage(s'.log).budgeted <= Usage(s.log).budgeted + 1
            && Usage(s'.log).sends <= Usage(s.log).sends + (if w.noAutoCheckin then 5 else 26)
  {
    RunKeeps(w, calls);
    EnsureSteps(w, Reached(w, calls), scope);
  }

  // ---------------------------------------------------------- own dispatches

  /**
   * The caller's request goes out at most three times, unchanged but for bearer and connection:
   * once, once more directly behind a certificate check-in that completed, once more after a 401.
   * The one after a 401 carries a bearer that an acquisition stored after that 401.
   */
  lemma {:induction false} AtMostThreeDispatches(
      w: Env, calls: seq<Call>, verb: Method, path: string, body: Body, scope: string, tls: Tls)
    returns (own: History, at: seq<nat>)
    ensures var s := Reached(w, calls);
            var s' := RequestRaw(w, s, verb, path, body, Some(scope), tls).s;
            && Owns(s'.log) == Owns(s.log) + own
            && OwnShape(own, Request(verb, path, body, None, tls, false), scope)
            && Placed(w, s.log, s'.log, own, at, scope)
  {
    RunKeeps(w, calls);
    own := RequestSteps(w, Reached(w, calls), verb, path, body, scope, tls);
    var s := Reached(w, calls);
    at :| Placed(w, s.log, RequestRaw(w, s, verb, path, body, Some(scope), tls).s.log, own, at, scope);
  }

  // ------------------------------------------------------------ provenance

  lemma {:induction false} JustifiedAt(log: History, i: nat)
    requires WellSourced(log) && i < |log|
    ensures Justified(log[..i], log[i])
  {
    if i == |log| - 1 {
      assert log[..i] == Front(log);
    } else {
      JustifiedAt(Front(log), i);
      assert Front(log)[..i] == log[..i];
    }
  }

  /** How a stored token was come by, told from the history before it. */
  ghost predicate Obtained(log: History, j: nat, scope: string, token: string)
    requires j < |log|
  {
    && log[j].Stored? && log[j].key == scope && log[j].token == token
    && (log[j].source.ByPost? ==> j > 0 && IsLoginPost(log[j - 1], scope, token))
    && (log[j].source.ByConfirm? ==>
          exists reply, eventid :: Granted(log[..j], log[j].source.handle, scope, eventid, reply, token))
  }

  /**
   * A confirmation begun for the scope, a broker poll for its very event that came back with an
   * approval, and that approval's redemption just answered with the token.
   */
  ghost predicate Granted(before: History, h: nat, scope: string, eventid: string, reply: string, token: string) {
    && Begun(h, scope, eventid) in before
    && PolledFor(before, h, eventid, reply)
    && |before| > 0 && IsRedemption(Last(before), reply, token)
  }

  ghost predicate PolledFor(log: History, h: nat, eventid: string, reply: string) {
    exists m ::
      0 < m < |log| && log[m] == Answered(h, Some(reply)) && IsConclusivePoll(log[m - 1], eventid, Some(reply))
  }

  /** A handle's number is the place it was begun at, so it was begun once. */
  lemma {:induction false} BegunOnce(log: History, h: nat, scope: string, eventid: string, scope': string,
        eventid': string)
    requires WellSourced(log) && Begun(h, scope, eventid) in log && Begun(h, scope', eventid') in log
    ensures scope == scope' && eventid == eventid'
  {
    var i :| 0 <= i < |log| && log[i] == Begun(h, scope, eventid);
    var j :| 0 <= j < |log| && log[j] == Begun(h, scope', eventid');
    JustifiedAt(log, i);
    JustifiedAt(log, j);
  }

  /** The poll behind an approval on record. */
  lemma {:induction false} ApprovalPolled(log: History, h: nat, scope: string, eventid: string, reply: string)
    requires WellSourced(log) && Begun(h, scope, eventid) in log && Answered(h, Some(reply)) in log
    ensures PolledFor(log, h, eventid, reply)
  {
    var m :| 0 <= m < |log| && log[m] == Answered(h, Some(reply));
    JustifiedAt(log, m);
    var scope', eventid' :| Begun(h, scope', eventid') in log[..m]
                            && IsConclusivePoll(Last(log[..m]), eventid', Some(reply));
    BegunOnce(log, h, scope, eventid, scope', eventid');
    assert Last(log[..m]) == log[m - 1];
  }

  /** Where a stored token was stored, and how it was come by. */
  lemma {:induction false} StoredWhere(log: History, scope: string, token: string) returns (j: nat)
    requires WellSourced(log) && HasStored(log, scope, token)
    ensures j < |log| && StandsAt(log, j, scope, token) && Obtained(log, j, scope, token)
  {
    j :| 0 <= j < |log| && StandsAt(log, j, scope, token);
    var source := log[j].source;
    JustifiedAt(log, j);
    if source.ByConfirm? {
      var reply, eventid :|
        && Begun(source.handle, scope, eventid) in log[..j] && Answered(source.handle, Some(reply)) in log[..j]
        && IsRedemption(Last(log[..j]), reply, token);
      SourcedPrefix(log, j);
      ApprovalPolled(log[..j], source.handle, scope, eventid, reply);
      assert Granted(log[..j], source.handle, scope, eventid, reply, token);
    } else if source.ByPost? {
      assert Last(log[..j]) == log[j - 1];
    }
  }

  lemma {:induction false} SourcedPrefix(log: History, n: nat)
    requires WellSourced(log) && n <= |log|
    ensures WellSourced(log[..n])
  {
    if n == |log| {
      assert log[..n] == log;
    } else {
      SourcedPrefix(Front(log), n);
      assert Front(log)[..n] == log[..n];
    }
  }

  /**
   * Every Authorization header sent for a scope carries the token stored last under exactly that
   * scope, and since the last login: from a token POST naming the scope, from a confirmation begun
   * for it and approved, or from an explicit seed.
   */
  lemma {:induction false} BearerProvenance(w: Env, calls: seq<Call>, i: nat) returns (j: nat)
    requires var log := Reached(w, calls).log; i < |log| && log[i].Sent? && log[i].scope.Some?
    ensures var log := Reached(w, calls).log;
            && j < i && log[i].req.bearer.Some?
            && StandsAt(log[..i], j, log[i].scope.value, log[i].req.bearer.value)
            && Obtained(log, j, log[i].scope.value, log[i].req.bearer.value)
  {
    RunKeeps(w, calls);
    var log := Reached(w, calls).log;
    JustifiedAt(log, i);
    SourcedPrefix(log, i);
    j := StoredWhere(log[..i], log[i].scope.value, log[i].req.bearer.value);
    assert log[..i][..j] == log[..j];
  }

  /** And nothing sent without a scope carries one. */
  lemma {:induction false} NoStrayBearer(w: Env, calls: seq<Call>, i: nat)
    requires var log := Reached(w, calls).log; i < |log| && log[i].Sent? && log[i].scope.None?
    ensures Reached(w, calls).log[i].req.bearer.None?
  {
    RunKeeps(w, calls);
    JustifiedAt(Reached(w, calls).log, i);
  }

  // -------------------------------------------------------- context state

  /**
   * Between any two calls: not inside a check-in, no passphrase in mobile mode, at most one
   * session-start check-in so far however often the client logged in and out, and each cached
   * bearer stored under its own scope.
   */
  lemma {:induction false} ContextBetweenCalls(w: Env, calls: seq<Call>)
    ensures var s := Reached(w, calls);
            && !s.inCheckin
            && (Mobile(s) ==> !HasPassphrase(s))
            && Usage(s.log).proactive <= (if s.checkinDone then 1 else 0)
            && CacheSourced(s)
  {
    RunKeeps(w, calls);
  }

  /** Refreshed stays refreshed, the session-start check-in stays done. */
  lemma {:induction false} LatchesStay(w: Env, calls: seq<Call>, n: nat)
    requires n <= |calls|
    ensures var early, late := Reached(w, calls[..n]), Reached(w, calls);
            && early.log <= late.log
            && (early.certRefreshed ==> late.certRefreshed)
            && (early.checkinDone ==> late.checkinDone)
  {
    RunOnward(w, calls, n);
  }

  /**
   * With retention off, at most one acquisition completes between two logins, and once it has, a
   * scope without a fresh entry is AUTH_EXPIRED without a send until the next login.
   */
  lemma {:induction false} UnretainedCredential(w: Env, calls: seq<Call>, scope: string)
    requires w.noRetention
    ensures var s := Reached(w, calls);
            && MintedOncePerLogin(s.log)
            && (Mints(s.log) > 0 && !Mobile(s) && !FreshHit(w, s, scope) ==>
                  EnsureToken(w, s, scope).rc == AuthExpired && EnsureToken(w, s, scope).s.log == s.log)
  {
    RunKeeps(w, calls);
    var s := Reached(w, calls);
    if Mints(s.log) > 0 && !Mobile(s) && !FreshHit(w, s, scope) {
      NoCredentialSendsNothing(w, s, scope);
    }
  }

  /**
   * A fresh entry is handed out without a send, after any calls, and it is the newest stored under
   * that very scope, since the last login, in one of the three ways there are.
   */
  lemma {:induction false} HitIsSilent(w: Env, calls: seq<Call>, scope: string) returns (j: nat)
    requires FreshHit(w, Reached(w, calls), scope)
    ensures var s := Reached(w, calls);
            var t := EnsureToken(w, s, scope);
            && t.rc == Ok && t.s.log == s.log && t.s.auth == s.auth
            && j < |s.log| && StandsAt(s.log, j, scope, t.token) && Obtained(s.log, j, scope, t.token)
  {
    RunKeeps(w, calls);
    var s := Reached(w, calls);
    HitSendsNothing(w, s, scope);
    j := StoredWhere(s.log, scope, Cached(s, scope).value.token);
  }

  /** Calls that need a bearer, and logouts. */
  predicate NeedsBearer(c: Call) {
    (c.DoRequest? && c.under.Some?) || c.DoVerify? || c.DoRestart? || c.DoWipeout? || c.DoLogout?
  }

  /** From a logout on, whatever bearer-needing calls follow, nothing leaves the client. */
  lemma {:induction false} LoggedOutIsSilent(w: Env, calls: seq<Call>, more: seq<Call>)
    requires forall c :: c in more ==> NeedsBearer(c)
    ensures var s := Reached(w, calls + [DoLogout] + more);
            s.auth.None? && s.log == Reached(w, calls).log
  {
    if |more| == 0 {
      assert calls + [DoLogout] + more == calls + [DoLogout];
      assert (calls + [DoLogout])[..|calls|] == calls;
    } else {
      var init, last := more[..|more| - 1], more[|more| - 1];
      LoggedOutIsSilent(w, calls, init);
      var before := calls + [DoLogout] + init;
      assert calls + [DoLogout] + more == before + [last];
      assert (before + [last])[..|before|] == before;
      SilentCall(w, Run(w, Start(), before), last);
    }
  }

  /** Without a session a call that needs a bearer is AUTH_EXPIRED at once. */
  lemma SilentCall(w: Env, x: World, c: Call)
    requires x.s.auth.None? && NeedsBearer(c)
    ensures Do(w, x, c).s.auth.None? && Do(w, x, c).s.log == x.s.log
  {
    var s := ClearError(x.s);
    match c
    case DoRequest(verb, path, body, under) => SilentRequest(w, s, verb, path, body, under.value);
    case DoVerify(body, scope) => SilentRequest(w, s, POST, "/api/crypto/exdsa/verify", body, scope);
    case DoRestart(path, scope) => SilentRequest(w, s, GET, path, NoBody, scope);
    case DoWipeout =>
      SilentRequest(w, s, POST, "/api/system/config", Object(map["wipeout" := Other]), "system:config");
    case DoLogout =>
  }

  lemma SilentRequest(w: Env, s: State, verb: Method, path: string, body: Body, scope: string)
    requires s.auth.None?
    ensures RequestRaw(w, s, verb, path, body, Some(scope), Default)
         == Got(AuthExpired, NoBody, SetError(Tick(s), 0, false))
  {
    NoCredentialSendsNothing(w, s, scope);
  }

  // ------------------------------------------------------- rejected tokens

  /** A token the chokepoint hands out is in the cache under its scope. */
  lemma {:induction false} TokenIsCached(w: Env, s: State, scope: string)
    ensures var t := EnsureToken(w, s, scope);
            t.rc == Ok ==> Cached(t.s, scope).Some? && Cached(t.s, scope).value.token == t.token
  {
    hide ConfirmBegin, ConfirmWait, ProactiveCheckin, CheckinRun, AcquireToken;
    if s.auth.Some? && s.auth.value.passphrase.Some? {
      var passphrase, s1 := s.auth.value.passphrase.value, Tick(s);
      var a := AcquireToken(w, ProactiveCheckin(w, s1), passphrase, scope, w.clock(s.ticks), false);
      AcquiredIsCached(w, ProactiveCheckin(w, s1), passphrase, scope, w.clock(s.ticks), false);
      var c := CheckinRun(w, a.s, Budgeted);
      AcquiredIsCached(w, Tick(c.s), passphrase, scope, w.clock(c.s.ticks), true);
    }
  }

  lemma {:induction false} AcquiredIsCached(w: Env, s: State, passphrase: string, scope: string, now: int, spent: bool)
    ensures var a := AcquireToken(w, s, passphrase, scope, now, spent);
            a.rc == Ok ==> Cached(a.s, scope).Some? && Cached(a.s, scope).value.token == a.token
  {
    hide FetchChallenge, RequestJson, LoginClaims, CacheExpiry, DriftEvident;
  }

  /** A second 401 does not drop the token it rejects: it is still what the cache holds. */
  lemma {:induction false} SecondRejectionStaysCached(w: Env, s: State, req: Request, scope: string)
    ensures var b := RetryRejected(w, s, req, scope);
            b.rc == Ok ==>
              && |b.s.log| > 0 && Last(b.s.log).Sent?
              && Last(b.s.log).out == Reply(b.status, b.body)
              && Cached(b.s, scope).Some?
              && Last(b.s.log).req.bearer == Some(Cached(b.s, scope).value.token)
  {
    TokenIsCached(w, Invalidate(s, Some(scope)), scope);
    hide EnsureToken;
  }

  /** The chokepoint hands out a token without adding to the history exactly when the entry is fresh. */
  lemma {:induction false} HandedOutExactly(w: Env, s: State, scope: string)
    requires Inv(w, s)
    ensures var t := EnsureToken(w, s, scope);
            (t.rc == Ok && t.s.log == s.log) <==> FreshHit(w, s, scope)
  {
    EnsureSteps(w, s, scope);
    if FreshHit(w, s, scope) {
      HitSendsNothing(w, s, scope);
    }
    hide EnsureToken, Inv;
  }

  /**
   * After any calls a cached token is handed out without a send exactly while more than a minute is left
   * of the validity it claims for itself; one that claims none, while an hour less a minute is not over
   * since some earlier reading of the clock.
   */
  lemma {:induction false} ReusedWhileValid(w: Env, calls: seq<Call>, scope: string) returns (had: nat)
    requires Cached(Reached(w, calls), scope).Some?
    ensures var s := Reached(w, calls);
            var t := EnsureToken(w, s, scope);
            var reused := t.rc == Ok && t.s.log == s.log;
            match ExpiryClaim(w, Cached(s, scope).value.token)
            case Some(exp) => reused <==> w.clock(s.ticks) + 60 < exp
            case None => had < s.ticks && (reused <==> w.clock(s.ticks) + 60 < w.clock(had) + 3600)
  {
    hide EnsureToken, Inv, ExpiryClaim, Run;
    RunKeeps(w, calls);
    var s := Reached(w, calls);
    HandedOutExactly(w, s, scope);
    CachedIsTimed(w, s, scope);
    var b := Cached(s, scope).value;
    had := 0;
    if ExpiryClaim(w, b.token).None? {
      had :| had < s.ticks && b.exp == w.clock(had) + 3600 - 60;
    }
  }

  lemma CachedIsTimed(w: Env, s: State, scope: string)
    requires Inv(w, s) && Cached(s, scope).Some?
    ensures Timed(w, Cached(s, scope).value, s.ticks)
  {
    hide Timed;
  }

  /**
   * A request whose retry, under a newly acquired token, is rejected as well: the next acquisition
   * for the scope hands out that same rejected token, nothing sent, if it has not expired, and only
   * then hands one out without a send.
   */
  lemma {:induction false} RejectedTokenIsReused(
      w: Env, calls: seq<Call>, verb: Method, path: string, body: Body, scope: string)
    requires var s := Reached(w, calls);
             var g := RequestRaw(w, s, verb, path, body, Some(scope), Default);
             var again := SecondToken(w, s, Request(verb, path, body, None, Default, false), scope);
             again.Some? && again.value.rc == Ok && |g.s.log| > 0 && Rejected(Last(g.s.log))
    ensures var s := Reached(w, calls);
            var g := RequestRaw(w, s, verb, path, body, Some(scope), Default);
            var next := EnsureToken(w, ClearError(g.s), scope);
            && (next.rc == Ok && next.s.log == g.s.log <==> FreshHit(w, g.s, scope))
            && (FreshHit(w, g.s, scope) ==> Last(g.s.log).req.bearer == Some(next.token))
  {
    hide Inv, Sound, EnsureToken, DispatchRecovering, RetryRejected, RequestOutcome, Ending, Reached, FreshHit;
    var s := Reached(w, calls);
    var g := RequestRaw(w, s, verb, path, body, Some(scope), Default);
    StillSound(w, calls, verb, path, body, scope);
    var t := EnsureToken(w, s, scope);
    var req := Request(verb, path, body, Some(t.token), Default, false);
    var a := DispatchRecovering(w, t.s, req, Some(scope));
    SecondRejectionStaysCached(w, a.s, req, scope);
    RetriedAnswer(w, a.s, req, scope);
    HandedOutExactly(w, ClearError(g.s), scope);
    StillFresh(w, g.s, scope);
  }

  lemma {:induction false} StillSound(
      w: Env, calls: seq<Call>, verb: Method, path: string, body: Body, scope: string)
    ensures Inv(w, ClearError(RequestRaw(w, Reached(w, calls), verb, path, body, Some(scope), Default).s))
  {
    RunKeeps(w, calls);
    hide Inv;
    var s := Reached(w, calls);
    var own := RequestSteps(w, s, verb, path, body, scope, Default);
    var g := RequestRaw(w, s, verb, path, body, Some(scope), Default);
    SameButErrorInv(w, g.s, ClearError(g.s));
  }

  lemma StillFresh(w: Env, s: State, scope: string)
    ensures FreshHit(w, ClearError(s), scope) == FreshHit(w, s, scope)
    ensures FreshHit(w, s, scope) ==>
              EnsureToken(w, ClearError(s), scope) == Token(Ok, Cached(s, scope).value.token, Tick(ClearError(s)))
  {
    if FreshHit(w, s, scope) {
      HitSendsNothing(w, ClearError(s), scope);
    }
  }

  /** A retry that was answered ended well; one that was not left no answer behind it. */
  lemma RetriedAnswer(w: Env, s: State, req: Request, scope: string)
    requires EnsureToken(w, Invalidate(s, Some(scope)), scope).rc == Ok
    ensures var b := RetryRejected(w, s, req, scope);
            && |b.s.log| > 0 && Last(b.s.log).Sent?
            && (Last(b.s.log).out.Reply? ==> b.rc == Ok)
  {
    hide EnsureToken;
  }

  // --------------------------------------------------------- confirmations

  /**
   * Over any run, every confirmation handle's authreply is redeemed at most once, and never once it
   * was denied; a redemption follows an approval.
   */
  lemma {:induction false} ConfirmationSingleUse(w: Env, calls: seq<Call>, h: nat)
    ensures var log := Reached(w, calls).log;
            && Redemptions(log, h) <= 1
            && (Answered(h, None) in log ==> Redemptions(log, h) == 0)
            && (Redemptions(log, h) > 0 ==> Approvals(log, h) == 1)
  {
    RunKeeps(w, calls);
    RedeemedAtMostOnce(Reached(w, calls).log, h);
  }

  /** A finished handle sends nothing more, polled or waited on. */
  lemma {:induction false} FinishedHandleIsSilent(w: Env, calls: seq<Call>, i: nat, timeout: int)
    requires var x := Run(w, Start(), calls); i < |x.handles| && x.handles[i].terminal
    ensures var x := Run(w, Start(), calls);
            && Do(w, x, DoPoll(i)).s.log == x.s.log
            && Do(w, x, DoWait(i, timeout)).s.log == x.s.log
            && Do(w, x, DoPoll(i)).handles[i].terminal && Do(w, x, DoWait(i, timeout)).handles[i].terminal
  {
    RunKeeps(w, calls);
    var x := Run(w, Start(), calls);
    PollSteps(w, x.s, x.handles[i]);
    if timeout > 0 {
      WaitSteps(w, x.s, x.handles[i], timeout, 0);
    }
  }

  /**
   * A wait sleeps at most its timeout and polls at most once per interval begun and once more (see
   * PollsIsCeiling); when it times out it has slept exactly the timeout, polled exactly that often,
   * one send each, and the handle is still good.
   */
  lemma {:induction false} WaitIsBounded(w: Env, calls: seq<Call>, i: nat, timeout: nat)
    requires i < |Run(w, Start(), calls).handles| && timeout > 0
    ensures var x := Run(w, Start(), calls);
            var p := ConfirmWait(w, x.s, x.handles[i], timeout);
            var polls := Polls(timeout, w.pollInterval);
            && Usage(p.s.log).slept <= Usage(x.s.log).slept + timeout
            && Usage(p.s.log).sends <= Usage(x.s.log).sends + polls + ExtCost(w)
            && (p.rc == ConfirmTimeout ==>
                  && Usage(p.s.log).slept == Usage(x.s.log).slept + timeout
                  && Usage(p.s.log).sends == Usage(x.s.log).sends + polls
                  && p.h == x.handles[i] && !p.h.terminal)
            && (p.rc == Ok ==> Cached(p.s, x.handles[i].scope).Some?)
  {
    RunKeeps(w, calls);
    var x := Run(w, Start(), calls);
    WaitSteps(w, x.s, x.handles[i], timeout, 0);
  }

  /**
   * Mobile acquisition in any state a call can pass through: it succeeds exactly when a confirmation
   * was begun and its wait succeeded, with the bearer that wait has just cached. The branch for a
   * confirmation that left nothing in the cache is never taken.
   */
  lemma {:induction false} ConfirmedMeansCached(w: Env, s: State, scope: string)
    requires Inv(w, s)
    ensures var b := ConfirmBegin(w, ProactiveCheckin(w, s), None, scope, None, None);
            var t := MobileToken(w, s, scope);
            if b.rc != Ok then t.rc != Ok
            else
              var p := ConfirmWait(w, b.s, b.handle.value, w.confirmTimeout);
              t.rc == p.rc && t.s == p.s
              && (t.rc == Ok ==> Cached(t.s, scope).Some? && Cached(t.s, scope).value.token == t.token
                                 && JustStored(t.s.log, |s.log|, scope, t.token))
  {
    ProactiveQuiet(w, s);
    QuietInv(w, s, ProactiveCheckin(w, s), 0, 0);
    BeginSteps(w, ProactiveCheckin(w, s), None, scope, None, None);
    hide Inv, ProactiveCheckin, ConfirmBegin, WaitFrom;
    var b := ConfirmBegin(w, ProactiveCheckin(w, s), None, scope, None, None);
    if b.rc == Ok {
      WaitSteps(w, b.s, b.handle.value, w.confirmTimeout, 0);
    }
  }
}
