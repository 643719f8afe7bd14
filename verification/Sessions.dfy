/**
 What a call leaves of the session: a login starts from nothing, a restart of the device drops every
 token, and a request touches no scope but its own.
 */
module Sessions {
  import opened Options
  import opened Wire
  import opened Engine
  import opened Ledger
  import opened Exchange
  import opened Acquisition
  import opened Confirmation
  import opened Requests
  import opened Causes

  // ------------------------------------------------------- login and restart

  /** Whatever was cached is gone, in either mode, and the next bearer for any scope is a new one. */
  lemma {:induction false} LoginForgets(w: Env, s: State, passphrase: string, scope: string)
    requires Inv(w, s)
    ensures var s' := Login(w, s, passphrase);
            && Cached(s', scope).None? && !Mobile(s') && Passphrase(s') == Some(passphrase)
            && s'.log == s.log + [LoggedIn] && s'.err == Error(0, false)
            && var t := EnsureToken(w, s', scope);
               t.rc == Ok ==> JustStored(t.s.log, |s'.log|, scope, t.token)
    ensures var s' := LoginMobile(s);
            && Cached(s', scope).None? && Mobile(s') && Passphrase(s').None?
            && s'.log == s.log && s'.err == Error(0, false)
            && var t := EnsureToken(w, s', scope);
               t.rc == Ok ==> JustStored(t.s.log, |s'.log|, scope, t.token)
    ensures var s' := Logout(s);
            Cached(s', scope).None? && Passphrase(s').None? && s'.log == s.log && s'.err == Error(0, false)
  {
    SessionsSound(w, s, passphrase);
    hide Inv, EnsureToken, JustStored;
    EnsureSteps(w, Login(w, s, passphrase), scope);
    EnsureSteps(w, LoginMobile(s), scope);
  }

  lemma SessionsSound(w: Env, s: State, passphrase: string)
    requires Inv(w, s)
    ensures Inv(w, Login(w, s, passphrase)) && Inv(w, LoginMobile(s))
  {
    Append(s.log, LoggedIn);
  }

  /** The device's yes to a restart or to a signature, or a failure recorded as its empty 200. */
  predicate Succeeded(g: Got) {
    g.rc == Ok || (g.rc == Protocol && g.s.err.status == 200)
  }

  /** A restart that is taken for done drops the tokens of all scopes, keeps the login, and leaves no error. */
  lemma {:induction false} RestartForgets(w: Env, s: State, path: string, scope: string, other: string)
    ensures var g := RequestRaw(w, s.(err := Error(0, false)), GET, path, NoBody, Some(scope), Default);
            var r := Restart(w, s, path, scope);
            if Succeeded(g) then
              && r.rc == Ok && Cached(r.s, other).None? && r.s.err == Error(0, false) && r.s.log == g.s.log
              && Passphrase(r.s) == Passphrase(g.s) && Mobile(r.s) == Mobile(g.s)
            else r == g
  {
    hide RequestRaw;
  }

  /** A wipeout taken for done has logged out, a signature taken for good leaves the session alone; no error is left. */
  lemma {:induction false} SuccessClears(w: Env, s: State, body: Body, scope: string)
    ensures var wipe := Object(map["wipeout" := Other]);
            var g := RequestRaw(w, s.(err := Error(0, false)), POST, "/api/system/config", wipe, Some("system:config"),
                                Default);
            var r := Wipeout(w, s);
            if Succeeded(g) then r.rc == Ok && r.s == g.s.(auth := None, err := Error(0, false)) else r == g
    ensures var g := RequestRaw(w, s.(err := Error(0, false)), POST, "/api/crypto/exdsa/verify", body, Some(scope),
                                Default);
            var r := VerifySignature(w, s, body, scope);
            if Succeeded(g) then r.rc == Ok && r.s == g.s.(err := Error(0, false)) else r == g
  {
    hide RequestRaw;
  }

  /** The call dispatched this request under a bearer for this scope, and no other under any. */
  ghost predicate AskedFor(s: State, s': State, verb: Method, path: string, body: Body, scope: string) {
    exists own: History ::
      Owns(s'.log) == Owns(s.log) + own && OwnShape(own, Request(verb, path, body, None, Default, false), scope)
  }

  /** What the bindings with effects of their own ask the device for, each at most three times. */
  lemma {:induction false} BindingsAsk(w: Env, s: State, path: string, body: Body, scope: string)
    requires Inv(w, s)
    ensures AskedFor(s, VerifySignature(w, s, body, scope).s, POST, "/api/crypto/exdsa/verify", body, scope)
    ensures AskedFor(s, Restart(w, s, path, scope).s, GET, path, NoBody, scope)
    ensures AskedFor(s, Wipeout(w, s).s, POST, "/api/system/config", Object(map["wipeout" := Other]), "system:config")
  {
    hide Inv, RequestRaw, OwnShape;
    RequestAsks(w, s, POST, "/api/crypto/exdsa/verify", body, scope);
    RequestAsks(w, s, GET, path, NoBody, scope);
    RequestAsks(w, s, POST, "/api/system/config", Object(map["wipeout" := Other]), "system:config");
  }

  lemma {:induction false} RequestAsks(w: Env, s: State, verb: Method, path: string, body: Body, scope: string)
    requires Inv(w, s)
    ensures AskedFor(s, RequestRaw(w, ClearError(s), verb, path, body, Some(scope), Default).s, verb, path, body, scope)
  {
    hide RequestRaw, OwnShape, Ending, Costs;
    SameButErrorInv(w, s, ClearError(s));
    var own := RequestSteps(w, ClearError(s), verb, path, body, scope, Default);
    hide Inv;
  }

  // ----------------------------------------------------------- other scopes

  /** The entries of every other scope are as they were. */
  predicate KeepsOthers(s: State, s': State, scope: string, other: string) {
    other != scope ==> Cached(s', other) == Cached(s, other)
  }

  lemma {:induction false} SeedKeeps(w: Env, s: State, scope: string, token: string, source: Source, other: string)
    ensures KeepsOthers(s, CacheSeed(w, s, scope, token, source), scope, other)
  {
    hide Claim, CacheExpiry;
  }

  lemma {:induction false} PollKeeps(w: Env, s: State, h: Handle, other: string)
    ensures var p := ConfirmPoll(w, s, h); p.h.scope == h.scope && KeepsOthers(s, p.s, h.scope, other)
  {
    hide EventCheck, ExtToken, CacheSeed;
    var c := EventCheck(w, s, h.url, h.eventid);
    if c.rc == Ok && c.verdict.Approved? {
      var s1 := Note(Note(c.s, Answered(h.id, Some(c.verdict.reply))), Redeemed(h.id));
      var t := ExtToken(w, s1, c.verdict.reply);
      SeedKeeps(w, t.s, h.scope, t.token, ByConfirm(h.id), other);
    }
  }

  lemma {:induction false} WaitKeeps(w: Env, s: State, h: Handle, timeout: int, elapsed: nat, other: string)
    ensures KeepsOthers(s, WaitFrom(w, s, h, timeout, elapsed).s, h.scope, other)
    decreases Left(timeout, elapsed)
  {
    var p := ConfirmPoll(w, s, h);
    PollKeeps(w, s, h, other);
    hide ConfirmPoll;
    if p.rc == Ok && !p.approved && elapsed < timeout {
      var step := if w.pollInterval > timeout - elapsed then timeout - elapsed else w.pollInterval;
      WaitKeeps(w, Note(p.s, Slept(step)), p.h, timeout, elapsed + step, other);
    }
  }

  lemma {:induction false} AcquireKeeps(
      w: Env, s: State, passphrase: string, scope: string, now: int, spent: bool, other: string)
    ensures KeepsOthers(s, AcquireToken(w, s, passphrase, scope, now, spent).s, scope, other)
  {
    hide FetchChallenge, RequestJson, LoginClaims, DriftEvident, CacheExpiry;
  }

  lemma {:induction false} PassphraseKeeps(w: Env, s: State, passphrase: string, scope: string, now: int, other: string)
    ensures KeepsOthers(s, PassphraseToken(w, s, passphrase, scope, now).s, scope, other)
  {
    hide ProactiveCheckin, AcquireToken, CheckinRun;
    var s1 := ProactiveCheckin(w, s);
    var a := AcquireToken(w, s1, passphrase, scope, now, false);
    AcquireKeeps(w, s1, passphrase, scope, now, false, other);
    var c := CheckinRun(w, a.s, Budgeted);
    AcquireKeeps(w, Tick(c.s), passphrase, scope, w.clock(c.s.ticks), true, other);
  }

  lemma {:induction false} MobileKeeps(w: Env, s: State, scope: string, other: string)
    ensures KeepsOthers(s, MobileToken(w, s, scope).s, scope, other)
  {
    hide ProactiveCheckin, PushRecovering, WaitFrom;
    var b := ConfirmBegin(w, ProactiveCheckin(w, s), None, scope, None, None);
    if b.rc == Ok {
      WaitKeeps(w, b.s, b.handle.value, w.confirmTimeout, 0, other);
    }
  }

  lemma {:induction false} EnsureKeeps(w: Env, s: State, scope: string, other: string)
    ensures KeepsOthers(s, EnsureToken(w, s, scope).s, scope, other)
  {
    hide MobileToken, PassphraseToken;
    var s1 := Tick(s);
    MobileKeeps(w, s1, scope, other);
    if s.auth.Some? && s.auth.value.passphrase.Some? {
      PassphraseKeeps(w, s1, s.auth.value.passphrase.value, scope, w.clock(s.ticks), other);
    }
  }

  lemma {:induction false} RetryKeeps(w: Env, s: State, req: Request, scope: string, other: string)
    ensures KeepsOthers(s, RetryRejected(w, s, req, scope).s, scope, other)
  {
    hide EnsureToken;
    EnsureKeeps(w, Invalidate(s, Some(scope)), scope, other);
  }

  /**
   * A request, rejected and retried or not, costs no other scope its token, however it ends, and gives
   * it none.
   */
  lemma {:induction false} RequestKeeps(
      w: Env, s: State, verb: Method, path: string, body: Body, scope: string, tls: Tls, other: string)
    requires other != scope
    ensures Cached(RequestRaw(w, s, verb, path, body, Some(scope), tls).s, other) == Cached(s, other)
  {
    hide EnsureToken, DispatchRecovering, RetryRejected;
    var t := EnsureToken(w, s, scope);
    EnsureKeeps(w, s, scope, other);
    var req := Request(verb, path, body, Some(t.token), tls, false);
    var a := DispatchRecovering(w, t.s, req, Some(scope));
    RetryKeeps(w, a.s, req, scope, other);
  }

  // ----------------------------------------------------------------- bodies

  /**
   * A binding that wants an object: a 2xx reply without a body is PROTOCOL with the reply's status, one
   * with any other text PROTOCOL without a status, an object is handed over as it came.
   */
  lemma {:induction false} JsonEnding(w: Env, s: State, verb: Method, path: string, body: Body, scope: string, tls: Tls)
    returns (own: History)
    requires Inv(w, s)
    ensures var g := RequestJson(w, s, verb, path, body, Some(scope), tls);
            && Owns(g.s.log) == Owns(s.log) + own
            && (own != [] && Last(own).Sent? && Last(own).out.Success() ==>
                  match Last(own).out.body
                  case NoBody => g.rc == Protocol && g.s.err.status == Last(own).out.status
                  case Malformed(_) => g.rc == Protocol && g.s.err == Error(0, false)
                  case Object(_) => g.rc == Ok && g.body == Last(own).out.body)
  {
    hide RequestRaw, Inv, EnsureToken, SecondToken, OwnShape, Placed, Costs;
    own := RequestSteps(w, s, verb, path, body, scope, tls);
  }
}
