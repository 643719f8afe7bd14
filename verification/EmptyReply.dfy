/**
 Bindings that take an empty 200 for success: signature verification, reboot and shutdown, wipeout.
 The request path reports an empty 200 as the pair (PROTOCOL, 200); a token acquisition inside the
 call can end in the same pair. What the pair is worth, and exactly when it can be trusted.
 */
module EmptyReply {
  import opened Options
  import opened Wire
  import opened Engine
  import opened Ledger
  import opened Exchange
  import opened Acquisition
  import opened Confirmation
  import opened Requests
  import opened Runs
  import opened Guarantees

  /** The request of such a binding. */
  function Asked(w: Env, s: State, verb: Method, path: string, body: Body, scope: string): Got {
    RequestRaw(w, ClearError(s), verb, path, body, Some(scope), Default)
  }

  /** What a call dispatched under its bearer. */
  function Dispatched(before: History, after: History): History {
    if |Owns(before)| <= |Owns(after)| then Owns(after)[|Owns(before)|..] else []
  }

  /** The device said yes to the last dispatch: an empty 200, or any 2xx with a body. */
  predicate Attested(own: History) {
    own != [] && Last(own).Sent?
    && Last(own).out.Success() && (!Last(own).out.body.NoBody? || Last(own).out.status == 200)
  }

  predicate IsPair(t: Token) {
    t.rc == Protocol && t.s.err.status == 200
  }

  /** One of the call's own two acquisitions fails with the pair: the first, or the one after a 401. */
  predicate AcquiresPair(w: Env, s: State, verb: Method, path: string, body: Body, scope: string) {
    var again := SecondToken(w, ClearError(s), Request(verb, path, body, None, Default, false), scope);
    IsPair(EnsureToken(w, ClearError(s), scope)) || (again.Some? && IsPair(again.value))
  }

  /** The binding reports success exactly when the device said yes, or an acquisition of the call did. */
  lemma {:induction false} SuccessExactly(w: Env, s: State, verb: Method, path: string, body: Body, scope: string)
    requires Inv(w, s)
    ensures var g := Asked(w, s, verb, path, body, scope);
            var own := Dispatched(s.log, g.s.log);
            && Owns(g.s.log) == Owns(s.log) + own
            && (EmptySuccess(g) <==> Attested(own) || AcquiresPair(w, s, verb, path, body, scope))
            && !(Attested(own) && AcquiresPair(w, s, verb, path, body, scope))
  {
    SameButErrorInv(w, s, ClearError(s));
    var g := Asked(w, s, verb, path, body, scope);
    var first := Request(verb, path, body, None, Default, false);
    hide Inv, RequestRaw, EnsureToken, SecondToken, Costs, OwnShape, Placed, OthersKept, Attested, AcquiresPair;
    var own := RequestSteps(w, ClearError(s), verb, path, body, scope, Default);
    assert Owns(g.s.log) == Owns(s.log) + own;
    assert Dispatched(s.log, g.s.log) == own;
    EndingDecides(w, s, verb, path, body, scope, g, own);
  }

  lemma EndingDecides(w: Env, s: State, verb: Method, path: string, body: Body, scope: string, g: Got, own: History)
    requires own != [] ==> Last(own).Sent?
    requires Ending(w, ClearError(s), Request(verb, path, body, None, Default, false), scope, g, own)
    ensures EmptySuccess(g) <==> Attested(own) || AcquiresPair(w, s, verb, path, body, scope)
    ensures !(Attested(own) && AcquiresPair(w, s, verb, path, body, scope))
  {
    hide EnsureToken;
  }

  // ------------------------------------------------- the device that fools

  /** A device that rejects every bearer and answers everything else with an empty 200. */
  function Refusal(req: Request): Outcome {
    if req.bearer.Some? then Reply(401, NoBody) else Reply(200, NoBody)
  }

  ghost predicate Refuses(w: Env) {
    forall log: History, req: Request :: w.device(log, req) == Refusal(req)
  }

  /** A login whose challenge is answered with an empty 200 fails with the pair. */
  lemma {:induction false} EmptyChallenge(w: Env, s: State, passphrase: string, scope: string, now: int)
    requires var req := Request(GET, TOKEN_PATH, NoBody, None, Default, false);
             Outgoing(w, ProactiveCheckin(w, s), req) == Reply(200, NoBody)
    ensures IsPair(PassphraseToken(w, s, passphrase, scope, now))
  {
    var s1 := ProactiveCheckin(w, s);
    var req := Request(GET, TOKEN_PATH, NoBody, None, Default, false);
    hide ProactiveCheckin, CheckinRun, LoginClaims, CacheExpiry, DriftEvident;
    assert DispatchRecovering(w, s1, req, None) == Attempt(Ok, 200, NoBody, Dispatch(w, s1, req, None));
    var g := RequestRaw(w, s1, GET, TOKEN_PATH, NoBody, None, Default);
    assert g.rc == Protocol && g.s.err.status == 200;
    hide RequestRaw;
    assert RequestJson(w, s1, GET, TOKEN_PATH, NoBody, None, Default) == g;
    hide RequestJson;
    var c := FetchChallenge(w, s1, false);
    assert c.rc == Protocol && c.s == g.s;
    hide FetchChallenge;
    var a := AcquireToken(w, s1, passphrase, scope, now, false);
    assert a.rc == Protocol && a.s == c.s;
  }

  /** A push whose broker session is answered with an empty 200 fails with the pair. */
  lemma {:induction false} EmptySession(w: Env, s: State, scope: string)
    requires var s1 := ClearError(ProactiveCheckin(w, s));
             Outgoing(w, s1, Request(GET, NOTIFY_URL + "/session", NoBody, None, Verify, false)) == Reply(200, NoBody)
    ensures IsPair(MobileToken(w, s, scope))
  {
    hide ProactiveCheckin, CheckinRun, ExtRequest, EventNew, ConfirmWait;
    var s1 := ProactiveCheckin(w, s);
    var t := NotifySession(w, s1, None);
    assert IsPair(t);
    hide NotifySession;
    assert FirePush(w, s1, None, scope, None, None) == Push(t.rc, None, "", t.s);
    hide FirePush;
    assert PushRecovering(w, s1, None, scope, None, None).s == t.s;
    hide PushRecovering;
    assert ConfirmBegin(w, s1, None, scope, None, None) == Begin(Protocol, None, t.s);
    hide ConfirmBegin;
  }

  /** Against that device every acquisition ends in the pair, in either mode. */
  lemma {:induction false} RefusedAcquisition(w: Env, s: State, scope: string)
    requires Refuses(w) && (Mobile(s) || HasPassphrase(s)) && !FreshHit(w, s, scope)
    ensures IsPair(EnsureToken(w, s, scope))
  {
    var s1 := Tick(s);
    if Mobile(s) {
      EmptySession(w, s1, scope);
    } else {
      EmptyChallenge(w, s1, s.auth.value.passphrase.value, scope, w.clock(s.ticks));
    }
    hide MobileToken, PassphraseToken, ProactiveCheckin;
  }

  /**
   * And every such binding of a session with a credential reports success, having sent nothing of
   * its own, or, with a fresh token to try, having got a 401 for it.
   */
  lemma {:induction false} RefusedSucceeds(w: Env, s: State, verb: Method, path: string, body: Body, scope: string)
    requires Inv(w, s) && Refuses(w) && (Mobile(s) || HasPassphrase(s))
    ensures var g := Asked(w, s, verb, path, body, scope);
            var own := Dispatched(s.log, g.s.log);
            && EmptySuccess(g) && !Attested(own)
            && (if FreshHit(w, s, scope) then
                  |own| == 1 && own[0].Sent? && own[0].req.path == path && own[0].req.body == body
                  && own[0].out == Reply(401, NoBody)
                else own == [])
  {
    var s1 := ClearError(s);
    var first := Request(verb, path, body, None, Default, false);
    SameButErrorInv(w, s, s1);
    if FreshHit(w, s, scope) {
      RefusedAfterHit(w, s1, first, scope);
    } else {
      RefusedAcquisition(w, s1, scope);
    }
    SuccessExactly(w, s, verb, path, body, scope);
    RefusedOwn(w, s, verb, path, body, scope);
  }

  /** A fresh token is tried, rejected and dropped; the acquisition that follows ends in the pair. */
  lemma {:induction false} RefusedAfterHit(w: Env, s: State, first: Request, scope: string)
    requires Refuses(w) && (Mobile(s) || HasPassphrase(s)) && FreshHit(w, s, scope) && first.tls == Default
    ensures var again := SecondToken(w, s, first, scope);
            again.Some? && IsPair(again.value)
  {
    HitSendsNothing(w, s, scope);
    var t := EnsureToken(w, s, scope);
    var req := first.(bearer := Some(t.token));
    hide EnsureToken;
    var a := DispatchRecovering(w, t.s, req, Some(scope));
    assert a == Attempt(Ok, 401, NoBody, Dispatch(w, t.s, req, Some(scope)));
    RefusedAcquisition(w, Invalidate(a.s, Some(scope)), scope);
  }

  /** What such a call dispatches: nothing without a fresh token. */
  lemma {:induction false} RefusedOwn(w: Env, s: State, verb: Method, path: string, body: Body, scope: string)
    requires Inv(w, s) && Refuses(w) && (Mobile(s) || HasPassphrase(s))
    ensures var own := Dispatched(s.log, Asked(w, s, verb, path, body, scope).s.log);
            if FreshHit(w, s, scope) then
              |own| == 1 && own[0].Sent? && own[0].req.path == path && own[0].req.body == body
              && own[0].out == Reply(401, NoBody)
            else own == []
  {
    var s1 := ClearError(s);
    SameButErrorInv(w, s, s1);
    if FreshHit(w, s, scope) {
      RefusedOnce(w, s1, verb, path, body, scope);
    } else {
      RefusedAcquisition(w, s1, scope);
      EnsureSteps(w, s1, scope);
      hide EnsureToken, Inv;
    }
  }

  /** And the one dispatch with a fresh token. */
  lemma {:induction false} RefusedOnce(w: Env, s: State, verb: Method, path: string, body: Body, scope: string)
    requires Inv(w, s) && Refuses(w) && (Mobile(s) || HasPassphrase(s)) && FreshHit(w, s, scope)
    ensures var req := Request(verb, path, body, Some(Cached(s, scope).value.token), Default, false);
            Owns(RequestRaw(w, s, verb, path, body, Some(scope), Default).s.log)
              == Owns(s.log) + [Sent(req, Some(scope), Reply(401, NoBody))]
  {
    var t := EnsureToken(w, s, scope);
    HitSendsNothing(w, s, scope);
    EnsureSteps(w, s, scope);
    var first := Request(verb, path, body, None, Default, false);
    var req := first.(bearer := Some(t.token));
    var s2 := Dispatch(w, t.s, req, Some(scope));
    RefusedAfterHit(w, s, first, scope);
    hide EnsureToken, Inv, RequestRaw, SecondToken;
    OwnDispatch(w, t.s, req, scope);
    InvalidateInv(w, s2, Some(scope));
    RefusedAcquisition(w, Invalidate(s2, Some(scope)), scope);
    EnsureSteps(w, Invalidate(s2, Some(scope)), scope);
    RefusedTrace(w, s, verb, path, body, scope, t, s2);
  }

  lemma RefusedTrace(w: Env, s: State, verb: Method, path: string, body: Body, scope: string, t: Token, s2: State)
    requires t == EnsureToken(w, s, scope) && t.rc == Ok && Refuses(w)
    requires var req := Request(verb, path, body, Some(t.token), Default, false);
             s2 == Dispatch(w, t.s, req, Some(scope))
    requires EnsureToken(w, Invalidate(s2, Some(scope)), scope).rc != Ok
    ensures RequestRaw(w, s, verb, path, body, Some(scope), Default).s
         == EnsureToken(w, Invalidate(s2, Some(scope)), scope).s
  {
    var req := Request(verb, path, body, Some(t.token), Default, false);
    hide EnsureToken, CheckinRun;
    var a := DispatchRecovering(w, t.s, req, Some(scope));
    assert a == Attempt(Ok, 401, NoBody, s2);
    hide DispatchRecovering;
  }

  // ------------------------------------------------------ exactly when

  /** Success means that the device said yes, and the other way round. */
  predicate Trusted(w: Env, s: State, verb: Method, path: string, body: Body, scope: string) {
    var g := Asked(w, s, verb, path, body, scope);
    EmptySuccess(g) <==> Attested(Dispatched(s.log, g.s.log))
  }

  /** Without a credential no acquisition is made, so nothing but the device's answer can be the pair. */
  lemma {:induction false} NoCredentialIsTrusted(w: Env, s: State, verb: Method, path: string, body: Body,
        scope: string)
    requires Inv(w, s) && !Mobile(s) && !HasPassphrase(s)
    ensures Trusted(w, s, verb, path, body, scope)
  {
    var s1 := ClearError(s);
    var first := Request(verb, path, body, None, Default, false);
    SuccessExactly(w, s, verb, path, body, scope);
    if FreshHit(w, s, scope) {
      HitSendsNothing(w, s1, scope);
      var t := EnsureToken(w, s1, scope);
      var a := DispatchRecovering(w, t.s, first.(bearer := Some(t.token)), Some(scope));
      NoCredentialSendsNothing(w, Invalidate(a.s, Some(scope)), scope);
      hide EnsureToken, DispatchRecovering;
    } else {
      NoCredentialSendsNothing(w, s1, scope);
      hide EnsureToken;
    }
  }

  lemma InvAnyDevice(w: Env, s: State, device: (History, Request) -> Outcome)
    requires Inv(w, s)
    ensures Inv(w.(device := device), s)
  {
  }

  /**
   * Such a binding can be trusted, whatever the device does, exactly when the session has no
   * credential to acquire a token with; a caller knows that before the call.
   */
  lemma {:induction false} TrustedExactly(w: Env, s: State, verb: Method, path: string, body: Body, scope: string)
    requires Inv(w, s)
    ensures (forall device: (History, Request) -> Outcome ::
               Trusted(w.(device := device), s, verb, path, body, scope))
            <==> !Mobile(s) && !HasPassphrase(s)
  {
    hide Inv, Trusted;
    if Mobile(s) || HasPassphrase(s) {
      var w' := w.(device := (log, req) => Refusal(req));
      InvAnyDevice(w, s, w'.device);
      NotTrusted(w', s, verb, path, body, scope);
      assert !Trusted(w.(device := w'.device), s, verb, path, body, scope);
    } else {
      forall device: (History, Request) -> Outcome
        ensures Trusted(w.(device := device), s, verb, path, body, scope)
      {
        InvAnyDevice(w, s, device);
        NoCredentialIsTrusted(w.(device := device), s, verb, path, body, scope);
      }
    }
  }

  lemma NotTrusted(w: Env, s: State, verb: Method, path: string, body: Body, scope: string)
    requires Inv(w, s) && Refuses(w) && (Mobile(s) || HasPassphrase(s))
    ensures !Trusted(w, s, verb, path, body, scope)
  {
    RefusedSucceeds(w, s, verb, path, body, scope);
    hide Asked;
  }

  // ------------------------------------------------------ the bindings

  predicate VerifyTrusted(w: Env, s: State, body: Body, scope: string) {
    var g := VerifySignature(w, s, body, scope);
    g.rc == Ok <==> Attested(Dispatched(s.log, g.s.log))
  }

  predicate RestartTrusted(w: Env, s: State, path: string, scope: string) {
    var g := Restart(w, s, path, scope);
    g.rc == Ok <==> Attested(Dispatched(s.log, g.s.log))
  }

  predicate WipeoutTrusted(w: Env, s: State) {
    var g := Wipeout(w, s);
    g.rc == Ok <==> Attested(Dispatched(s.log, g.s.log))
  }

  const VERIFY_PATH := "/api/crypto/exdsa/verify"
  const CONFIG_PATH := "/api/system/config"
  const WIPEOUT_BODY := Object(map["wipeout" := Other])

  /** What each binding makes of its request's result. */
  lemma Bindings(w: Env, s: State, body: Body, path: string, scope: string)
    ensures var g := Asked(w, s, POST, VERIFY_PATH, body, scope);
            var v := VerifySignature(w, s, body, scope);
            (v.rc == Ok <==> EmptySuccess(g)) && v.s.log == g.s.log
    ensures var g := Asked(w, s, GET, path, NoBody, scope);
            var r := Restart(w, s, path, scope);
            (r.rc == Ok <==> EmptySuccess(g)) && r.s.log == g.s.log
    ensures var g := Asked(w, s, POST, CONFIG_PATH, WIPEOUT_BODY, "system:config");
            var r := Wipeout(w, s);
            (r.rc == Ok <==> EmptySuccess(g)) && r.s.log == g.s.log && (r.rc == Ok ==> r.s.auth == None)
  {
    hide RequestRaw;
  }

  /** Signature verification: OK means valid, against every device, exactly without a credential. */
  lemma {:induction false} VerifyTrustedExactly(w: Env, s: State, body: Body, scope: string)
    requires Inv(w, s)
    ensures (forall device: (History, Request) -> Outcome :: VerifyTrusted(w.(device := device), s, body, scope))
            <==> !Mobile(s) && !HasPassphrase(s)
  {
    TrustedExactly(w, s, POST, VERIFY_PATH, body, scope);
    forall device: (History, Request) -> Outcome
      ensures VerifyTrusted(w.(device := device), s, body, scope)
         <==> Trusted(w.(device := device), s, POST, VERIFY_PATH, body, scope)
    {
      Bindings(w.(device := device), s, body, "", scope);
      hide VerifySignature, Asked, EmptySuccess;
    }
  }

  /** Reboot and shutdown. */
  lemma {:induction false} RestartTrustedExactly(w: Env, s: State, path: string, scope: string)
    requires Inv(w, s)
    ensures (forall device: (History, Request) -> Outcome :: RestartTrusted(w.(device := device), s, path, scope))
            <==> !Mobile(s) && !HasPassphrase(s)
  {
    TrustedExactly(w, s, GET, path, NoBody, scope);
    forall device: (History, Request) -> Outcome
      ensures RestartTrusted(w.(device := device), s, path, scope)
         <==> Trusted(w.(device := device), s, GET, path, NoBody, scope)
    {
      Bindings(w.(device := device), s, NoBody, path, scope);
      hide Restart, Asked, EmptySuccess;
    }
  }

  /** Factory reset. */
  lemma {:induction false} WipeoutTrustedExactly(w: Env, s: State)
    requires Inv(w, s)
    ensures (forall device: (History, Request) -> Outcome :: WipeoutTrusted(w.(device := device), s))
            <==> !Mobile(s) && !HasPassphrase(s)
  {
    TrustedExactly(w, s, POST, CONFIG_PATH, WIPEOUT_BODY, "system:config");
    forall device: (History, Request) -> Outcome
      ensures WipeoutTrusted(w.(device := device), s)
         <==> Trusted(w.(device := device), s, POST, CONFIG_PATH, WIPEOUT_BODY, "system:config")
    {
      Bindings(w.(device := device), s, NoBody, "", "system:config");
      hide Wipeout, Asked, EmptySuccess;
    }
  }

  // ------------------------------------------------ inputs that fool them

  /** That device, with session-start check-ins on, and a clock that stands still. */
  function Fooling(): Env {
    Env(false, true, false, 1, 1, "", (log, req) => Refusal(req), n => 0, bytes => NoBody, (a, b, c) => None)
  }

  lemma AfterLogin(passphrase: string)
    ensures var s := Reached(Fooling(), [DoLogin(passphrase)]);
            && Inv(Fooling(), s) && HasPassphrase(s) && s.auth.value.cache == map[] && s.ticks == 0
  {
    var calls := [DoLogin(passphrase)];
    RunKeeps(Fooling(), calls);
    assert calls[..0] == [];
    assert Run(Fooling(), Start(), calls[..0]) == Start();
  }

  /** A seeded token is fresh. */
  lemma AfterSeed(passphrase: string, scope: string)
    ensures var s := Reached(Fooling(), [DoLogin(passphrase), DoSeed(scope, "t")]);
            Inv(Fooling(), s) && HasPassphrase(s) && FreshHit(Fooling(), s, scope)
  {
    var w, calls := Fooling(), [DoLogin(passphrase), DoSeed(scope, "t")];
    RunKeeps(w, calls);
    AfterLogin(passphrase);
    hide Inv;
    assert calls[..1] == [DoLogin(passphrase)];
    assert Reached(w, calls) == CacheSeed(w, Reached(w, calls[..1]), scope, "t", BySeed);
    assert Claim(w, "t", "exp") == None;
  }

  /** After a login, verification is OK although the signature was never sent. */
  lemma {:induction false} VerifyWithoutDispatch(passphrase: string, body: Body, scope: string)
    ensures var s := Reached(Fooling(), [DoLogin(passphrase)]);
            var g := VerifySignature(Fooling(), s, body, scope);
            g.rc == Ok && Owns(g.s.log) == Owns(s.log)
  {
    AfterLogin(passphrase);
    var s := Reached(Fooling(), [DoLogin(passphrase)]);
    SuccessExactly(Fooling(), s, POST, VERIFY_PATH, body, scope);
    RefusedSucceeds(Fooling(), s, POST, VERIFY_PATH, body, scope);
    Bindings(Fooling(), s, body, "", scope);
    hide Inv, VerifySignature, Asked, EmptySuccess, Reached, Attested;
  }

  /** With a token in the cache besides, it is OK although the device rejected the request. */
  lemma {:induction false} VerifyDespiteRejection(passphrase: string, body: Body, scope: string)
    ensures var s := Reached(Fooling(), [DoLogin(passphrase), DoSeed(scope, "t")]);
            var g := VerifySignature(Fooling(), s, body, scope);
            var own := Dispatched(s.log, g.s.log);
            && g.rc == Ok && Owns(g.s.log) == Owns(s.log) + own
            && |own| == 1 && own[0].Sent? && own[0].req.path == VERIFY_PATH && own[0].req.body == body
            && own[0].out == Reply(401, NoBody)
  {
    AfterSeed(passphrase, scope);
    var s := Reached(Fooling(), [DoLogin(passphrase), DoSeed(scope, "t")]);
    SuccessExactly(Fooling(), s, POST, VERIFY_PATH, body, scope);
    RefusedSucceeds(Fooling(), s, POST, VERIFY_PATH, body, scope);
    Bindings(Fooling(), s, body, "", scope);
    hide Inv, VerifySignature, Asked, EmptySuccess, Reached, Attested, FreshHit;
  }

  /** And a wipeout is OK, and logs the client out, without the device having been asked. */
  lemma {:induction false} WipeoutWithoutDispatch(passphrase: string)
    ensures var s := Reached(Fooling(), [DoLogin(passphrase)]);
            var g := Wipeout(Fooling(), s);
            g.rc == Ok && g.s.auth == None && Owns(g.s.log) == Owns(s.log)
  {
    AfterLogin(passphrase);
    var s := Reached(Fooling(), [DoLogin(passphrase)]);
    SuccessExactly(Fooling(), s, POST, CONFIG_PATH, WIPEOUT_BODY, "system:config");
    RefusedSucceeds(Fooling(), s, POST, CONFIG_PATH, WIPEOUT_BODY, "system:config");
    Bindings(Fooling(), s, NoBody, "", "system:config");
    hide Inv, Wipeout, Asked, EmptySuccess, Reached, Attested;
  }
}
