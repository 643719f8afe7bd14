/**
 The authenticated request: what one may cost, how often the caller's own request goes out, and
 which bearer each dispatch carries.
 */
module Requests {
  import opened Options
  import opened Sequences
  import opened Wire
  import opened Engine
  import opened Ledger
  import opened Exchange
  import opened Acquisition
  import opened Confirmation

  /** A cached bearer that has not reached its expiry. */
  predicate FreshHit(w: Env, s: State, scope: string) {
    Cached(s, scope).Some? && Cached(s, scope).value.exp > w.clock(s.ticks)
  }

  function EnsureCost(w: Env, mobile: bool): nat {
    if mobile then MobileCost(w) else TokenCost(w)
  }

  /**
   * The newest event stored this bearer, not by an explicit seed, and the acquisition is younger than
   * the first `since` events: its token POST, or the beginning of its confirmation (a handle is
   * numbered by the length of the history it was begun in).
   */
  predicate JustStored(log: History, since: nat, scope: string, token: string) {
    && |log| > 0 && Last(log).Stored?
    && Last(log).key == scope && Last(log).token == token
    && match Last(log).source
       case ByPost => since + 1 < |log|
       case ByConfirm(h) => since <= h
       case BySeed => false
  }

  // ----------------------------------------------------------- chokepoint

  /** Nothing is sent on a fresh hit, and the cache stays as it is. */
  lemma HitSendsNothing(w: Env, s: State, scope: string)
    requires FreshHit(w, s, scope)
    ensures EnsureToken(w, s, scope) == Token(Ok, Cached(s, scope).value.token, Tick(s))
  {
  }

  /** With no credential to use, a miss is AUTH_EXPIRED and nothing is sent. */
  lemma NoCredentialSendsNothing(w: Env, s: State, scope: string)
    requires !FreshHit(w, s, scope) && !Mobile(s) && !HasPassphrase(s)
    ensures var t := EnsureToken(w, s, scope);
            t.rc == AuthExpired && t.s == SetError(Tick(s), 0, false)
  {
  }

  /** Everything a call of the chokepoint may do. */
  ghost predicate EnsureOutcome(w: Env, s: State, scope: string, t: Token) {
    && Inv(w, t.s) && Spends(s, t.s, EnsureCost(w, Mobile(s)), 1)
    && OthersKept(s.log, t.s.log, |s.log|)
    && Mobile(t.s) == Mobile(s)
    && (t.rc == Ok ==> HasStored(t.s.log, scope, t.token))
    && (t.rc == Ok && !FreshHit(w, s, scope) ==> |t.s.log| > |s.log| && JustStored(t.s.log, |s.log|, scope, t.token))
  }

  lemma {:induction false} PassphraseOutcome(w: Env, s: State, scope: string, read: nat)
    requires Inv(w, s) && HasPassphrase(s) && read < s.ticks
    ensures var t := PassphraseToken(w, s, s.auth.value.passphrase.value, scope, w.clock(read));
            && Inv(w, t.s) && Spends(s, t.s, TokenCost(w), 1)
            && OthersKept(s.log, t.s.log, |s.log|)
            && Mobile(t.s) == Mobile(s)
            && (t.rc == Ok ==> |t.s.log| > |s.log| && JustStored(t.s.log, |s.log|, scope, t.token))
  {
    hide PassphraseToken, ExpiryClaim, ExpiresFrom, HasStored, Anonymously;
    var t := PassphraseToken(w, s, s.auth.value.passphrase.value, scope, w.clock(read));
    var m, at := PassphraseSteps(w, s, s.auth.value.passphrase.value, scope, read);
    PassphraseGrows(w, s, s.auth.value.passphrase.value, scope, w.clock(read));
    QuietInv(w, s, m, TokenCost(w), 1);
    QuietSpends(s, m, TokenCost(w), 1);
    AnonymousKeeps(s.log, m.log);
    if t.rc == Ok {
      MintedInv(w, m, t.s, scope, t.token, at);
      Append(m.log, Stored(scope, t.token, ByPost));
    }
  }

  lemma TickInv(w: Env, s: State)
    requires Inv(w, s)
    ensures Inv(w, Tick(s)) && Inv(w, SetError(Tick(s), 0, false))
  {
  }

  /** An acquisition's outcome is the chokepoint's, the clock having been read before it. */
  lemma AcquiredOutcome(w: Env, s: State, scope: string, t: Token, sends: nat)
    requires !FreshHit(w, s, scope) && sends <= EnsureCost(w, Mobile(s))
    requires Inv(w, t.s) && Spends(Tick(s), t.s, sends, 1) && OthersKept(s.log, t.s.log, |s.log|)
    requires Mobile(t.s) == Mobile(s)
    requires t.rc == Ok ==> |t.s.log| > |s.log| && JustStored(t.s.log, |s.log|, scope, t.token)
    ensures EnsureOutcome(w, s, scope, t)
  {
    hide Inv, OthersKept, EnsureCost;
    StoredNow(t, |s.log|, scope);
  }

  lemma {:induction false} EnsureSteps(w: Env, s: State, scope: string)
    requires Inv(w, s)
    ensures EnsureOutcome(w, s, scope, EnsureToken(w, s, scope))
  {
    var s1, t := Tick(s), EnsureToken(w, s, scope);
    TickInv(w, s);
    if FreshHit(w, s, scope) {
      HitSendsNothing(w, s, scope);
      hide Inv, EnsureToken, EnsureCost;
      assert HasStored(s.log, scope, t.token);
    } else if Mobile(s) {
      hide Inv, EnsureOutcome, MobileToken, Spends, OthersKept;
      MobileSteps(w, s1, scope);
      SpendsMore(s1, t.s, MobileCost(w), 0, 1);
      AcquiredOutcome(w, s, scope, t, MobileCost(w));
    } else if HasPassphrase(s) {
      hide Inv, EnsureOutcome, PassphraseToken, Spends, OthersKept;
      PassphraseOutcome(w, s1, scope, s.ticks);
      AcquiredOutcome(w, s, scope, t, TokenCost(w));
    } else {
      hide Inv, EnsureToken, EnsureCost;
      NoCredentialSendsNothing(w, s, scope);
    }
  }

  lemma SpendsMore(s: State, s': State, n: nat, b: nat, more: nat)
    requires Spends(s, s', n, b) && b <= more
    ensures Spends(s, s', n, more)
  {
  }

  lemma StoredNow(t: Token, since: nat, scope: string)
    ensures JustStored(t.s.log, since, scope, t.token) ==> HasStored(t.s.log, scope, t.token)
  {
    if JustStored(t.s.log, since, scope, t.token) {
      assert t.s.log == Front(t.s.log) + [Last(t.s.log)];
      NewestStored(Front(t.s.log), scope, t.token, Last(t.s.log).source);
    }
  }

  // ------------------------------------------------- the caller's dispatches

  /** Costs of a step that may dispatch under a bearer. */
  predicate Costs(s: State, s': State, sends: nat, budgeted: nat) {
    && Onward(s, s')
    && Usage(s'.log).sends + 3 * Fired(s) <= Usage(s.log).sends + sends + 3 * Fired(s')
    && Usage(s'.log).budgeted <= Usage(s.log).budgeted + budgeted
  }

  lemma CostsThen(s1: State, s2: State, s3: State, n: nat, b: nat, n': nat, b': nat)
    requires Costs(s1, s2, n, b) && Costs(s2, s3, n', b')
    ensures Costs(s1, s3, n + n', b + b')
  {
  }

  lemma {:induction false} OwnDispatch(w: Env, s: State, req: Request, scope: string)
    requires Inv(w, s) && req.bearer.Some? && HasStored(s.log, scope, req.bearer.value)
    ensures var e := Sent(req, Some(scope), Outgoing(w, s, req));
            var s' := Dispatch(w, s, req, Some(scope));
            && Inv(w, s') && Costs(s, s', 1, 0) && s'.auth == s.auth
            && s'.log == s.log + [e] && Owns(s'.log) == Owns(s.log) + [e]
            && forall x: nat :: Answers(s'.log, x) == Answers(s.log, x)
  {
    var e := Sent(req, Some(scope), Outgoing(w, s, req));
    Append(s.log, e);
    NoteInv(w, s, e);
  }

  /** The second of two dispatches is the first one resent after an expired certificate. */
  predicate Resent(a: Event, b: Event) {
    && a.Sent? && b.Sent? && a.out.Failed? && a.out.expired
    && b == Sent(a.req.(renew := true), a.scope, b.out)
  }

  predicate Rejected(e: Event) {
    e.Sent? && e.out.Reply? && e.out.status == 401
  }

  /**
   * How a dispatch without a reply ends: as its last send failed, unless that one met an expired
   * certificate again; then as the first send failed, and the error record says why.
   */
  predicate FailsAs(own: History, rc: Rc, err: Error) {
    && own != [] && own[0].Sent? && Last(own).Sent? && Last(own).out.Failed?
    && if Last(own).out.expired then own[0].out.Failed? && rc == own[0].out.rc && err == Error(0, true)
       else rc == Last(own).out.rc && err == Error(0, false)
  }

  /** After `before`: a dispatch, a completed certificate check-in, the resend, and nothing else. */
  ghost predicate Recovered(w: Env, before: History, log: History, first: Event, second: Event) {
    exists events: History :: CheckedIn(w, events) && log == before + [first] + events + [second]
  }

  /** Everything a dispatch with certificate recovery may do; `own` is what it sent under the bearer. */
  ghost predicate RecoveringOutcome(w: Env, s: State, req: Request, scope: string, a: Attempt, own: History) {
    && Inv(w, a.s) && Costs(s, a.s, RawCost(w, s.inCheckin, req.tls), 0) && a.s.auth == s.auth
    && (forall x: nat :: Answers(a.s.log, x) == Answers(s.log, x))
    && Owns(a.s.log) == Owns(s.log) + own
    && 1 <= |own| <= 2
    && own[0].Sent? && own[0] == Sent(req, Some(scope), own[0].out)
    && Last(own).Sent?
    && (|own| == 1 ==> s.log + own <= a.s.log && (a.rc == Ok ==> a.s.log == s.log + own))
    && (|own| == 2 ==> Resent(own[0], own[1]) && Recovered(w, s.log, a.s.log, own[0], own[1]))
    && (if a.rc == Ok then Last(own).out == Reply(a.status, a.body) else FailsAs(own, a.rc, a.s.err))
  }

  /** How a dispatch that was resent ends: as the second send did, or as the first one failed. */
  lemma ResentEnds(w: Env, s: State, req: Request, scope: string, c: Got, s2: State)
    requires Outgoing(w, s, req).Failed? && Outgoing(w, s, req).expired
    requires !w.noAutoCheckin && !s.inCheckin && req.tls == Default
    requires c == CheckinRun(w, Dispatch(w, s, req, Some(scope)), CertRecovery) && c.rc == Ok
    requires s2 == Dispatch(w, c.s, req.(renew := true), Some(scope))
    ensures var a := DispatchRecovering(w, s, req, Some(scope));
            var o2 := Outgoing(w, c.s, req.(renew := true));
            && SameButError(s2, a.s)
            && (if a.rc == Ok then o2 == Reply(a.status, a.body)
                else
                  && o2.Failed? && a.s.err == Error(0, o2.expired)
                  && a.rc == if o2.expired then Outgoing(w, s, req).rc else o2.rc)
  {
    hide CheckinRun;
  }

  lemma RefreshedInv(w: Env, s: State, s': State)
    requires Inv(w, s) && SameButError(s, s')
    ensures Inv(w, s')
  {
  }

  lemma RecoveredOutcome(w: Env, s: State, req: Request, scope: string, s1: State, c: State, s2: State, a: Attempt,
        own: History)
    requires Costs(s, s1, 1, 0) && Costs(s1, c, 3, 0) && Costs(c, s2, 1, 0) && Inv(w, s2)
    requires RawCost(w, s.inCheckin, req.tls) == 5
    requires s1 == Dispatch(w, s, req, Some(scope)) && s2 == Dispatch(w, c, req.(renew := true), Some(scope))
    requires s1.auth == s.auth && c.auth == s1.auth && SameButError(s2, a.s)
    requires Owns(s1.log) == Owns(s.log) + [Last(s1.log)] && Owns(c.log) == Owns(s1.log)
    requires Owns(s2.log) == Owns(c.log) + [Last(s2.log)] && own == [Last(s1.log), Last(s2.log)]
    requires forall x: nat :: Answers(s1.log, x) == Answers(s.log, x)
    requires forall x: nat :: Answers(c.log, x) == Answers(s1.log, x)
    requires forall x: nat :: Answers(s2.log, x) == Answers(c.log, x)
    requires Outgoing(w, s, req).Failed? && Outgoing(w, s, req).expired
    requires Recovered(w, s.log, s2.log, own[0], own[1])
    requires var o2 := Outgoing(w, c, req.(renew := true));
             if a.rc == Ok then o2 == Reply(a.status, a.body)
             else
               && o2.Failed? && a.s.err == Error(0, o2.expired)
               && a.rc == if o2.expired then Outgoing(w, s, req).rc else o2.rc
    ensures RecoveringOutcome(w, s, req, scope, a, own)
  {
    hide Inv, Answers, Owns, Usage, RawCost, Recovered;
    RefreshedInv(w, s2, a.s);
  }

  lemma {:induction false} CheckinBetween(w: Env, s: State, req: Request, scope: string, c: Got, s2: State)
    requires var s1 := Dispatch(w, s, req, Some(scope));
             && c == CheckinRun(w, s1, CertRecovery) && c.rc == Ok
             && s2 == Dispatch(w, c.s, req.(renew := true), Some(scope))
    ensures Recovered(w, s.log, s2.log, Sent(req, Some(scope), Outgoing(w, s, req)), Last(s2.log))
  {
    var s1 := Dispatch(w, s, req, Some(scope));
    var outs := CheckinShape(w, s1, CertRecovery);
    hide CheckinRun, Legs;
    var events := [CheckinBegan(CertRecovery)] + Legs(w, outs);
    assert CheckedIn(w, events);
    assert s2.log == s.log + [Last(s1.log)] + events + [Last(s2.log)];
  }

  lemma {:induction false} ResentSteps(w: Env, s: State, req: Request, scope: string, c: Got) returns (own: History)
    requires Inv(w, s) && req.bearer.Some? && HasStored(s.log, scope, req.bearer.value)
    requires Outgoing(w, s, req).Failed? && Outgoing(w, s, req).expired
    requires !w.noAutoCheckin && !s.inCheckin && req.tls == Default
    requires c == CheckinRun(w, Dispatch(w, s, req, Some(scope)), CertRecovery) && c.rc == Ok
    ensures RecoveringOutcome(w, s, req, scope, DispatchRecovering(w, s, req, Some(scope)), own)
  {
    var s1 := Dispatch(w, s, req, Some(scope));
    OwnDispatch(w, s, req, scope);
    CheckinQuiet(w, s1, CertRecovery);
    QuietInv(w, s1, c.s, 3, 0);
    AnonymousKeeps(s1.log, c.s.log);
    assert Undisturbed(s1.log, |s.log|, scope);
    StoredStays(s.log, s1.log, scope, req.bearer.value);
    AnonymousUndisturbed(s1.log, c.s.log, scope);
    StoredStays(s1.log, c.s.log, scope, req.bearer.value);
    var again := req.(renew := true);
    OwnDispatch(w, c.s, again, scope);
    var s2 := Dispatch(w, c.s, again, Some(scope));
    own := [Last(s1.log), Last(s2.log)];
    CheckinBetween(w, s, req, scope, c, s2);
    ResentEnds(w, s, req, scope, c, s2);
    hide Inv, Recovered, DispatchRecovering, CheckinRun, RecoveringOutcome;
    RecoveredOutcome(w, s, req, scope, s1, c.s, s2, DispatchRecovering(w, s, req, Some(scope)), own);
  }

  /** One dispatch, and a check-in behind it that came to nothing or none at all. */
  lemma {:induction false} PlainOutcome(w: Env, s: State, req: Request, scope: string, s1: State, a: Attempt)
    requires Inv(w, s) && req.bearer.Some? && HasStored(s.log, scope, req.bearer.value)
    requires s1 == Dispatch(w, s, req, Some(scope))
    requires var o := Outgoing(w, s, req);
             if a.rc == Ok then o == Reply(a.status, a.body) && a.s == s1
             else o.Failed? && a.rc == o.rc && a.s.err == Error(0, o.expired)
    requires Quietly(s1, a.s, RawCost(w, s.inCheckin, req.tls) - 1, 0)
    ensures RecoveringOutcome(w, s, req, scope, a, [Last(s1.log)])
  {
    OwnDispatch(w, s, req, scope);
    QuietInv(w, s1, a.s, RawCost(w, s.inCheckin, req.tls) - 1, 0);
    AnonymousKeeps(s1.log, a.s.log);
    hide Inv, Answers, Owns, Usage, Anonymously, RawCost, HasStored;
  }

  lemma {:induction false} RecoveringSteps(w: Env, s: State, req: Request, scope: string) returns (own: History)
    requires Inv(w, s) && req.bearer.Some? && HasStored(s.log, scope, req.bearer.value)
    ensures RecoveringOutcome(w, s, req, scope, DispatchRecovering(w, s, req, Some(scope)), own)
  {
    hide Inv, CheckinRun, RecoveringOutcome, HasStored;
    var o := Outgoing(w, s, req);
    var s1 := Dispatch(w, s, req, Some(scope));
    var a := DispatchRecovering(w, s, req, Some(scope));
    own := [Last(s1.log)];
    if o.Failed? && o.expired && !w.noAutoCheckin && !s1.inCheckin && req.tls == Default {
      var c := CheckinRun(w, s1, CertRecovery);
      if c.rc == Ok {
        own := ResentSteps(w, s, req, scope, c);
      } else {
        CheckinQuiet(w, s1, CertRecovery);
        QuietlyWithAny(s1, c.s, a.s, 3);
        PlainOutcome(w, s, req, scope, s1, a);
      }
    } else {
      StillQuiet(s1, a.s, RawCost(w, s.inCheckin, req.tls) - 1);
      PlainOutcome(w, s, req, scope, s1, a);
    }
  }

  lemma QuietlyWithAny(s: State, s': State, s'': State, n: nat)
    requires Quietly(s, s', n, 0) && s'' == s'.(err := s''.err)
    ensures Quietly(s, s'', n + 1, 0)
  {
  }

  lemma StillQuiet(s: State, s': State, n: nat)
    requires s' == s.(err := s'.err)
    ensures Quietly(s, s', n, 0)
  {
  }

  /** What a rejected bearer leads to: `own` is empty when no new bearer could be had. */
  ghost predicate RetryOutcome(w: Env, s: State, req: Request, scope: string, a: Attempt, own: History) {
    && Inv(w, a.s) && Costs(s, a.s, EnsureCost(w, Mobile(s)) + 1, 1)
    && Mobile(a.s) == Mobile(s)
    && OthersKept(s.log, a.s.log, |s.log|)
    && Owns(a.s.log) == Owns(s.log) + own
    && |own| <= 1
    && (own == [] <==> EnsureToken(w, Invalidate(s, Some(scope)), scope).rc != Ok)
    && (own == [] ==> var t := EnsureToken(w, Invalidate(s, Some(scope)), scope); a.rc == t.rc && a.s == t.s)
    && (own != [] ==>
          && |a.s.log| >= |s.log| + 2
          && Last(a.s.log) == own[0] && own[0].Sent?
          && own[0] == Sent(req.(bearer := own[0].req.bearer, renew := true), Some(scope), own[0].out)
          && own[0].req.bearer.Some?
          && JustStored(Front(a.s.log), |s.log|, scope, own[0].req.bearer.value)
          && (if a.rc == Ok then own[0].out == Reply(a.status, a.body)
              else own[0].out.Failed? && a.rc == own[0].out.rc && a.s.err == Error(0, false)))
  }

  lemma InvalidateInv(w: Env, s: State, scope: Option<string>)
    requires Inv(w, s)
    ensures var s' := Invalidate(s, scope);
            && Inv(w, s') && s'.log == s.log && s' == s.(auth := s'.auth)
            && Mobile(s') == Mobile(s) && HasPassphrase(s') == HasPassphrase(s)
            && (forall k :: scope == None || scope == Some(k) ==> Cached(s', k).None?)
  {
  }

  /** Dropping the entry means the next bearer is a new one. */
  lemma {:induction false} RetrySteps(w: Env, s: State, req: Request, scope: string) returns (own: History)
    requires Inv(w, s)
    ensures RetryOutcome(w, s, req, scope, RetryRejected(w, s, req, scope), own)
  {
    hide Inv, EnsureToken, EnsureCost, Usage, Answers;
    var s0 := Invalidate(s, Some(scope));
    var t := EnsureToken(w, s0, scope);
    var a := RetryRejected(w, s, req, scope);
    InvalidateInv(w, s, Some(scope));
    EnsureSteps(w, s0, scope);
    if t.rc == Ok {
      var again := req.(bearer := Some(t.token), renew := true);
      var s1 := Dispatch(w, t.s, again, Some(scope));
      own := [Last(s1.log)];
      assert a.s == s1 || a.s == s1.(err := a.s.err);
      RetriedOutcome(w, s, s0, req, scope, t, s1, a);
    } else {
      own := [];
    }
  }

  lemma {:induction false} RetriedOutcome(w: Env, s: State, s0: State, req: Request, scope: string, t: Token,
        s1: State, a: Attempt)
    requires s0 == Invalidate(s, Some(scope)) && s0.log == s.log && s0 == s.(auth := s0.auth)
    requires !FreshHit(w, s0, scope) && Mobile(s0) == Mobile(s)
    requires t == EnsureToken(w, s0, scope) && EnsureOutcome(w, s0, scope, t) && t.rc == Ok
    requires s1 == Dispatch(w, t.s, req.(bearer := Some(t.token), renew := true), Some(scope))
    requires a == RetryRejected(w, s, req, scope)
    ensures RetryOutcome(w, s, req, scope, a, [Last(s1.log)])
  {
    hide Inv, EnsureToken, Usage, EnsureCost;
    var again := req.(bearer := Some(t.token), renew := true);
    OwnDispatch(w, t.s, again, scope);
    assert Front(s1.log) == t.s.log;
    assert a.s == s1.(err := a.s.err);
    SameButErrorInv(w, s1, a.s);
  }

  // ---------------------------------------------------------- whole request

  function RequestCost(w: Env, mobile: bool, tls: Tls): nat {
    2 * EnsureCost(w, mobile) + RawCost(w, false, tls) + 1
  }

  /** A request in passphrase mode, the session-start check-in apart. */
  lemma CallCost(w: Env)
    ensures RequestCost(w, false, Default) == if w.noAutoCheckin then 6 else 52
  {
  }

  /**
   * The caller's own dispatches, in order: the first, at most one resend after a completed
   * certificate check-in, at most one repeat after a 401.
   */
  ghost predicate OwnShape(own: History, first: Request, scope: string) {
    && |own| <= 3
    && (forall k :: 0 <= k < |own| ==>
          && own[k].Sent?
          && own[k] == Sent(first.(bearer := own[k].req.bearer, renew := k > 0), Some(scope), own[k].out))
    && (|own| == 2 ==> Resent(own[0], own[1]) || Rejected(own[0]))
    && (|own| == 3 ==> Resent(own[0], own[1]) && Rejected(own[1]))
  }

  /**
   * Where in the history a request's own dispatches are: a resend directly behind a completed
   * certificate check-in, and a dispatch after a 401 directly behind the storing of its bearer by an
   * acquisition that began after that 401.
   */
  ghost predicate Placed(w: Env, before: History, log: History, own: History, at: seq<nat>, scope: string)
    requires forall k :: 0 <= k < |own| ==> own[k].Sent?
  {
    var n := |own|;
    && |at| == n
    && (forall k :: 0 <= k < n ==> |before| <= at[k] < |log| && log[at[k]] == own[k])
    && (forall j, k :: 0 <= j < k < n ==> at[j] < at[k])
    && (n >= 2 && Resent(own[0], own[1]) ==> CheckedIn(w, log[at[0] + 1..at[1]]))
    && (n >= 2 && Rejected(own[n - 2]) ==>
          && at[n - 2] < |log| - 2 && at[n - 1] == |log| - 1
          && own[n - 1].req.bearer.Some?
          && JustStored(Front(log), at[n - 2] + 1, scope, own[n - 1].req.bearer.value))
  }

  ghost predicate RequestOutcome(w: Env, s: State, first: Request, scope: string, g: Got, own: History) {
    && Inv(w, g.s)
    && Costs(s, g.s, RequestCost(w, Mobile(s), first.tls), 2)
    && Mobile(g.s) == Mobile(s)
    && OthersKept(s.log, g.s.log, |s.log|)
    && Owns(g.s.log) == Owns(s.log) + own
    && OwnShape(own, first, scope)
    && exists at: seq<nat> :: Placed(w, s.log, g.s.log, own, at, scope)
  }

  /** The acquisition that follows a 401, when the request gets that far. */
  function SecondToken(w: Env, s: State, first: Request, scope: string): Option<Token> {
    var t := EnsureToken(w, s, scope);
    if t.rc != Ok then None
    else
      var a := DispatchRecovering(w, t.s, first.(bearer := Some(t.token)), Some(scope));
      if a.rc == Ok && a.status == 401 then Some(EnsureToken(w, Invalidate(a.s, Some(scope)), scope)) else None
  }

  /** Where the request ended: in its first acquisition, in its second, or with its last dispatch. */
  ghost predicate Ending(w: Env, s: State, first: Request, scope: string, g: Got, own: History)
    requires own != [] ==> Last(own).Sent?
  {
    var t, again := EnsureToken(w, s, scope), SecondToken(w, s, first, scope);
    if t.rc != Ok then
      own == [] && g == Got(t.rc, NoBody, t.s)
    else if again.Some? && again.value.rc != Ok then
      own != [] && Rejected(Last(own)) && g == Got(again.value.rc, NoBody, again.value.s)
    else
      && own != []
      && match Last(own).out
         case Failed(rc, _) =>
           if |own| >= 2 && Rejected(own[|own| - 2]) then g.rc == rc && g.s.err == Error(0, false)
           else FailsAs(own, g.rc, g.s.err)
         case Reply(status, body) =>
           if 200 <= status < 300 then
             if body.NoBody? then g.rc == Protocol && g.s.err.status == status else g.rc == Ok && g.body == body
           else MeansStatus(g.rc, status) && g.s.err.status == status
  }

  /**
   * A scoped request, whatever the device does: its cost, at most three dispatches of its own, and
   * the bearer each of them carries.
   */
  lemma {:induction false} RequestSteps(w: Env, s: State, verb: Method, path: string, body: Body, scope: string,
        tls: Tls)
    returns (own: History)
    requires Inv(w, s)
    ensures var first := Request(verb, path, body, None, tls, false);
            var g := RequestRaw(w, s, verb, path, body, Some(scope), tls);
            RequestOutcome(w, s, first, scope, g, own) && Ending(w, s, first, scope, g, own)
  {
    var first := Request(verb, path, body, None, tls, false);
    var g := RequestRaw(w, s, verb, path, body, Some(scope), tls);
    var t := EnsureToken(w, s, scope);
    EnsureSteps(w, s, scope);
    hide Inv, EnsureToken, EnsureOutcome, DispatchRecovering, RetryRejected, RequestOutcome, Ending, RecoveringOutcome,
         RetryOutcome;
    if t.rc != Ok {
      own := [];
      NoneOutcome(w, s, first, scope, t, g);
    } else {
      own := FromFirstToken(w, s, first, scope, t, g);
    }
  }

  /** With a first token to send. */
  lemma {:induction false} FromFirstToken(w: Env, s: State, first: Request, scope: string, t: Token, g: Got)
    returns (own: History)
    requires Inv(w, s) && t == EnsureToken(w, s, scope) && t.rc == Ok && EnsureOutcome(w, s, scope, t)
    requires first.bearer.None? && !first.renew
    requires g == RequestRaw(w, s, first.verb, first.path, first.body, Some(scope), first.tls)
    ensures RequestOutcome(w, s, first, scope, g, own) && Ending(w, s, first, scope, g, own)
  {
    assert Inv(w, t.s) && HasStored(t.s.log, scope, t.token);
    hide Inv, EnsureToken, EnsureOutcome, DispatchRecovering, RetryRejected, RequestOutcome, Ending, RetryOutcome,
         Placed;
    var req := first.(bearer := Some(t.token));
    var a := DispatchRecovering(w, t.s, req, Some(scope));
    own := RecoveringSteps(w, t.s, req, scope);
    if a.rc == Ok && a.status == 401 {
      var b := RetryRejected(w, a.s, req, scope);
      var own2 := RetrySteps(w, a.s, req, scope);
      assert g == if b.rc != Ok then Got(b.rc, NoBody, b.s) else Classify(b.s, b.status, b.body);
      TwiceOutcome(w, s, first, scope, t, a, own, b, own2, g);
      own := own + own2;
    } else {
      assert g == if a.rc != Ok then Got(a.rc, NoBody, a.s) else Classify(a.s, a.status, a.body);
      OnceOutcome(w, s, first, scope, t, a, own, g);
    }
  }

  lemma {:induction false} NoneOutcome(w: Env, s: State, first: Request, scope: string, t: Token, g: Got)
    requires t == EnsureToken(w, s, scope) && EnsureOutcome(w, s, scope, t) && t.rc != Ok
    requires g == Got(t.rc, NoBody, t.s)
    ensures RequestOutcome(w, s, first, scope, g, []) && Ending(w, s, first, scope, g, [])
  {
    hide Inv, EnsureToken, Usage, OthersKept;
    assert Placed(w, s.log, g.s.log, [], [], scope);
    hide Placed;
  }

  /** No rejection: the recovering dispatch is the whole request. */
  lemma {:induction false} OnceOutcome(w: Env, s: State, first: Request, scope: string, t: Token, a: Attempt,
        own: History, g: Got)
    requires EnsureOutcome(w, s, scope, t) && t.rc == Ok && first.bearer.None? && !first.renew
    requires RecoveringOutcome(w, t.s, first.(bearer := Some(t.token)), scope, a, own)
    requires !(a.rc == Ok && a.status == 401)
    requires t == EnsureToken(w, s, scope) && SecondToken(w, s, first, scope).None?
    requires g == if a.rc != Ok then Got(a.rc, NoBody, a.s) else Classify(a.s, a.status, a.body)
    ensures RequestOutcome(w, s, first, scope, g, own) && Ending(w, s, first, scope, g, own)
  {
    hide Inv, EnsureToken, SecondToken, Recovered, Placed, OwnShape, Costs, OthersKept, Ending, RawCost, EnsureCost;
    SameButErrorInv(w, a.s, g.s);
    var at := RecoveredPlaces(w, s.log, t.s.log, a, own, scope);
    OnceCosts(w, s, first.tls, t.s, a.s, g.s);
    OnceShape(first, scope, t.token, own);
    OnceEnds(w, s, first, scope, a, own, g);
  }

  lemma OnceCosts(w: Env, s: State, tls: Tls, s1: State, s2: State, s3: State)
    requires Spends(s, s1, EnsureCost(w, Mobile(s)), 1) && Costs(s1, s2, RawCost(w, s1.inCheckin, tls), 0)
    requires s3 == s2.(err := s3.err) && OthersKept(s.log, s1.log, |s.log|)
    requires forall x: nat :: Answers(s2.log, x) == Answers(s1.log, x)
    ensures Costs(s, s3, RequestCost(w, Mobile(s), tls), 2) && OthersKept(s.log, s3.log, |s.log|)
  {
    hide Answers, Usage, EnsureCost;
    forall x: nat | x < |s.log| && x != |s.log|
      ensures Answers(s3.log, x) == Answers(s.log, x)
    {
      assert Answers(s2.log, x) == Answers(s1.log, x);
    }
  }

  lemma OnceShape(first: Request, scope: string, token: string, own: History)
    requires first.bearer.None? && !first.renew
    requires 1 <= |own| <= 2 && own[0].Sent? && own[0] == Sent(first.(bearer := Some(token)), Some(scope), own[0].out)
    requires |own| == 2 ==> Resent(own[0], own[1])
    ensures OwnShape(own, first, scope)
  {
  }

  lemma OnceEnds(w: Env, s: State, first: Request, scope: string, a: Attempt, own: History, g: Got)
    requires EnsureToken(w, s, scope).rc == Ok && SecondToken(w, s, first, scope).None?
    requires own != [] && Last(own).Sent? && !(a.rc == Ok && a.status == 401)
    requires |own| <= 2 && own[0].Sent? && (|own| == 2 ==> own[0].out.Failed?)
    requires if a.rc == Ok then Last(own).out == Reply(a.status, a.body) else FailsAs(own, a.rc, a.s.err)
    requires g == if a.rc != Ok then Got(a.rc, NoBody, a.s) else Classify(a.s, a.status, a.body)
    ensures Ending(w, s, first, scope, g, own)
  {
    hide EnsureToken, SecondToken;
  }

  function LastIndex(at: seq<nat>): nat
    requires |at| > 0
  {
    at[|at| - 1]
  }

  /** Where the dispatches of a recovering dispatch are. */
  lemma {:induction false} RecoveredPlaces(
      w: Env, before: History, start: History, a: Attempt, own: History, scope: string)
    returns (at: seq<nat>)
    requires before <= start && 1 <= |own| <= 2 && forall k :: 0 <= k < |own| ==> own[k].Sent?
    requires |own| == 1 ==> start + own <= a.s.log && (a.rc == Ok ==> a.s.log == start + own)
    requires |own| == 2 ==> Resent(own[0], own[1]) && Recovered(w, start, a.s.log, own[0], own[1])
    ensures Placed(w, before, a.s.log, own, at, scope)
    ensures |before| < |a.s.log| && (a.rc == Ok ==> LastIndex(at) == |a.s.log| - 1)
  {
    hide JustStored, CheckedIn;
    at := [|start|];
    if |own| == 1 {
      assert a.s.log[|start|] == (start + own)[|start|];
    } else {
      var events: History :| CheckedIn(w, events) && a.s.log == start + [own[0]] + events + [own[1]];
      at := [|start|, |start| + 1 + |events|];
      MiddleSlice(start, own[0], events, own[1]);
    }
  }

  /** In a longer history everything is where it was. */
  lemma PlacedLonger(w: Env, before: History, middle: History, log: History, own: History, at: seq<nat>, scope: string)
    requires 1 <= |own| <= 2 && forall k :: 0 <= k < |own| ==> own[k].Sent?
    requires Placed(w, before, middle, own, at, scope) && middle <= log
    requires |own| == 2 ==> Resent(own[0], own[1])
    ensures Placed(w, before, log, own, at, scope)
  {
    hide JustStored, CheckedIn;
    forall k | 0 <= k < |own|
      ensures log[at[k]] == own[k]
    {
      assert log[at[k]] == middle[at[k]];
    }
    if |own| == 2 {
      PrefixSlice(middle, log, at[0] + 1, at[1]);
    }
  }

  /** The dispatch after a 401 is the newest event. */
  lemma PlacedMore(w: Env, before: History, log: History, own: History, at: seq<nat>, e: Event, scope: string)
    requires 1 <= |own| <= 2 && forall k :: 0 <= k < |own| ==> own[k].Sent?
    requires Placed(w, before, log, own, at, scope) && Rejected(Last(own)) && LastIndex(at) < |log| - 2
    requires |before| < |log| && Last(log) == e && e.Sent? && e.req.bearer.Some?
    requires JustStored(Front(log), LastIndex(at) + 1, scope, e.req.bearer.value)
    ensures forall k :: 0 <= k < |own + [e]| ==> (own + [e])[k].Sent?
    ensures Placed(w, before, log, own + [e], at + [|log| - 1], scope)
  {
    hide JustStored, CheckedIn;
  }

  lemma TwicePlaces(w: Env, before: History, start: History, a: Attempt, own1: History, log: History, own2: History,
        scope: string)
    requires before <= start && 1 <= |own1| <= 2 && forall k :: 0 <= k < |own1| ==> own1[k].Sent?
    requires |own1| == 1 ==> a.s.log == start + own1
    requires |own1| == 2 ==> Resent(own1[0], own1[1]) && Recovered(w, start, a.s.log, own1[0], own1[1])
    requires a.rc == Ok && a.s.log <= log && Rejected(Last(own1)) && |own2| <= 1
    requires own2 != [] ==>
               && |log| >= |a.s.log| + 2 && Last(log) == own2[0]
               && own2[0].Sent? && own2[0].req.bearer.Some?
               && JustStored(Front(log), |a.s.log|, scope, own2[0].req.bearer.value)
    ensures forall k :: 0 <= k < |own1 + own2| ==> (own1 + own2)[k].Sent?
    ensures exists at: seq<nat> :: Placed(w, before, log, own1 + own2, at, scope)
  {
    hide Placed, Recovered, JustStored;
    var at := RecoveredPlaces(w, before, start, a, own1, scope);
    PlacedLonger(w, before, a.s.log, log, own1, at, scope);
    if own2 == [] {
      assert own1 + own2 == own1;
    } else {
      PlacedMore(w, before, log, own1, at, own2[0], scope);
      assert own1 + own2 == own1 + [own2[0]];
    }
  }

  /** A rejection: the retry decides. */
  lemma {:induction false} TwiceOutcome(
      w: Env, s: State, first: Request, scope: string, t: Token, a: Attempt, own1: History,
      b: Attempt, own2: History, g: Got)
    requires EnsureOutcome(w, s, scope, t) && t.rc == Ok && first.bearer.None? && !first.renew
    requires var req := first.(bearer := Some(t.token));
             && RecoveringOutcome(w, t.s, req, scope, a, own1)
             && RetryOutcome(w, a.s, req, scope, b, own2)
    requires a.rc == Ok && a.status == 401
    requires t == EnsureToken(w, s, scope)
    requires SecondToken(w, s, first, scope) == Some(EnsureToken(w, Invalidate(a.s, Some(scope)), scope))
    requires g == if b.rc != Ok then Got(b.rc, NoBody, b.s) else Classify(b.s, b.status, b.body)
    requires own2 == [] ==> b.rc != Ok
    ensures RequestOutcome(w, s, first, scope, g, own1 + own2) && Ending(w, s, first, scope, g, own1 + own2)
  {
    hide Inv, EnsureToken, SecondToken, RetryRejected, OwnShape, Placed, Recovered, OthersKept, Ending, RawCost,
         EnsureCost, JustStored, Usage, Answers, Owns;
    TwiceShape(first, scope, t.token, own1, own2);
    TwicePlaces(w, s.log, t.s.log, a, own1, b.s.log, own2, scope);
    SameButErrorInv(w, b.s, g.s);
    TwiceCosts(w, s, first.tls, t.s, a.s, b.s, g.s);
    Appended(Owns(s.log), own1, own2);
    TwiceEnds(w, s, first, scope, own1, Invalidate(a.s, Some(scope)), b, own2, g);
  }

  lemma TwiceEnds(w: Env, s: State, first: Request, scope: string, own1: History, s0: State, b: Attempt, own2: History,
        g: Got)
    requires own1 != [] && Rejected(Last(own1)) && |own2| <= 1
    requires EnsureToken(w, s, scope).rc == Ok && SecondToken(w, s, first, scope) == Some(EnsureToken(w, s0, scope))
    requires own2 == [] <==> EnsureToken(w, s0, scope).rc != Ok
    requires own2 == [] ==> b.rc != Ok && EnsureToken(w, s0, scope).rc == b.rc && EnsureToken(w, s0, scope).s == b.s
    requires own2 != [] ==>
               && own2[0].Sent?
               && (if b.rc == Ok then own2[0].out == Reply(b.status, b.body)
                   else own2[0].out.Failed? && b.rc == own2[0].out.rc && b.s.err == Error(0, false))
    requires g == if b.rc != Ok then Got(b.rc, NoBody, b.s) else Classify(b.s, b.status, b.body)
    ensures Ending(w, s, first, scope, g, own1 + own2)
  {
    hide EnsureToken, SecondToken;
    assert Last(own1 + own2) == if own2 == [] then Last(own1) else own2[0];
  }

  lemma TwiceCosts(w: Env, s: State, tls: Tls, s1: State, s2: State, s3: State, s4: State)
    requires Spends(s, s1, EnsureCost(w, Mobile(s)), 1) && Costs(s1, s2, RawCost(w, s1.inCheckin, tls), 0)
    requires Costs(s2, s3, EnsureCost(w, Mobile(s)) + 1, 1) && s4 == s3.(err := s4.err)
    requires OthersKept(s.log, s1.log, |s.log|) && OthersKept(s2.log, s3.log, |s2.log|)
    requires forall x: nat :: Answers(s2.log, x) == Answers(s1.log, x)
    ensures Costs(s, s4, RequestCost(w, Mobile(s), tls), 2) && OthersKept(s.log, s4.log, |s.log|)
  {
    forall x: nat | x < |s.log| && x != |s.log|
      ensures Answers(s4.log, x) == Answers(s.log, x)
    {
      assert Answers(s3.log, x) == Answers(s2.log, x) == Answers(s1.log, x);
    }
  }

  lemma TwiceShape(first: Request, scope: string, token: string, own1: History, own2: History)
    requires first.bearer.None? && !first.renew
    requires 1 <= |own1| <= 2 && own1[0].Sent?
    requires own1[0] == Sent(first.(bearer := Some(token)), Some(scope), own1[0].out)
    requires |own1| == 2 ==> Resent(own1[0], own1[1])
    requires Rejected(Last(own1))
    requires |own2| <= 1
    requires own2 != [] ==>
               && own2[0].Sent?
               && own2[0] == Sent(first.(bearer := own2[0].req.bearer, renew := true), Some(scope), own2[0].out)
    ensures OwnShape(own1 + own2, first, scope)
  {
  }

  // ------------------------------------------------------ a reply's origin

  /** The newest event is a dispatch of this request under a bearer for the scope, answered by the device. */
  ghost predicate EndsInOwnReply(w: Env, log: History, verb: Method, path: string, body: Body, scope: string,
        reply: Body) {
    && |log| > 0 && Last(log).Sent? && Last(log).scope == Some(scope)
    && Last(log).req.verb == verb && Last(log).req.path == path && Last(log).req.body == body
    && Last(log).out == w.device(Front(log), Last(log).req)
    && Last(log).out.Success() && Last(log).out.body == reply && reply.Object?
  }

  /** The object a scoped request returns is what the device answered to its last dispatch. */
  lemma {:induction false} ScopedReply(w: Env, s: State, verb: Method, path: string, body: Body, scope: string,
        tls: Tls)
    ensures var g := RequestJson(w, s, verb, path, body, Some(scope), tls);
            g.rc == Ok ==> EndsInOwnReply(w, g.s.log, verb, path, body, scope, g.body)
  {
    hide EnsureToken, CheckinRun;
    var t := EnsureToken(w, s, scope);
    if t.rc == Ok {
      var req := Request(verb, path, body, Some(t.token), tls, false);
      DispatchAnswered(w, t.s, req, scope);
      var a := DispatchRecovering(w, t.s, req, Some(scope));
      RetryAnswered(w, a.s, req, scope);
    }
    hide DispatchRecovering, RetryRejected, MapHttpStatus;
  }

  lemma {:induction false} DispatchAnswered(w: Env, s: State, req: Request, scope: string)
    ensures var a := DispatchRecovering(w, s, req, Some(scope));
            a.rc == Ok ==> LastAnswered(w, a, req, scope)
  {
    hide CheckinRun;
  }

  lemma {:induction false} RetryAnswered(w: Env, s: State, req: Request, scope: string)
    ensures var a := RetryRejected(w, s, req, scope);
            a.rc == Ok ==> LastAnswered(w, a, req, scope)
  {
    hide EnsureToken;
  }

  ghost predicate LastAnswered(w: Env, a: Attempt, req: Request, scope: string) {
    && |a.s.log| > 0 && Last(a.s.log).Sent? && Last(a.s.log).scope == Some(scope)
    && Last(a.s.log).req == req.(bearer := Last(a.s.log).req.bearer, renew := Last(a.s.log).req.renew)
    && Last(a.s.log).out == w.device(Front(a.s.log), Last(a.s.log).req)
    && Last(a.s.log).out == Reply(a.status, a.body)
  }
}
