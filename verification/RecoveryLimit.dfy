/**
 When one call of the token chokepoint keeps to one recovery check-in, whatever the device does, and
 when it makes none at all: exact conditions a caller can check before the call.
 */
module RecoveryLimit {
  import opened Options
  import opened Wire
  import opened Engine
  import opened Ledger
  import opened Exchange
  import opened Acquisition
  import opened Confirmation
  import opened Requests
  import opened Recoveries
  import opened Devices

  /** Check-ins made to recover, certificate recoveries and the session start apart. */
  function RecoveriesIn(log: History): nat {
    Checkins(log, ExtRecovery) + Checkins(log, BrokerDrift) + Checkins(log, Budgeted)
  }

  predicate AtMostOne(w: Env, s: State, scope: string) {
    RecoveriesIn(EnsureToken(w, s, scope).s.log) <= RecoveriesIn(s.log) + 1
  }

  predicate NoneMade(w: Env, s: State, scope: string) {
    RecoveriesIn(EnsureToken(w, s, scope).s.log) == RecoveriesIn(s.log)
  }

  // ------------------------------------------- a device that loses its clock

  /** The newest event is a device leg of a check-in. */
  predicate ClockJustSet(log: History) {
    |log| > 0 && Last(log).Sent? && Last(log).req.tls == Relax
  }

  /** A 403 to every request in the context's own mode but the one right behind a check-in. */
  function Forgets(log: History, req: Request): Outcome {
    if req.tls == Default && !ClockJustSet(log) then Reply(403, NoBody) else Reply(200, Everything())
  }

  ghost predicate Forgetful(w: Env) {
    forall log: History, req: Request :: w.device(log, req) == Forgets(log, req)
  }

  /** One dispatch and its answer; nothing expires. */
  lemma Answered200(w: Env, s: State, req: Request)
    requires Forgetful(w)
    ensures DispatchRecovering(w, s, req, None)
         == (match Forgets(s.log, req)
             case Reply(status, body) => Attempt(Ok, status, body, Dispatch(w, s, req, None)))
  {
    hide Everything, CheckinRun;
  }

  lemma {:induction false} LegAnswered(w: Env, s: State, verb: Method, path: string, body: Body, tls: Tls)
    requires Forgetful(w) && tls != Default
    ensures var g := RequestJson(w, s, verb, path, body, None, tls);
            && g == RequestRaw(w, s, verb, path, body, None, tls)
            && g.rc == Ok && g.body == Everything()
            && |g.s.log| > 0 && Last(g.s.log).Sent? && Last(g.s.log).req.tls == tls
  {
    hide Everything, DispatchRecovering;
    Members();
    Answered200(w, s, Request(verb, path, body, None, tls, false));
  }

  lemma {:induction false} ClockSet(w: Env, s: State, why: Reason)
    requires Forgetful(w)
    ensures CheckinRun(w, s, why).rc == Ok && ClockJustSet(CheckinRun(w, s, why).s.log)
  {
    hide RequestRaw, RequestJson, Everything;
    var s0 := Note(s.(inCheckin := true), CheckinBegan(why));
    var leg1 := RequestRaw(w, s0, GET, CHECKIN_PATH, NoBody, None, Relax);
    LegAnswered(w, s0, GET, CHECKIN_PATH, NoBody, Relax);
    var leg2 := RequestRaw(w, leg1.s, POST, w.checkinUrl, leg1.body, None, Verify);
    LegAnswered(w, leg1.s, POST, w.checkinUrl, leg1.body, Verify);
    LegAnswered(w, leg2.s, POST, CHECKIN_PATH, leg2.body, Relax);
  }

  /** An unscoped request in the context's own mode: a 403, or right behind a check-in everything. */
  lemma {:induction false} JsonAnswered(w: Env, s: State, verb: Method, path: string, body: Body)
    requires Forgetful(w)
    ensures var g := RequestJson(w, s, verb, path, body, None, Default);
            if ClockJustSet(s.log) then g.rc == Ok && g.body == Everything()
            else g.rc == ScopeDenied && g.s.err.status == 403
  {
    hide Everything, DispatchRecovering, ClockJustSet;
    Members();
    Answered200(w, s, Request(verb, path, body, None, Default, false));
  }

  // ------------------------------------------------------- what it costs

  lemma {:induction false} CountsItself(w: Env, s: State, why: Reason)
    ensures Checkins(CheckinRun(w, s, why).s.log, why) >= Checkins(s.log, why) + 1
  {
    var outs := CheckinShape(w, s, why);
    hide CheckinRun, Legs, Checkins;
    var marked := s.log + [CheckinBegan(why)];
    CheckinsAppend(s.log, CheckinBegan(why), why);
    CheckinsGrow(marked, Legs(w, outs), why);
  }

  lemma {:induction false} CheckinsGrow(log: History, more: History, why: Reason)
    ensures Checkins(log, why) <= Checkins(log + more, why)
  {
    if |more| == 0 {
      assert log + more == log;
    } else {
      var init, last := more[..|more| - 1], more[|more| - 1];
      CheckinsGrow(log, init, why);
      assert log + more == (log + init) + [last];
      CheckinsAppend(log + init, last, why);
    }
  }

  /** An ext request costs a check-in. */
  lemma {:induction false} ExtCosts(w: Env, s: State, path: string, body: Body)
    requires Forgetful(w) && !Barred(w, s) && !ClockJustSet(s.log)
    ensures var g := ExtLoginPost(w, s, path, body);
            && g.rc == Ok && g.body == Everything()
            && Checkins(g.s.log, ExtRecovery) >= Checkins(s.log, ExtRecovery) + 1
  {
    hide Forgetful, RequestJson, CheckinRun, Checkins, Everything, ClockJustSet;
    var g := RequestJson(w, s, POST, path, body, None, Default);
    JsonAnswered(w, s, POST, path, body);
    RawStarts(w, s, POST, path, body, Default);
    var c := CheckinRun(w, g.s, ExtRecovery);
    ClockSet(w, g.s, ExtRecovery);
    CountsItself(w, g.s, ExtRecovery);
    JsonAnswered(w, c.s, POST, path, body);
    RawStarts(w, c.s, POST, path, body, Default);
  }

  /** The broker answers with everything. */
  lemma {:induction false} BrokerAnswers(w: Env, s: State, verb: Method, subpath: string, body: Body)
    requires Forgetful(w)
    ensures var a := NotifySend(w, s, verb, None, subpath, body);
            && a.rc == Ok && a.status == 200 && a.body == Everything() && !ClockJustSet(a.s.log)
            && a.s.inCheckin == s.inCheckin && StartsNone(s.log, a.s.log)
  {
    hide Everything, Checkins;
    NotifyStarts(w, s, verb, None, subpath, body);
  }

  lemma {:induction false} PushCosts(w: Env, s: State, scope: string)
    requires Forgetful(w) && !Barred(w, s) && |scope| <= 1023
    ensures var p := FirePush(w, s, None, scope, None, None);
            && p.rc == Ok && p.eventid == "e"
            && Checkins(p.s.log, ExtRecovery) >= Checkins(s.log, ExtRecovery) + 1
  {
    hide Forgetful, NotifySend, ExtLoginPost, ExtRequest, Everything, Checkins, ClockJustSet, DeviceKey,
         IsB64Of32, IsKey32, ExtFields;
    Members();
    KeyDecodes();
    BrokerAnswers(w, ClearError(s), GET, "/session", NoBody);
    var t := NotifySession(w, s, None);
    assert t.rc == Ok && t.token == DeviceKey();
    var body := Object(ExtFields(t.token, scope, None, None));
    ExtCosts(w, ClearError(t.s), EXT_REQUEST_PATH, body);
    AuthorizedBy(w, t.s, t.token, scope, ExtLoginPost(w, ClearError(t.s), EXT_REQUEST_PATH, body));
    var r := ExtRequest(w, t.s, t.token, scope, None, None);
    var event := Object(map["authreq" := Str(r.authreq), "epk" := Str(r.epk)]);
    BrokerAnswers(w, ClearError(r.s), POST, "/event/new", event);
  }

  /** And so does the redemption. */
  lemma {:induction false} RedemptionCosts(w: Env, s: State)
    requires Forgetful(w) && !Barred(w, s) && !ClockJustSet(s.log)
    ensures var t := ExtToken(w, s, "r");
            t.rc == Ok && Checkins(t.s.log, ExtRecovery) >= Checkins(s.log, ExtRecovery) + 1
  {
    hide Forgetful, ExtLoginPost, Everything, Checkins, ClockJustSet;
    Members();
    ExtCosts(w, ClearError(s), EXT_TOKEN_PATH, Object(map["authreply" := Str("r")]));
  }

  lemma {:induction false} PollCosts(w: Env, s: State, h: Handle)
    requires Forgetful(w) && !Barred(w, s) && !h.terminal && h.url == None && h.eventid == "e"
    ensures var p := ConfirmPoll(w, s, h);
            p.approved && p.rc == Ok && Checkins(p.s.log, ExtRecovery) >= Checkins(s.log, ExtRecovery) + 1
  {
    hide Forgetful, NotifySend, ExtToken, Everything, Checkins, CacheExpiry, Claim;
    Members();
    BrokerAnswers(w, ClearError(s), GET, CheckPath("e"), NoBody);
    var c := EventCheck(w, s, None, "e");
    CheckReads(w, s);
    var e1, e2 := Answered(h.id, Some("r")), Redeemed(h.id);
    OneEvent(c.s.log, e1);
    OneEvent(c.s.log + [e1], e2);
    var s1 := Note(Note(c.s, e1), e2);
    RedemptionCosts(w, s1);
    var t := ExtToken(w, s1, "r");
    OneEvent(t.s.log, Stored(h.scope, t.token, ByConfirm(h.id)));
  }

  lemma {:induction false} MobileCosts(w: Env, s: State, scope: string)
    requires Forgetful(w) && !Barred(w, s) && |scope| <= 1023
    ensures Checkins(MobileToken(w, s, scope).s.log, ExtRecovery) >= Checkins(s.log, ExtRecovery) + 2
  {
    hide Forgetful, ProactiveCheckin, FirePush, ConfirmPoll, Checkins;
    var s1 := ProactiveCheckin(w, s);
    ProactiveStarts(w, s);
    var p := FirePush(w, s1, None, scope, None, None);
    PushCosts(w, s1, scope);
    assert PushRecovering(w, s1, None, scope, None, None) == p;
    var h := Handle(|p.s.log|, None, scope, "e", false);
    var s2 := Note(p.s, Begun(h.id, scope, "e"));
    OneEvent(p.s.log, Begun(h.id, scope, "e"));
    PollCosts(w, s2, h);
    assert ConfirmWait(w, s2, h, w.confirmTimeout) == ConfirmPoll(w, s2, h);
  }

  // ----------------------------------- a device whose clock cannot be set

  /** A 403 to every request in the context's own mode; the rest does not matter. */
  ghost predicate Denying(w: Env) {
    forall log: History, req: Request :: req.tls == Default ==> w.device(log, req) == Reply(403, NoBody)
  }

  lemma {:induction false} JsonDenied(w: Env, s: State, verb: Method, path: string, body: Body)
    requires Denying(w)
    ensures var g := RequestJson(w, s, verb, path, body, None, Default);
            g.rc == ScopeDenied && g.s.err.status == 403
  {
    hide CheckinRun;
    var req := Request(verb, path, body, None, Default, false);
    assert DispatchRecovering(w, s, req, None) == Attempt(Ok, 403, NoBody, Dispatch(w, s, req, None));
  }

  /** The challenge is refused, and the check-in spent on it changes nothing. */
  lemma {:induction false} ChallengeCosts(w: Env, s: State, passphrase: string, scope: string, now: int)
    requires Denying(w) && !Barred(w, s)
    ensures var a := AcquireToken(w, s, passphrase, scope, now, false);
            a.rc == ScopeDenied && Checkins(a.s.log, Budgeted) >= Checkins(s.log, Budgeted) + 1
  {
    hide Denying, RequestJson, CheckinRun, Checkins, LoginClaims, DriftEvident, CacheExpiry;
    var g := RequestJson(w, s, GET, TOKEN_PATH, NoBody, None, Default);
    JsonDenied(w, s, GET, TOKEN_PATH, NoBody);
    RawStarts(w, s, GET, TOKEN_PATH, NoBody, Default);
    var c := CheckinRun(w, g.s, Budgeted);
    CountsItself(w, g.s, Budgeted);
    JsonDenied(w, c.s, GET, TOKEN_PATH, NoBody);
    RawStarts(w, c.s, GET, TOKEN_PATH, NoBody, Default);
    assert FetchChallenge(w, s, false).rc == ScopeDenied;
  }

  lemma {:induction false} PassphraseCosts(w: Env, s: State, passphrase: string, scope: string, now: int)
    requires Denying(w) && !Barred(w, s)
    ensures Checkins(PassphraseToken(w, s, passphrase, scope, now).s.log, Budgeted) >= Checkins(s.log, Budgeted) + 1
  {
    hide Denying, ProactiveCheckin, AcquireToken, CheckinRun, Checkins;
    ProactiveStarts(w, s);
    ChallengeCosts(w, ProactiveCheckin(w, s), passphrase, scope, now);
  }

  // ------------------------------------------------------------- exactly when

  lemma {:induction false} TwoMade(w: Env, s: State, scope: string)
    requires Forgetful(w) && Mobile(s) && !NoRecovery(w, s, scope)
    ensures !AtMostOne(w, s, scope)
  {
    hide Forgetful, MobileToken, PassphraseToken, Checkins;
    RecoveryCheckins(w, s, scope);
    MobileCosts(w, Tick(s), scope);
  }

  lemma {:induction false} OneMade(w: Env, s: State, scope: string)
    requires Denying(w) && !Mobile(s) && !NoRecovery(w, s, scope)
    ensures !NoneMade(w, s, scope)
  {
    hide Denying, MobileToken, PassphraseToken, Checkins;
    RecoveryCheckins(w, s, scope);
    PassphraseCosts(w, Tick(s), s.auth.value.passphrase.value, scope, w.clock(s.ticks));
  }

  /** What the device does not change. */
  lemma SameBeforehand(w: Env, s: State, scope: string, device: (History, Request) -> Outcome)
    ensures NoRecovery(w.(device := device), s, scope) == NoRecovery(w, s, scope)
  {
  }

  lemma {:induction false} UpperHalf(w: Env, s: State, scope: string)
    ensures !Mobile(s) || NoRecovery(w, s, scope) ==> AtMostOne(w, s, scope)
    ensures NoRecovery(w, s, scope) ==> NoneMade(w, s, scope)
  {
    hide EnsureToken, Checkins, NoRecovery;
    RecoveryCheckins(w, s, scope);
  }

  /**
   * One call of the chokepoint makes at most one recovery check-in, against every device, exactly when
   * the session is not mobile or no recovery can come of the call at all: automatic check-ins are off or
   * one is running, the entry is still fresh, or the scope is too long for an ext request.
   */
  lemma {:induction false} AtMostOneExactly(w: Env, s: State, scope: string)
    ensures (forall device: (History, Request) -> Outcome :: AtMostOne(w.(device := device), s, scope))
            <==> !Mobile(s) || NoRecovery(w, s, scope)
  {
    hide AtMostOne, NoRecovery, Forgets;
    if !Mobile(s) || NoRecovery(w, s, scope) {
      forall device: (History, Request) -> Outcome
        ensures AtMostOne(w.(device := device), s, scope)
      {
        SameBeforehand(w, s, scope, device);
        UpperHalf(w.(device := device), s, scope);
      }
    } else {
      var w' := w.(device := (log, req) => Forgets(log, req));
      SameBeforehand(w, s, scope, w'.device);
      TwoMade(w', s, scope);
      assert !AtMostOne(w.(device := w'.device), s, scope);
    }
  }

  /** And it makes none, against every device, exactly in the second case, in either mode. */
  lemma {:induction false} NoneExactly(w: Env, s: State, scope: string)
    ensures (forall device: (History, Request) -> Outcome :: NoneMade(w.(device := device), s, scope))
            <==> NoRecovery(w, s, scope)
  {
    hide AtMostOne, NoneMade, NoRecovery, Forgets;
    if NoRecovery(w, s, scope) {
      forall device: (History, Request) -> Outcome
        ensures NoneMade(w.(device := device), s, scope)
      {
        SameBeforehand(w, s, scope, device);
        UpperHalf(w.(device := device), s, scope);
      }
    } else {
      var w' := w.(device := if Mobile(s) then (log, req) => Forgets(log, req) else (log, req) => Reply(403, NoBody));
      SameBeforehand(w, s, scope, w'.device);
      SomeMade(w', s, scope);
      assert !NoneMade(w.(device := w'.device), s, scope);
    }
  }

  lemma SomeMade(w: Env, s: State, scope: string)
    requires !NoRecovery(w, s, scope) && if Mobile(s) then Forgetful(w) else Denying(w)
    ensures !NoneMade(w, s, scope)
  {
    hide EnsureToken, Checkins, NoRecovery, Forgetful, Denying;
    if Mobile(s) {
      TwoMade(w, s, scope);
    } else {
      OneMade(w, s, scope);
    }
  }
}
