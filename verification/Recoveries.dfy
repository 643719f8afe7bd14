/**
 The check-ins one acquisition may start, by reason. A certificate recovery may accompany any
 request; what is counted here are the others: after a 403 or on clock drift.
 */
module Recoveries {
  import opened Options
  import opened Wire
  import opened Engine
  import opened Ledger
  import opened Exchange
  import opened Acquisition
  import opened Confirmation
  import opened Requests

  /** At most so many check-ins after a 403 from an ext endpoint, on broker drift, and on the login's budget. */
  predicate Starts(a: History, b: History, ext: nat, drift: nat, budgeted: nat) {
    && Checkins(a, ExtRecovery) <= Checkins(b, ExtRecovery) <= Checkins(a, ExtRecovery) + ext
    && Checkins(a, BrokerDrift) <= Checkins(b, BrokerDrift) <= Checkins(a, BrokerDrift) + drift
    && Checkins(a, Budgeted) <= Checkins(b, Budgeted) <= Checkins(a, Budgeted) + budgeted
  }

  /** No recovery check-in is made here at all. */
  predicate Barred(w: Env, s: State) {
    w.noAutoCheckin || s.inCheckin
  }

  function One(w: Env, s: State): nat {
    if Barred(w, s) then 0 else 1
  }

  predicate StartsNone(a: History, b: History) {
    Starts(a, b, 0, 0, 0)
  }

  lemma StartsThen(a: History, b: History, c: History, e: nat, d: nat, n: nat, e': nat, d': nat, n': nat)
    requires Starts(a, b, e, d, n) && Starts(b, c, e', d', n')
    ensures Starts(a, c, e + e', d + d', n + n')
  {
  }

  lemma CheckinsAppend(log: History, e: Event, why: Reason)
    ensures Checkins(log + [e], why) == Checkins(log, why) + (if e == CheckinBegan(why) then 1 else 0)
  {
    FrontOfAppend(log, e);
  }

  lemma OneEvent(log: History, e: Event)
    requires !e.CheckinBegan?
    ensures StartsNone(log, log + [e])
  {
    CheckinsAppend(log, e, ExtRecovery);
    CheckinsAppend(log, e, BrokerDrift);
    CheckinsAppend(log, e, Budgeted);
  }

  lemma {:induction false} NoMarks(log: History, more: History, why: Reason)
    requires forall i :: 0 <= i < |more| ==> !more[i].CheckinBegan?
    ensures Checkins(log + more, why) == Checkins(log, why)
  {
    if |more| == 0 {
      assert log + more == log;
    } else {
      var init, last := more[..|more| - 1], more[|more| - 1];
      NoMarks(log, init, why);
      assert log + more == (log + init) + [last];
      CheckinsAppend(log + init, last, why);
    }
  }

  /** A check-in starts itself and no other. */
  lemma {:induction false} CheckinStarts(w: Env, s: State, why: Reason)
    ensures var c := CheckinRun(w, s, why);
            Starts(s.log, c.s.log, if why == ExtRecovery then 1 else 0, if why == BrokerDrift then 1 else 0,
                   if why == Budgeted then 1 else 0)
  {
    var c := CheckinRun(w, s, why);
    var outs := CheckinShape(w, s, why);
    hide CheckinRun;
    var marked, legs := s.log + [CheckinBegan(why)], Legs(w, outs);
    assert forall i :: 0 <= i < |legs| ==> !legs[i].CheckinBegan?;
    hide Legs;
    NoMarks(marked, legs, ExtRecovery);
    NoMarks(marked, legs, BrokerDrift);
    NoMarks(marked, legs, Budgeted);
    CheckinsAppend(s.log, CheckinBegan(why), ExtRecovery);
    CheckinsAppend(s.log, CheckinBegan(why), BrokerDrift);
    CheckinsAppend(s.log, CheckinBegan(why), Budgeted);
  }

  lemma {:induction false} RecoveringStarts(w: Env, s: State, req: Request, scope: Option<string>)
    ensures StartsNone(s.log, DispatchRecovering(w, s, req, scope).s.log)
  {
    hide CheckinRun, Checkins;
    var s1 := Dispatch(w, s, req, scope);
    OneEvent(s.log, Sent(req, scope, Outgoing(w, s, req)));
    var c := CheckinRun(w, s1, CertRecovery);
    CheckinStarts(w, s1, CertRecovery);
    var again := req.(renew := true);
    OneEvent(c.s.log, Sent(again, scope, Outgoing(w, c.s, again)));
  }

  lemma {:induction false} RawStarts(w: Env, s: State, verb: Method, path: string, body: Body, tls: Tls)
    ensures StartsNone(s.log, RequestRaw(w, s, verb, path, body, None, tls).s.log)
    ensures StartsNone(s.log, RequestJson(w, s, verb, path, body, None, tls).s.log)
  {
    hide DispatchRecovering, Checkins;
    RecoveringStarts(w, s, Request(verb, path, body, None, tls, false), None);
  }

  // ------------------------------------------------------ passphrase mode

  lemma {:induction false} FetchStarts(w: Env, s: State, spent: bool)
    ensures var c := FetchChallenge(w, s, spent);
            Starts(s.log, c.s.log, 0, 0, Spent(spent, c.spent)) && (spent || Barred(w, s) ==> c.spent == spent)
  {
    hide RequestJson, CheckinRun, Checkins;
    var g := RequestJson(w, s, GET, TOKEN_PATH, NoBody, None, Default);
    RawStarts(w, s, GET, TOKEN_PATH, NoBody, Default);
    var c := CheckinRun(w, g.s, Budgeted);
    CheckinStarts(w, g.s, Budgeted);
    RawStarts(w, c.s, GET, TOKEN_PATH, NoBody, Default);
  }

  lemma {:induction false} AcquireStarts(w: Env, s: State, passphrase: string, scope: string, now: int, spent: bool)
    ensures var a := AcquireToken(w, s, passphrase, scope, now, spent);
            Starts(s.log, a.s.log, 0, 0, Spent(spent, a.spent)) && (spent || Barred(w, s) ==> a.spent == spent)
  {
    hide FetchChallenge, RequestJson, LoginClaims, Checkins, CacheExpiry, DriftEvident, Starts, Spent;
    var c := FetchChallenge(w, s, spent);
    FetchStarts(w, s, spent);
    var claims := LoginClaims(w, c.body, passphrase, scope, now);
    if c.rc == Ok && claims.Some? {
      var body := Object(map["auth" := Signed(claims.value)]);
      var g := RequestJson(w, c.s, POST, TOKEN_PATH, body, None, Default);
      RawStarts(w, c.s, POST, TOKEN_PATH, body, Default);
      StartsThen(s.log, c.s.log, g.s.log, 0, 0, Spent(spent, c.spent), 0, 0, 0);
      if g.rc == Ok && g.body.Text("token").Some? {
        var e := Stored(scope, g.body.Text("token").value, ByPost);
        OneEvent(g.s.log, e);
        StartsThen(s.log, g.s.log, g.s.log + [e], 0, 0, Spent(spent, c.spent), 0, 0, 0);
      }
    }
  }

  lemma {:induction false} ProactiveStarts(w: Env, s: State)
    ensures StartsNone(s.log, ProactiveCheckin(w, s).log)
  {
    hide CheckinRun, Checkins;
    CheckinStarts(w, s.(checkinDone := true), Proactive);
  }

  lemma {:induction false} PassphraseStarts(w: Env, s: State, passphrase: string, scope: string, now: int)
    ensures Starts(s.log, PassphraseToken(w, s, passphrase, scope, now).s.log, 0, 0, One(w, s))
  {
    hide ProactiveCheckin, AcquireToken, CheckinRun, Checkins;
    var s1 := ProactiveCheckin(w, s);
    ProactiveStarts(w, s);
    var a := AcquireToken(w, s1, passphrase, scope, now, false);
    AcquireStarts(w, s1, passphrase, scope, now, false);
    var c := CheckinRun(w, a.s, Budgeted);
    CheckinStarts(w, a.s, Budgeted);
    AcquireStarts(w, Tick(c.s), passphrase, scope, w.clock(c.s.ticks), true);
  }

  // ---------------------------------------------------------- mobile mode

  lemma {:induction false} NotifyStarts(w: Env, s: State, verb: Method, url: Option<string>, subpath: string,
        body: Body)
    ensures StartsNone(s.log, NotifySend(w, s, verb, url, subpath, body).s.log)
    ensures StartsNone(s.log, NotifyJson(w, s, verb, url, subpath, body).s.log)
  {
    hide Checkins;
    var req := Request(verb, BrokerBase(url) + subpath, body, None, Verify, false);
    OneEvent(s.log, Sent(req, None, Outgoing(w, s, req)));
  }

  lemma {:induction false} ExtPostStarts(w: Env, s: State, path: string, body: Body)
    ensures Starts(s.log, ExtLoginPost(w, s, path, body).s.log, One(w, s), 0, 0)
  {
    hide RequestJson, CheckinRun, Checkins;
    var g := RequestJson(w, s, POST, path, body, None, Default);
    RawStarts(w, s, POST, path, body, Default);
    var c := CheckinRun(w, g.s, ExtRecovery);
    CheckinStarts(w, g.s, ExtRecovery);
    RawStarts(w, c.s, POST, path, body, Default);
  }

  lemma {:induction false} ExtStarts(w: Env, s: State, epk: string, scope: string, ctxStr: Option<string>,
        note: Option<string>, reply: string)
    ensures var r := ExtRequest(w, s, epk, scope, ctxStr, note);
            && Starts(s.log, r.s.log, One(w, s), 0, 0)
            && (|scope| > 1023 ==> r.rc != Ok && StartsNone(s.log, r.s.log))
    ensures Starts(s.log, ExtToken(w, s, reply).s.log, One(w, s), 0, 0)
  {
    hide ExtLoginPost, Checkins, IsB64Of32, ExtFields;
    ExtPostStarts(w, ClearError(s), EXT_REQUEST_PATH, Object(ExtFields(epk, scope, ctxStr, note)));
    ExtPostStarts(w, ClearError(s), EXT_TOKEN_PATH, Object(map["authreply" := Str(reply)]));
  }

  lemma {:induction false} BrokerStarts(w: Env, s: State, url: Option<string>, authreq: string, epk: string)
    ensures StartsNone(s.log, NotifySession(w, s, url).s.log)
    ensures StartsNone(s.log, EventNew(w, s, url, authreq, epk).s.log)
  {
    hide NotifyJson, Checkins;
    NotifyStarts(w, ClearError(s), GET, url, "/session", NoBody);
    var body := Object(map["authreq" := Str(authreq), "epk" := Str(epk)]);
    NotifyStarts(w, ClearError(s), POST, url, "/event/new", body);
  }

  lemma {:induction false} FireStarts(w: Env, s: State, url: Option<string>, scope: string, ctxStr: Option<string>,
        note: Option<string>)
    ensures var p := FirePush(w, s, url, scope, ctxStr, note);
            && Starts(s.log, p.s.log, One(w, s), 0, 0)
            && (|scope| > 1023 ==> p.rc != Ok && p.authreq.None? && StartsNone(s.log, p.s.log))
  {
    hide NotifySession, EventNew, ExtRequest, Checkins;
    var t := NotifySession(w, s, url);
    BrokerStarts(w, s, url, "", "");
    var r := ExtRequest(w, t.s, t.token, scope, ctxStr, note);
    ExtStarts(w, t.s, t.token, scope, ctxStr, note, "");
    BrokerStarts(w, r.s, url, r.authreq, r.epk);
  }

  /** Two pushes and the drift between them. */
  lemma {:induction false} BeginStarts(w: Env, s: State, url: Option<string>, scope: string, ctxStr: Option<string>,
        note: Option<string>)
    ensures var b := ConfirmBegin(w, s, url, scope, ctxStr, note);
            && Starts(s.log, b.s.log, 2 * One(w, s), One(w, s), 0)
            && (|scope| > 1023 ==> b.rc != Ok && StartsNone(s.log, b.s.log))
  {
    var p := FirePush(w, s, url, scope, ctxStr, note);
    FireStarts(w, s, url, scope, ctxStr, note);
    var c := CheckinRun(w, Tick(p.s), BrokerDrift);
    CheckinStarts(w, Tick(p.s), BrokerDrift);
    FireStarts(w, c.s, url, scope, ctxStr, note);
    hide FirePush, CheckinRun, Checkins, Claim;
    var q := PushRecovering(w, s, url, scope, ctxStr, note);
    assert Starts(s.log, q.s.log, 2 * One(w, s), One(w, s), 0);
    assert |scope| > 1023 ==> q == p;
    OneEvent(q.s.log, Begun(|q.s.log|, scope, q.eventid));
  }

  /** A poll starts one at most, and only on the way to its end. */
  lemma {:induction false} PollStarts(w: Env, s: State, h: Handle)
    ensures var p := ConfirmPoll(w, s, h);
            && Starts(s.log, p.s.log, One(w, s), 0, 0)
            && (p.rc == Ok && !p.approved ==> StartsNone(s.log, p.s.log))
  {
    hide EventCheck, ExtToken, CacheSeed, Checkins;
    if !h.terminal {
      var c := EventCheck(w, s, h.url, h.eventid);
      CheckStarts(w, s, h.url, h.eventid);
      OneEvent(c.s.log, Answered(h.id, None));
      if c.rc == Ok && c.verdict.Approved? {
        ApprovalStarts(w, c.s, h, c.verdict.reply);
      }
    }
  }

  lemma {:induction false} CheckStarts(w: Env, s: State, url: Option<string>, eventid: string)
    ensures StartsNone(s.log, EventCheck(w, s, url, eventid).s.log)
  {
    hide NotifySend, Checkins;
    NotifyStarts(w, ClearError(s), GET, url, CheckPath(eventid), NoBody);
  }

  lemma {:induction false} ApprovalStarts(w: Env, s: State, h: Handle, reply: string)
    ensures var s1 := Note(Note(s, Answered(h.id, Some(reply))), Redeemed(h.id));
            var t := ExtToken(w, s1, reply);
            && Starts(s.log, t.s.log, One(w, s), 0, 0)
            && Starts(s.log, CacheSeed(w, t.s, h.scope, t.token, ByConfirm(h.id)).log, One(w, s), 0, 0)
  {
    hide ExtToken, Checkins, CacheExpiry, Claim;
    var s0 := Note(s, Answered(h.id, Some(reply)));
    var s1 := Note(s0, Redeemed(h.id));
    OneEvent(s.log, Answered(h.id, Some(reply)));
    OneEvent(s0.log, Redeemed(h.id));
    var t := ExtToken(w, s1, reply);
    ExtStarts(w, s1, "", "", None, None, reply);
    OneEvent(t.s.log, Stored(h.scope, t.token, ByConfirm(h.id)));
  }

  lemma {:induction false} WaitStarts(w: Env, s: State, h: Handle, timeout: int, elapsed: nat)
    ensures Starts(s.log, WaitFrom(w, s, h, timeout, elapsed).s.log, One(w, s), 0, 0)
    decreases Left(timeout, elapsed)
  {
    var p := ConfirmPoll(w, s, h);
    PollStarts(w, s, h);
    hide ConfirmPoll, Checkins;
    if p.rc == Ok && !p.approved && elapsed < timeout {
      var step := if w.pollInterval > timeout - elapsed then timeout - elapsed else w.pollInterval;
      OneEvent(p.s.log, Slept(step));
      WaitStarts(w, Note(p.s, Slept(step)), p.h, timeout, elapsed + step);
    }
  }

  lemma {:induction false} MobileStarts(w: Env, s: State, scope: string)
    ensures Starts(s.log, MobileToken(w, s, scope).s.log, 3 * One(w, s), One(w, s), 0)
    ensures |scope| > 1023 ==> StartsNone(s.log, MobileToken(w, s, scope).s.log)
  {
    hide ProactiveCheckin, ConfirmBegin, WaitFrom, Checkins;
    var s1 := ProactiveCheckin(w, s);
    ProactiveStarts(w, s);
    var b := ConfirmBegin(w, s1, None, scope, None, None);
    BeginStarts(w, s1, None, scope, None, None);
    if b.rc == Ok {
      WaitStarts(w, b.s, b.handle.value, w.confirmTimeout, 0);
    }
  }

  // -------------------------------------------------------------- results

  /** Known before the call: no recovery check-in can come of it. */
  predicate NoRecovery(w: Env, s: State, scope: string) {
    Barred(w, s) || FreshHit(w, s, scope) || if Mobile(s) then |scope| > 1023 else !HasPassphrase(s)
  }

  /**
   * One call of the token chokepoint. In passphrase mode the 403 and the drift recovery share a
   * budget of one check-in; in mobile mode there is no shared budget: one for a 403 on each of three
   * ext requests, and one for drift. Certificate recoveries and the session start are apart.
   */
  lemma {:induction false} RecoveryCheckins(w: Env, s: State, scope: string)
    ensures var after := EnsureToken(w, s, scope).s.log;
            if NoRecovery(w, s, scope) then StartsNone(s.log, after)
            else if Mobile(s) then Starts(s.log, after, 3, 1, 0)
            else Starts(s.log, after, 0, 0, 1)
  {
    hide MobileToken, PassphraseToken, Checkins;
    var s1 := Tick(s);
    if Mobile(s) {
      MobileStarts(w, s1, scope);
    } else if HasPassphrase(s) {
      PassphraseStarts(w, s1, s.auth.value.passphrase.value, scope, w.clock(s.ticks));
    }
  }
}
