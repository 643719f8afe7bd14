/**
 Why things were sent, read off the history alone, whatever the call and the run: every login answers
 the challenge reply before it, with the claims the protocol prescribes, and every check-in has its
 cause right before it.
 */
module Causes {
  import opened Options
  import opened Wire
  import opened Engine
  import opened Ledger
  import opened Exchange
  import opened Acquisition
  import opened Confirmation
  import opened Requests
  import opened Runs
  import Base64
  import CompactToken

  /** A login: the unscoped POST of the token endpoint, in the context's TLS mode. */
  predicate IsLogin(e: Event) {
    e.Sent? && e.scope.None? && e.req.verb == POST && e.req.path == "/api/auth/token" && e.req.tls == Default
  }

  /** A challenge, answered 2xx with an object. */
  predicate IsChallenge(e: Event) {
    && e.Sent? && e.scope.None? && e.req.verb == GET && e.req.path == "/api/auth/token" && e.req.tls == Default
    && e.out.Reply? && 200 <= e.out.status < 300 && e.out.body.Object?
  }

  /**
   * The login sent on a challenge. Its claims: the challenge's token id, the device's key as audience,
   * issued now and good for an hour; issuer and signing key derived from the passphrase, the
   * device's salt and its 32-byte key.
   */
  predicate Answering(w: Env, challenge: Event, e: Event, passphrase: string, now: int) {
    && IsChallenge(challenge) && IsLogin(e) && !e.req.renew
    && e.req.body.Object? && e.req.body.fields.Keys == {"auth"} && e.req.body.fields["auth"].Signed?
    && var reply, c := challenge.out.body, e.req.body.fields["auth"].claims;
    && reply.Text("eid").Some? && reply.Text("spk").Some?
    && reply.Text("jti") == Some(c.jti) && reply.Text("spk") == Some(c.aud)
    && var key := Base64.Decode(Base64.Standard, c.aud, 32);
    && key.Some? && |key.value| == 32
    && c.iat == now && c.exp == c.iat + 3600
    && w.derive(passphrase, reply.Text("eid").value, c.aud) == Some(Derived(c.iss, c.key))
  }

  /**
   * A login sent right behind the challenge reply it answers, or such a login sent again: the first
   * met an expired certificate, and a whole certificate check-in is all that lies between.
   */
  ghost predicate Backed(w: Env, log: History, i: nat, passphrase: string, now: int)
    requires i < |log|
  {
    exists f :: 0 < f <= i && BackedBy(w, log, f, i, passphrase, now)
  }

  ghost predicate BackedBy(w: Env, log: History, f: nat, i: nat, passphrase: string, now: int)
    requires 0 < f <= i < |log|
  {
    && Answering(w, log[f - 1], log[f], passphrase, now)
    && (f == i || (Resent(log[f], log[i]) && CheckedIn(w, log[f + 1..i])))
  }

  lemma {:induction false} BackedStays(w: Env, a: History, b: History, i: nat, passphrase: string, now: int)
    requires a <= b && i < |a| && Backed(w, a, i, passphrase, now)
    ensures Backed(w, b, i, passphrase, now)
  {
    hide Answering, Resent, CheckedIn;
    var f :| 0 < f <= i && BackedBy(w, a, f, i, passphrase, now);
    if f < i {
      assert a[f + 1..i] == b[f + 1..i];
    }
    assert BackedBy(w, b, f, i, passphrase, now);
  }

  // ------------------------------------------------------ check-in causes

  predicate Refused(e: Event, verb: Method, path: string, status: int) {
    && e.Sent? && e.scope.None? && e.req.verb == verb && e.req.path == path && e.req.tls == Default
    && e.out.Reply? && e.out.status == status
  }

  /**
   * The newest event is a login refused with 401, and the deadline its challenge named, a minute ahead
   * on the device's clock, is more than a minute off the login's own date. A login sent again comes
   * five events after it was first sent: a mark and three legs lie between.
   */
  predicate RefusedOnDrift(log: History) {
    && |log| > 0 && IsLogin(Last(log)) && Refused(Last(log), POST, "/api/auth/token", 401)
    && Last(log).req.body.Object? && "auth" in Last(log).req.body.fields
    && Last(log).req.body.fields["auth"].Signed?
    && var challenge := |log| - (if Last(log).req.renew then 7 else 2);
    && challenge >= 0 && IsChallenge(log[challenge])
    && match log[challenge].out.body.Number("exp")
       case None => false
       case Some(exp) =>
         var ahead := exp - 60 - Last(log).req.body.fields["auth"].claims.iat;
         ahead > 60 || ahead < -60
  }

  /** The newest event is a push the broker refused with 401; here is the device's request it carried. */
  predicate PushRefused(log: History, authreq: string) {
    && |log| > 0 && Last(log).Sent? && Last(log).scope.None? && Last(log).req.verb == POST
    && Last(log).req.tls == Verify && EndsWith(Last(log).req.path, "/event/new")
    && Last(log).out.Reply? && Last(log).out.status == 401
    && Last(log).req.body.Text("authreq") == Some(authreq)
  }

  /** The date of that request is more than 2 seconds ahead of this instant or more than 15 behind. */
  predicate OffBroker(w: Env, authreq: string, now: int) {
    match ClaimOf(w, authreq, "iat")
    case None => false
    case Some(iat) => iat > now + 2 || iat < now - 15
  }

  ghost predicate RefusedByBroker(w: Env, log: History, to: nat) {
    exists authreq, t: nat :: t < to && PushRefused(log, authreq) && OffBroker(w, authreq, w.clock(t))
  }

  /** What a check-in begun right behind this history was begun for. */
  ghost predicate Caused(w: Env, before: History, why: Reason, to: nat) {
    match why
    case Explicit => true
    case Proactive => w.checkinOnLogin
    case CertRecovery =>
      && !w.noAutoCheckin && |before| > 0 && Last(before).Sent? && Last(before).req.tls == Default
      && Last(before).out.Failed? && Last(before).out.expired
    case Budgeted =>
      && !w.noAutoCheckin && |before| > 0
      && (Refused(Last(before), GET, "/api/auth/token", 403) || RefusedOnDrift(before))
    case ExtRecovery =>
      && !w.noAutoCheckin && |before| > 0
      && (Refused(Last(before), POST, "/api/auth/ext/request", 403)
          || Refused(Last(before), POST, "/api/auth/ext/token", 403))
    case BrokerDrift => !w.noAutoCheckin && RefusedByBroker(w, before, to)
  }

  lemma CausedLater(w: Env, before: History, why: Reason, to: nat, later: nat)
    requires Caused(w, before, why, to) && to <= later
    ensures Caused(w, before, why, later)
  {
    hide RefusedOnDrift, Refused, PushRefused, OffBroker;
  }

  // ---------------------------------------------------------------- steps

  function Passphrase(s: State): Option<string> {
    if s.auth.Some? then s.auth.value.passphrase else None
  }

  /**
   * A login is one under the session's passphrase, dated by one of these readings of the clock; a
   * check-in has its cause.
   */
  ghost predicate Fits(w: Env, log: History, i: nat, passphrase: Option<string>, from: nat, to: nat)
    requires i < |log|
  {
    && (IsLogin(log[i]) ==>
          passphrase.Some? && exists t :: from <= t < to && Backed(w, log, i, passphrase.value, w.clock(t)))
    && (log[i].CheckinBegan? ==> Caused(w, log[..i], log[i].why, to))
  }

  /** From `s` to `s'` only such events, the clock read from reading `from` on; a passphrase is kept or lost. */
  ghost predicate Steps(w: Env, s: State, s': State, from: nat) {
    && s.log <= s'.log && s.ticks <= s'.ticks
    && (Passphrase(s').None? || Passphrase(s') == Passphrase(s))
    && forall i :: |s.log| <= i < |s'.log| ==> Fits(w, s'.log, i, Passphrase(s), from, s'.ticks)
  }

  lemma {:induction false} StepsThen(w: Env, s1: State, s2: State, s3: State, from: nat)
    requires Steps(w, s1, s2, from) && Steps(w, s2, s3, from)
    ensures Steps(w, s1, s3, from)
  {
    hide IsLogin, Backed, Caused;
    forall i | |s1.log| <= i < |s3.log|
      ensures Fits(w, s3.log, i, Passphrase(s1), from, s3.ticks)
    {
      if i < |s2.log| {
        assert Fits(w, s2.log, i, Passphrase(s1), from, s2.ticks);
        assert s2.log[..i] == s3.log[..i];
        if s3.log[i].CheckinBegan? {
          CausedLater(w, s3.log[..i], s3.log[i].why, s2.ticks, s3.ticks);
        }
        if IsLogin(s3.log[i]) {
          var t :| from <= t < s2.ticks && Backed(w, s2.log, i, Passphrase(s1).value, w.clock(t));
          BackedStays(w, s2.log, s3.log, i, Passphrase(s1).value, w.clock(t));
        }
      } else {
        assert Fits(w, s3.log, i, Passphrase(s2), from, s3.ticks);
      }
    }
  }

  /** Nothing new in the history. */
  lemma Idle(w: Env, s: State, s': State, from: nat)
    requires s'.log == s.log && s.ticks <= s'.ticks && (Passphrase(s').None? || Passphrase(s') == Passphrase(s))
    ensures Steps(w, s, s', from)
  {
  }

  /** One event more, neither a login nor a check-in. */
  lemma OneMore(w: Env, s: State, s': State, from: nat)
    requires |s'.log| == |s.log| + 1 && s.log <= s'.log && s.ticks <= s'.ticks
    requires !IsLogin(Last(s'.log)) && !Last(s'.log).CheckinBegan?
    requires Passphrase(s').None? || Passphrase(s') == Passphrase(s)
    ensures Steps(w, s, s', from)
  {
  }

  // ------------------------------------------------- steps without a login

  lemma {:induction false} CheckinPlain(w: Env, s: State, why: Reason, from: nat)
    requires Caused(w, s.log, why, s.ticks)
    ensures Steps(w, s, CheckinRun(w, s, why).s, from)
  {
    hide Caused, Backed;
    var c := CheckinRun(w, s, why);
    var legs := CheckinAdds(w, s, why);
    CheckinTicks(w, s, why);
    hide CheckinRun, IsLogin;
    assert c.s.log[..|s.log|] == s.log;
  }

  /** A check-in adds its mark and sends in its own TLS modes, none of them a login. */
  lemma {:induction false} CheckinAdds(w: Env, s: State, why: Reason) returns (legs: History)
    ensures CheckinRun(w, s, why).s.log == s.log + [CheckinBegan(why)] + legs && !IsLogin(CheckinBegan(why))
    ensures forall i :: 0 <= i < |legs| ==> legs[i].Sent? && legs[i].req.tls != Default && !IsLogin(legs[i])
  {
    var outs := CheckinShape(w, s, why);
    hide CheckinRun;
    legs := Legs(w, outs);
  }

  lemma NotALogin(e: Event)
    requires !e.Sent?
    ensures !IsLogin(e)
  {
  }

  lemma {:induction false} CheckinTicks(w: Env, s: State, why: Reason)
    ensures CheckinRun(w, s, why).s.ticks == s.ticks
  {
    var s0 := Note(s.(inCheckin := true), CheckinBegan(why));
    var leg1 := RequestRaw(w, s0, GET, CHECKIN_PATH, NoBody, None, Relax);
    InsideTicks(w, s0, GET, CHECKIN_PATH, NoBody, Relax);
    var leg2 := RequestRaw(w, leg1.s, POST, w.checkinUrl, leg1.body, None, Verify);
    InsideTicks(w, leg1.s, POST, w.checkinUrl, leg1.body, Verify);
    InsideTicks(w, leg2.s, POST, CHECKIN_PATH, leg2.body, Relax);
    hide RequestRaw;
  }

  lemma {:induction false} InsideTicks(w: Env, s: State, verb: Method, path: string, body: Body, tls: Tls)
    requires s.inCheckin
    ensures RequestRaw(w, s, verb, path, body, None, tls).s.ticks == s.ticks
  {
  }

  lemma {:induction false} RecoveringPlain(w: Env, s: State, req: Request, scope: Option<string>, from: nat)
    requires !IsLogin(Sent(req, scope, Outgoing(w, s, req)))
    ensures Steps(w, s, DispatchRecovering(w, s, req, scope).s, from)
  {
    hide CheckinRun, Steps, Fits, Outgoing;
    var a := DispatchRecovering(w, s, req, scope);
    var o := Outgoing(w, s, req);
    var s1 := Dispatch(w, s, req, scope);
    SentPlain(w, s, s1, req, scope, from);
    ButError(w, s, s1, a.s, from);
    if o.Failed? && o.expired && !w.noAutoCheckin && !s.inCheckin && req.tls == Default {
      var c := CheckinRun(w, s1, CertRecovery);
      CheckinPlain(w, s1, CertRecovery, from);
      After(w, s, s1, c.s, a.s, from);
      var again := req.(renew := true);
      var s2 := Dispatch(w, c.s, again, scope);
      SentPlain(w, c.s, s2, again, scope, from);
      After(w, s, c.s, s2, a.s, from);
    }
  }

  lemma SentPlain(w: Env, s: State, s': State, req: Request, scope: Option<string>, from: nat)
    requires s' == Dispatch(w, s, req, scope)
    requires scope.Some? || req.verb != POST || req.path != TOKEN_PATH || req.tls != Default
    ensures Steps(w, s, s', from)
  {
    OneMore(w, s, s', from);
  }

  /** Two steps, and another error record at the end. */
  lemma After(w: Env, s: State, s1: State, m: State, s': State, from: nat)
    requires Steps(w, s, s1, from) && Steps(w, s1, m, from)
    ensures Steps(w, s, m, from)
    ensures s' == m.(err := s'.err, certRefreshed := s'.certRefreshed) ==> Steps(w, s, s', from)
  {
    StepsThen(w, s, s1, m, from);
    ButError(w, s, m, s', from);
  }

  /** The error record and the refresh latch are of no concern. */
  lemma ButError(w: Env, s: State, m: State, s': State, from: nat)
    requires Steps(w, s, m, from)
    ensures s' == m.(err := s'.err, certRefreshed := s'.certRefreshed) ==> Steps(w, s, s', from)
  {
  }

  lemma {:induction false} RawPlain(w: Env, s: State, verb: Method, path: string, body: Body, tls: Tls, from: nat)
    requires verb != POST || path != TOKEN_PATH || tls != Default
    ensures Steps(w, s, RequestRaw(w, s, verb, path, body, None, tls).s, from)
    ensures Steps(w, s, RequestJson(w, s, verb, path, body, None, tls).s, from)
  {
    hide DispatchRecovering, Steps, MapHttpStatus;
    var req := Request(verb, path, body, None, tls, false);
    RecoveringPlain(w, s, req, None, from);
    var a := DispatchRecovering(w, s, req, None);
    var g := RequestRaw(w, s, verb, path, body, None, tls);
    ButError(w, s, a.s, g.s, from);
    ButError(w, s, a.s, RequestJson(w, s, verb, path, body, None, tls).s, from);
  }

  /** A send in the context's TLS mode that got a reply. */
  predicate Replied(e: Event, verb: Method, path: string, body: Body) {
    && e.Sent? && e.scope.None? && e.req.verb == verb && e.req.path == path && e.req.body == body
    && e.req.tls == Default && e.out.Reply?
  }

  /** A dispatch that ends in a reply has it as the newest event, and one that does not has none there. */
  lemma {:induction false} DispatchStatus(w: Env, s: State, req: Request)
    requires req.tls == Default
    ensures var a := DispatchRecovering(w, s, req, None);
            && |a.s.log| > |s.log|
            && (if a.rc == Ok then
                  Replied(Last(a.s.log), req.verb, req.path, req.body) && Last(a.s.log).out == Reply(a.status, a.body)
                else
                  a.s.err.status == 0 && TransportRc(a.rc)
                  && !(Last(a.s.log).Sent? && Last(a.s.log).req.tls == Default && Last(a.s.log).out.Reply?))
  {
    var s1 := Dispatch(w, s, req, None);
    var legs := CheckinAdds(w, s1, CertRecovery);
    hide CheckinRun;
  }

  /** So a request's result and error record tell what its last reply was. */
  lemma {:induction false} JsonStatus(w: Env, s: State, verb: Method, path: string, body: Body)
    ensures var g := RequestJson(w, s, verb, path, body, None, Default);
            && |g.s.log| > |s.log|
            && (g.rc != Ok && g.s.err.status != 0 ==>
                  Replied(Last(g.s.log), verb, path, body) && Last(g.s.log).out.status == g.s.err.status)
            && (Replied(Last(g.s.log), verb, path, body) && !Last(g.s.log).out.Success() ==>
                  MeansStatus(g.rc, Last(g.s.log).out.status) && g.s.err.status == Last(g.s.log).out.status)
            && (Replied(Last(g.s.log), verb, path, body) && Last(g.s.log).out.status == 401 <==>
                  g.rc == AuthFailed && g.s.err.status == 401)
  {
    hide DispatchRecovering;
    DispatchStatus(w, s, Request(verb, path, body, None, Default, false));
    var r := RequestRaw(w, s, verb, path, body, None, Default);
  }

  lemma {:induction false} NotifyPlain(w: Env, s: State, verb: Method, url: Option<string>, subpath: string,
        body: Body, from: nat)
    ensures Steps(w, s, NotifySend(w, s, verb, url, subpath, body).s, from)
    ensures Steps(w, s, NotifyJson(w, s, verb, url, subpath, body).s, from)
  {
    hide Steps, MapHttpStatus, BrokerBase;
    var a := NotifySend(w, s, verb, url, subpath, body);
    var req := Request(verb, BrokerBase(url) + subpath, body, None, Verify, false);
    var s1 := Dispatch(w, s, req, None);
    SentPlain(w, s, s1, req, None, from);
    Unchanged(w, s, from);
    ButError(w, s, s, a.s, from);
    ButError(w, s, s1, a.s, from);
    ButError(w, s, a.s, NotifyJson(w, s, verb, url, subpath, body).s, from);
  }

  lemma Unchanged(w: Env, s: State, from: nat)
    ensures Steps(w, s, s, from) && Steps(w, s, ClearError(s), from) && Steps(w, s, Tick(s), from)
  {
  }

  lemma {:induction false} BrokerPlain(w: Env, s: State, url: Option<string>, authreq: string, epk: string,
        eventid: string, from: nat)
    ensures Steps(w, s, NotifySession(w, s, url).s, from)
    ensures Steps(w, s, EventNew(w, s, url, authreq, epk).s, from)
    ensures Steps(w, s, EventCheck(w, s, url, eventid).s, from)
  {
    hide Steps, NotifySend, NotifyJson, CheckPath;
    var s1 := ClearError(s);
    Unchanged(w, s, from);
    var body := Object(map["authreq" := Str(authreq), "epk" := Str(epk)]);
    NotifyPlain(w, s1, GET, url, "/session", NoBody, from);
    NotifyPlain(w, s1, POST, url, "/event/new", body, from);
    NotifyPlain(w, s1, GET, url, CheckPath(eventid), NoBody, from);
    After(w, s, s1, NotifyJson(w, s1, GET, url, "/session", NoBody).s, NotifySession(w, s, url).s, from);
    After(w, s, s1, NotifyJson(w, s1, POST, url, "/event/new", body).s, EventNew(w, s, url, authreq, epk).s, from);
    ButError(w, s, s, EventCheck(w, s, url, eventid).s, from);
    After(w, s, s1, NotifySend(w, s1, GET, url, CheckPath(eventid), NoBody).s, EventCheck(w, s, url, eventid).s, from);
  }

  lemma {:induction false} ExtPostPlain(w: Env, s: State, path: string, body: Body, from: nat)
    requires path == EXT_REQUEST_PATH || path == EXT_TOKEN_PATH
    ensures Steps(w, s, ExtLoginPost(w, s, path, body).s, from)
  {
    hide Steps, RequestJson, CheckinRun;
    var r := ExtLoginPost(w, s, path, body);
    var g := RequestJson(w, s, POST, path, body, None, Default);
    RawPlain(w, s, POST, path, body, Default, from);
    JsonStatus(w, s, POST, path, body);
    if g.rc != Ok && g.s.err.status == 403 && !w.noAutoCheckin && !g.s.inCheckin {
      var c := CheckinRun(w, g.s, ExtRecovery);
      CheckinPlain(w, g.s, ExtRecovery, from);
      After(w, s, g.s, c.s, r.s, from);
      RawPlain(w, c.s, POST, path, body, Default, from);
      StepsThen(w, s, c.s, RequestJson(w, c.s, POST, path, body, None, Default).s, from);
    }
  }

  lemma {:induction false} ExtPlain(w: Env, s: State, epk: string, scope: string, ctxStr: Option<string>,
        note: Option<string>, reply: string, from: nat)
    ensures Steps(w, s, ExtRequest(w, s, epk, scope, ctxStr, note).s, from)
    ensures Steps(w, s, ExtToken(w, s, reply).s, from)
  {
    hide Steps, ExtLoginPost, IsB64Of32, ExtFields;
    var s1 := ClearError(s);
    Unchanged(w, s, from);
    var asked, redeem := Object(ExtFields(epk, scope, ctxStr, note)), Object(map["authreply" := Str(reply)]);
    ExtPostPlain(w, s1, EXT_REQUEST_PATH, asked, from);
    ExtPostPlain(w, s1, EXT_TOKEN_PATH, redeem, from);
    ButError(w, s, s, ExtRequest(w, s, epk, scope, ctxStr, note).s, from);
    ButError(w, s, s, ExtToken(w, s, reply).s, from);
    After(w, s, s1, ExtLoginPost(w, s1, EXT_REQUEST_PATH, asked).s, ExtRequest(w, s, epk, scope, ctxStr, note).s, from);
    After(w, s, s1, ExtLoginPost(w, s1, EXT_TOKEN_PATH, redeem).s, ExtToken(w, s, reply).s, from);
  }

  lemma {:induction false} FirePlain(w: Env, s: State, url: Option<string>, scope: string, ctxStr: Option<string>,
        note: Option<string>, from: nat)
    ensures Steps(w, s, FirePush(w, s, url, scope, ctxStr, note).s, from)
  {
    hide Steps, NotifySession, EventNew, ExtRequest;
    var t := NotifySession(w, s, url);
    BrokerPlain(w, s, url, "", "", "", from);
    var r := ExtRequest(w, t.s, t.token, scope, ctxStr, note);
    ExtPlain(w, t.s, t.token, scope, ctxStr, note, "", from);
    StepsThen(w, s, t.s, r.s, from);
    var e := EventNew(w, r.s, url, r.authreq, r.epk);
    BrokerPlain(w, r.s, url, r.authreq, r.epk, "", from);
    StepsThen(w, s, r.s, e.s, from);
  }

  /** A push that got as far as the broker and was refused there with 401. */
  lemma {:induction false} FireRefused(w: Env, s: State, url: Option<string>, scope: string, ctxStr: Option<string>,
        note: Option<string>)
    ensures var p := FirePush(w, s, url, scope, ctxStr, note);
            p.authreq.Some? ==>
              (p.rc != Ok && p.s.err.status == 401 <==> PushRefused(p.s.log, p.authreq.value))
  {
    hide NotifySession, EventNew, ExtRequest;
    var t := NotifySession(w, s, url);
    var r := ExtRequest(w, t.s, t.token, scope, ctxStr, note);
    SessionBase(w, s, url);
    if t.rc == Ok {
      EventRefused(w, r.s, url, r.authreq, r.epk);
    }
  }

  lemma {:induction false} SessionBase(w: Env, s: State, url: Option<string>)
    ensures NotifySession(w, s, url).rc == Ok ==> |BrokerBase(url)| > 0
  {
    hide BrokerBase;
  }

  lemma {:induction false} EventRefused(w: Env, s: State, url: Option<string>, authreq: string, epk: string)
    requires |BrokerBase(url)| > 0
    ensures var e := EventNew(w, s, url, authreq, epk);
            e.rc != Ok && e.s.err.status == 401 <==> PushRefused(e.s.log, authreq)
  {
    hide BrokerBase, NotifyJson, PushRefused;
    var body := Object(map["authreq" := Str(authreq), "epk" := Str(epk)]);
    EventReply(w, ClearError(s), url, body, authreq);
  }

  lemma {:induction false} EventReply(w: Env, s: State, url: Option<string>, body: Body, authreq: string)
    requires |BrokerBase(url)| > 0 && body.Text("authreq") == Some(authreq)
    ensures var g := NotifyJson(w, s, POST, url, "/event/new", body);
            && (g.rc != Ok && g.s.err.status == 401 <==> PushRefused(g.s.log, authreq))
            && (g.rc == Ok ==> !PushRefused(g.s.log, authreq))
  {
    hide BrokerBase;
    var base := BrokerBase(url);
    assert (base + "/event/new")[|base|..] == "/event/new";
  }

  /** The recovery of a refused push is begun exactly when the two clocks are that far apart. */
  lemma {:induction false} PushRetriedExactly(w: Env, s: State, url: Option<string>, scope: string,
        ctxStr: Option<string>, note: Option<string>)
    requires !w.noAutoCheckin && !s.inCheckin
    ensures var p := FirePush(w, s, url, scope, ctxStr, note);
            var q := PushRecovering(w, s, url, scope, ctxStr, note);
            && p.s.log <= q.s.log
            && ((|q.s.log| > |p.s.log| && q.s.log[|p.s.log|] == CheckinBegan(BrokerDrift))
                <==> p.authreq.Some? && PushRefused(p.s.log, p.authreq.value)
                     && OffBroker(w, p.authreq.value, w.clock(p.s.ticks)))
            && (q.s.log == p.s.log || q.s.log[|p.s.log|] == CheckinBegan(BrokerDrift))
  {
    hide FirePush, CheckinRun, PushRefused, CompactToken.PeekPayload;
    FireRefused(w, s, url, scope, ctxStr, note);
    var p := FirePush(w, s, url, scope, ctxStr, note);
    var c := CheckinRun(w, Tick(p.s), BrokerDrift);
    var legs := CheckinAdds(w, Tick(p.s), BrokerDrift);
    FirePlain(w, c.s, url, scope, ctxStr, note, 0);
    StepsTicks(w, c.s, FirePush(w, c.s, url, scope, ctxStr, note).s, 0);
    hide Steps;
  }

  lemma {:induction false} BeginPlain(w: Env, s: State, url: Option<string>, scope: string, ctxStr: Option<string>,
        note: Option<string>, from: nat)
    ensures Steps(w, s, ConfirmBegin(w, s, url, scope, ctxStr, note).s, from)
  {
    hide Steps, PushRecovering, IsLogin;
    PushPlain(w, s, url, scope, ctxStr, note, from);
    var q := PushRecovering(w, s, url, scope, ctxStr, note);
    var e := Begun(|q.s.log|, scope, q.eventid);
    NotALogin(e);
    OneMore(w, q.s, Note(q.s, e), from);
    StepsThen(w, s, q.s, Note(q.s, e), from);
  }

  lemma {:induction false} PushPlain(w: Env, s: State, url: Option<string>, scope: string, ctxStr: Option<string>,
        note: Option<string>, from: nat)
    ensures Steps(w, s, PushRecovering(w, s, url, scope, ctxStr, note).s, from)
  {
    hide Steps, FirePush, CheckinRun, PushRefused, CompactToken.PeekPayload;
    var p := FirePush(w, s, url, scope, ctxStr, note);
    FirePlain(w, s, url, scope, ctxStr, note, from);
    FireRefused(w, s, url, scope, ctxStr, note);
    var s1 := Tick(p.s);
    Unchanged(w, p.s, from);
    StepsThen(w, s, p.s, s1, from);
    var q := PushRecovering(w, s, url, scope, ctxStr, note);
    if q.s != p.s && q.s != s1 {
      var c := CheckinRun(w, s1, BrokerDrift);
      assert PushRefused(p.s.log, p.authreq.value) && OffBroker(w, p.authreq.value, w.clock(p.s.ticks));
      CheckinPlain(w, s1, BrokerDrift, from);
      StepsThen(w, s, s1, c.s, from);
      var again := FirePush(w, c.s, url, scope, ctxStr, note);
      FirePlain(w, c.s, url, scope, ctxStr, note, from);
      StepsThen(w, s, c.s, again.s, from);
    }
  }

  lemma {:induction false} SeedPlain(w: Env, s: State, scope: string, token: string, source: Source, from: nat)
    ensures Steps(w, s, CacheSeed(w, s, scope, token, source), from)
  {
    hide Steps, Claim, CacheExpiry, IsLogin;
    var s' := CacheSeed(w, s, scope, token, source);
    NotALogin(Stored(scope, token, source));
    OneMore(w, s, s', from);
  }

  lemma {:induction false} PollPlain(w: Env, s: State, h: Handle, from: nat)
    ensures Steps(w, s, ConfirmPoll(w, s, h).s, from)
  {
    hide Steps, EventCheck, ExtToken, CacheSeed, IsLogin;
    var p := ConfirmPoll(w, s, h);
    Unchanged(w, s, from);
    ButError(w, s, s, p.s, from);
    var c := EventCheck(w, s, h.url, h.eventid);
    BrokerPlain(w, s, h.url, "", "", h.eventid, from);
    if !h.terminal && c.rc == Ok && !c.verdict.Pending? {
      var e := Answered(h.id, if c.verdict.Denied? then None else Some(c.verdict.reply));
      var s1 := Note(c.s, e);
      NotALogin(e);
      OneMore(w, c.s, s1, from);
      After(w, s, c.s, s1, p.s, from);
      if c.verdict.Approved? {
        var s2 := Note(s1, Redeemed(h.id));
        NotALogin(Redeemed(h.id));
        OneMore(w, s1, s2, from);
        StepsThen(w, s, s1, s2, from);
        var t := ExtToken(w, s2, c.verdict.reply);
        ExtPlain(w, s2, "", "", None, None, c.verdict.reply, from);
        StepsThen(w, s, s2, t.s, from);
        SeedPlain(w, t.s, h.scope, t.token, ByConfirm(h.id), from);
        StepsThen(w, s, t.s, CacheSeed(w, t.s, h.scope, t.token, ByConfirm(h.id)), from);
      }
    }
  }

  lemma {:induction false} WaitPlain(w: Env, s: State, h: Handle, timeout: int, elapsed: nat, from: nat)
    ensures Steps(w, s, WaitFrom(w, s, h, timeout, elapsed).s, from)
    decreases Left(timeout, elapsed)
  {
    hide Steps, ConfirmPoll, IsLogin;
    var p := ConfirmPoll(w, s, h);
    PollPlain(w, s, h, from);
    ButError(w, s, p.s, WaitFrom(w, s, h, timeout, elapsed).s, from);
    if p.rc == Ok && !p.approved && elapsed < timeout {
      var step := if w.pollInterval > timeout - elapsed then timeout - elapsed else w.pollInterval;
      var s1 := Note(p.s, Slept(step));
      NotALogin(Slept(step));
      OneMore(w, p.s, s1, from);
      StepsThen(w, s, p.s, s1, from);
      WaitPlain(w, s1, p.h, timeout, elapsed + step, from);
      StepsThen(w, s, s1, WaitFrom(w, s1, p.h, timeout, elapsed + step).s, from);
    }
  }

  lemma {:induction false} ProactivePlain(w: Env, s: State, from: nat)
    ensures Steps(w, s, ProactiveCheckin(w, s), from)
  {
    hide Steps, CheckinRun;
    Unchanged(w, s, from);
    if w.checkinOnLogin {
      var s1 := s.(checkinDone := true);
      Idle(w, s, s1, from);
      CheckinPlain(w, s1, Proactive, from);
      StepsThen(w, s, s1, CheckinRun(w, s1, Proactive).s, from);
    }
  }

  lemma {:induction false} MobilePlain(w: Env, s: State, scope: string, from: nat)
    ensures Steps(w, s, MobileToken(w, s, scope).s, from)
  {
    hide Steps, ProactiveCheckin, ConfirmBegin, WaitFrom;
    var s1 := ProactiveCheckin(w, s);
    ProactivePlain(w, s, from);
    var b := ConfirmBegin(w, s1, None, scope, None, None);
    BeginPlain(w, s1, None, scope, None, None, from);
    StepsThen(w, s, s1, b.s, from);
    if b.rc == Ok {
      var p := ConfirmWait(w, b.s, b.handle.value, w.confirmTimeout);
      WaitPlain(w, b.s, b.handle.value, w.confirmTimeout, 0, from);
      After(w, s, b.s, p.s, MobileToken(w, s, scope).s, from);
    }
  }

  // --------------------------------------------------------- the exchange

  /** A successful fetch ends with the challenge's reply. */
  lemma {:induction false} FetchPlain(w: Env, s: State, spent: bool, from: nat)
    ensures var c := FetchChallenge(w, s, spent);
            && Steps(w, s, c.s, from)
            && (c.rc == Ok ==> |c.s.log| > 0 && IsChallenge(Last(c.s.log)) && Last(c.s.log).out.body == c.body)
  {
    hide Steps, RequestJson, CheckinRun, IsChallenge;
    var r := FetchChallenge(w, s, spent);
    var g := RequestJson(w, s, GET, TOKEN_PATH, NoBody, None, Default);
    RawPlain(w, s, GET, TOKEN_PATH, NoBody, Default, from);
    ChallengeReply(w, s);
    JsonStatus(w, s, GET, TOKEN_PATH, NoBody);
    if g.rc != Ok && g.s.err.status == 403 && !spent && !w.noAutoCheckin && !g.s.inCheckin {
      var c := CheckinRun(w, g.s, Budgeted);
      CheckinPlain(w, g.s, Budgeted, from);
      After(w, s, g.s, c.s, r.s, from);
      RawPlain(w, c.s, GET, TOKEN_PATH, NoBody, Default, from);
      ChallengeReply(w, c.s);
      StepsThen(w, s, c.s, RequestJson(w, c.s, GET, TOKEN_PATH, NoBody, None, Default).s, from);
    }
  }

  lemma {:induction false} ChallengeReply(w: Env, s: State)
    ensures var g := RequestJson(w, s, GET, TOKEN_PATH, NoBody, None, Default);
            g.rc == Ok ==> |g.s.log| > 0 && IsChallenge(Last(g.s.log)) && Last(g.s.log).out.body == g.body
  {
    hide CheckinRun;
    var a := DispatchRecovering(w, s, Request(GET, TOKEN_PATH, NoBody, None, Default, false), None);
    var r := RequestRaw(w, s, GET, TOKEN_PATH, NoBody, None, Default);
    assert r.rc == Ok ==> a.rc == Ok && r.s == a.s && r.body == a.body;
  }

  /** An unscoped request adds to the history what its recovering dispatch does. */
  lemma {:induction false} JsonAsDispatch(w: Env, s: State, verb: Method, path: string, body: Body, tls: Tls)
    ensures var a := DispatchRecovering(w, s, Request(verb, path, body, None, tls, false), None).s;
            var g := RequestJson(w, s, verb, path, body, None, tls);
            && g.s == a.(err := g.s.err) && g.s.auth == s.auth
  {
    hide CheckinRun;
    var a := DispatchRecovering(w, s, Request(verb, path, body, None, tls, false), None);
    var r := RequestRaw(w, s, verb, path, body, None, tls);
    assert r.s == a.s.(err := r.s.err);
  }

  /** Where a recovering dispatch ends: at its send, in the check-in behind it, or at the send after that. */
  lemma {:induction false} DispatchEnds(w: Env, s: State, req: Request)
    ensures var first := Sent(req, None, Outgoing(w, s, req));
            var s1 := Dispatch(w, s, req, None);
            var c := CheckinRun(w, s1, CertRecovery);
            var s2 := Dispatch(w, c.s, req.(renew := true), None);
            var a := DispatchRecovering(w, s, req, None).s;
            && a.ticks == s.ticks && a.auth == s.auth
            && (a.log == s1.log
                || (&& first.out.Failed? && first.out.expired && !w.noAutoCheckin && req.tls == Default
                    && (a.log == c.s.log || (a.log == s2.log && Resent(first, Last(s2.log)) && c.rc == Ok))))
  {
    hide CheckinRun;
    CheckinTicks(w, Dispatch(w, s, req, None), CertRecovery);
  }

  /** The events of a completed certificate check-in. */
  lemma {:induction false} WholeCheckin(w: Env, s: State) returns (events: History)
    requires CheckinRun(w, s, CertRecovery).rc == Ok
    ensures CheckedIn(w, events) && CheckinRun(w, s, CertRecovery).s.log == s.log + events && |events| == 4
  {
    var outs := CheckinShape(w, s, CertRecovery);
    assert |Legs(w, outs)| == 3;
    hide CheckinRun, Legs;
    events := [CheckinBegan(CertRecovery)] + Legs(w, outs);
    assert CheckedIn(w, events);
  }

  /** The first send of a login behind the challenge it answers. */
  lemma {:induction false} FirstSteps(w: Env, s: State, s1: State, e: Event, passphrase: string, t: nat, from: nat)
    requires |s.log| > 0 && Answering(w, Last(s.log), e, passphrase, w.clock(t)) && from <= t < s.ticks && e.Sent?
    requires s1 == Note(s, e) && Passphrase(s) == Some(passphrase)
    ensures Steps(w, s, s1, from) && Backed(w, s1.log, |s.log|, passphrase, w.clock(t))
  {
    hide Answering;
    assert s1.log[|s.log| - 1] == Last(s.log) && s1.log[|s.log|] == e;
    assert BackedBy(w, s1.log, |s.log|, |s.log|, passphrase, w.clock(t));
  }

  /** And its second send, after the check-in. */
  lemma {:induction false} SecondSteps(w: Env, s: State, c: State, s2: State, events: History, e: Event, again: Event,
        passphrase: string, t: nat, from: nat)
    requires |s.log| > 0 && Answering(w, Last(s.log), e, passphrase, w.clock(t)) && from <= t < c.ticks
    requires CheckedIn(w, events) && c.log == s.log + [e] + events && Resent(e, again)
    requires s2 == Note(c, again) && Passphrase(c) == Some(passphrase)
    ensures Steps(w, c, s2, from)
  {
    hide Answering, CheckedIn;
    var log, f := s2.log, |s.log|;
    assert log[f - 1] == Last(s.log) && log[f] == e && log[|c.log|] == again;
    assert log[f + 1..|c.log|] == events;
    assert BackedBy(w, log, f, |c.log|, passphrase, w.clock(t));
  }

  lemma {:induction false} PostSteps(w: Env, s: State, body: Body, passphrase: string, t: nat, from: nat)
    requires |s.log| > 0 && from <= t < s.ticks && Passphrase(s) == Some(passphrase)
    requires var req := Request(POST, TOKEN_PATH, body, None, Default, false);
             Answering(w, Last(s.log), Sent(req, None, Outgoing(w, s, req)), passphrase, w.clock(t))
    ensures Steps(w, s, RequestJson(w, s, POST, TOKEN_PATH, body, None, Default).s, from)
  {
    hide Steps, Answering, CheckinRun, RequestJson, DispatchRecovering, CheckedIn, Resent;
    var req := Request(POST, TOKEN_PATH, body, None, Default, false);
    var first := Sent(req, None, Outgoing(w, s, req));
    var s1 := Dispatch(w, s, req, None);
    var c := CheckinRun(w, s1, CertRecovery);
    var s2 := Dispatch(w, c.s, req.(renew := true), None);
    var a := DispatchRecovering(w, s, req, None).s;
    FirstSteps(w, s, s1, first, passphrase, t, from);
    DispatchEnds(w, s, req);
    if a.log == s1.log {
      SameLog(w, s, s1, a, from);
    } else {
      CheckinPlain(w, s1, CertRecovery, from);
      CheckinTicks(w, s1, CertRecovery);
      StepsThen(w, s, s1, c.s, from);
      if a.log == c.s.log {
        SameLog(w, s, c.s, a, from);
      } else {
        var events := WholeCheckin(w, s1);
        SecondSteps(w, s, c.s, s2, events, first, Last(s2.log), passphrase, t, from);
        StepsThen(w, s, c.s, s2, from);
        SameLog(w, s, s2, a, from);
      }
    }
    JsonAsDispatch(w, s, POST, TOKEN_PATH, body, Default);
    ButError(w, s, a, RequestJson(w, s, POST, TOKEN_PATH, body, None, Default).s, from);
  }

  lemma SameLog(w: Env, s: State, m: State, s': State, from: nat)
    requires Steps(w, s, m, from) && s'.log == m.log && s'.ticks == m.ticks && Passphrase(s') == Passphrase(m)
    ensures Steps(w, s, s', from)
  {
  }

  /** How one exchange ends: at its challenge, at its login, or with the token stored. */
  lemma {:induction false} AcquireEnds(w: Env, s: State, passphrase: string, scope: string, now: int, spent: bool)
    ensures var a := AcquireToken(w, s, passphrase, scope, now, spent);
            var c := FetchChallenge(w, s, spent);
            var claims := LoginClaims(w, c.body, passphrase, scope, now);
            if c.rc != Ok || claims.None? then a.s == c.s.(err := a.s.err)
            else
              var body := Object(map["auth" := Signed(claims.value)]);
              var g := RequestJson(w, c.s, POST, TOKEN_PATH, body, None, Default).s;
              || a.s == g.(err := a.s.err)
              || (&& a.s.log == g.log + [Stored(scope, a.token, ByPost)] && a.s.ticks == g.ticks
                  && (Passphrase(a.s).None? || Passphrase(a.s) == Passphrase(g)))
  {
    hide FetchChallenge, RequestJson, DriftEvident, CacheExpiry, LoginClaims;
  }

  /** One exchange: what it posts answers the challenge it has just fetched. */
  lemma {:induction false} AcquireLogins(w: Env, s: State, passphrase: string, scope: string, t: nat, spent: bool,
        from: nat)
    requires from <= t < s.ticks && Passphrase(s) == Some(passphrase)
    ensures Steps(w, s, AcquireToken(w, s, passphrase, scope, w.clock(t), spent).s, from)
  {
    hide Steps, FetchChallenge, RequestJson, Answering, IsChallenge, LoginClaims, IsLogin, AcquireToken, Passphrase;
    var now := w.clock(t);
    AcquireEnds(w, s, passphrase, scope, now, spent);
    var a := AcquireToken(w, s, passphrase, scope, now, spent);
    var c := FetchChallenge(w, s, spent);
    FetchPlain(w, s, spent, from);
    ButError(w, s, c.s, a.s, from);
    var claims := LoginClaims(w, c.body, passphrase, scope, now);
    if c.rc == Ok && claims.Some? {
      var body := Object(map["auth" := Signed(claims.value)]);
      FetchTicks(w, s, spent, from);
      ClaimsAnswer(w, c.s, passphrase, scope, now);
      PostSteps(w, c.s, body, passphrase, t, from);
      var g := RequestJson(w, c.s, POST, TOKEN_PATH, body, None, Default);
      After(w, s, c.s, g.s, a.s, from);
      if a.s != g.s.(err := a.s.err) {
        NotALogin(Stored(scope, a.token, ByPost));
        OneMore(w, g.s, a.s, from);
        StepsThen(w, s, g.s, a.s, from);
      }
    }
  }

  lemma {:induction false} FetchTicks(w: Env, s: State, spent: bool, from: nat)
    ensures var c := FetchChallenge(w, s, spent); s.ticks <= c.s.ticks && Passphrase(c.s) == Passphrase(s)
  {
    hide FetchChallenge, IsChallenge, Fits;
    FetchPlain(w, s, spent, from);
  }

  lemma {:induction false} ClaimsAnswer(w: Env, s: State, passphrase: string, scope: string, now: int)
    requires |s.log| > 0 && IsChallenge(Last(s.log))
    requires LoginClaims(w, Last(s.log).out.body, passphrase, scope, now).Some?
    ensures var claims := LoginClaims(w, Last(s.log).out.body, passphrase, scope, now).value;
            var req := Request(POST, TOKEN_PATH, Object(map["auth" := Signed(claims)]), None, Default, false);
            Answering(w, Last(s.log), Sent(req, None, Outgoing(w, s, req)), passphrase, now)
  {
    hide IsChallenge, Outgoing;
  }

  /** Where the answered challenge is when a login has been sent. */
  lemma {:induction false} PostRefused(w: Env, s: State, c: Claims)
    requires |s.log| > 0 && IsChallenge(Last(s.log))
    ensures var body := Object(map["auth" := Signed(c)]);
            var g := RequestJson(w, s, POST, TOKEN_PATH, body, None, Default);
            && (g.rc == AuthFailed && g.s.err.status == 401 && DriftEvident(Last(s.log).out.body, c.iat)
                <==> RefusedOnDrift(g.s.log))
            && (g.rc == Ok ==> |g.s.log| > 0 && !Refused(Last(g.s.log), POST, TOKEN_PATH, 401))
  {
    hide CheckinRun, RequestJson, DispatchRecovering, CheckedIn, IsChallenge, Outgoing;
    var body := Object(map["auth" := Signed(c)]);
    var req := Request(POST, TOKEN_PATH, body, None, Default, false);
    var first := Sent(req, None, Outgoing(w, s, req));
    var s1 := Dispatch(w, s, req, None);
    var g := RequestJson(w, s, POST, TOKEN_PATH, body, None, Default);
    DispatchEnds(w, s, req);
    JsonAsDispatch(w, s, POST, TOKEN_PATH, body, Default);
    JsonStatus(w, s, POST, TOKEN_PATH, body);
    if g.s.log == s1.log {
      assert g.s.log[|g.s.log| - 2] == Last(s.log);
    } else {
      var legs := CheckinAdds(w, s1, CertRecovery);
      var ck := CheckinRun(w, s1, CertRecovery);
      if g.s.log != ck.s.log {
        var events := WholeCheckin(w, s1);
        assert g.s.log[|g.s.log| - 7] == Last(s.log);
      }
    }
  }

  lemma {:induction false} AcquireResult(w: Env, s: State, passphrase: string, scope: string, now: int, spent: bool)
    ensures var a := AcquireToken(w, s, passphrase, scope, now, spent);
            var c := FetchChallenge(w, s, spent);
            var claims := LoginClaims(w, c.body, passphrase, scope, now);
            if c.rc != Ok then a.rc == c.rc && a.s == c.s && !a.drift
            else if claims.None? then a.rc == Protocol && a.s == c.s.(err := Error(0, false))
            else
              var body := Object(map["auth" := Signed(claims.value)]);
              var g := RequestJson(w, c.s, POST, TOKEN_PATH, body, None, Default);
              if g.rc != Ok then a.s == g.s && a.rc == g.rc && a.drift == DriftEvident(c.body, now)
              else
                match g.body.Text("token")
                case None => a.rc == Protocol && a.s == g.s.(err := Error(200, false))
                case Some(token) =>
                  a.rc == Ok && a.token == token && a.s.log == g.s.log + [Stored(scope, token, ByPost)]
  {
    hide FetchChallenge, RequestJson, DriftEvident, CacheExpiry, LoginClaims;
  }

  /** An exchange ends refused with drift evident exactly when its history says so. */
  lemma {:induction false} AcquireRefused(w: Env, s: State, passphrase: string, scope: string, now: int, spent: bool)
    ensures var a := AcquireToken(w, s, passphrase, scope, now, spent);
            a.rc == AuthFailed && a.drift && a.s.err.status == 401 <==> RefusedOnDrift(a.s.log)
  {
    hide Steps, FetchChallenge, RequestJson, DriftEvident, LoginClaims, IsChallenge, RefusedOnDrift, AcquireToken;
    AcquireResult(w, s, passphrase, scope, now, spent);
    var a := AcquireToken(w, s, passphrase, scope, now, spent);
    var c := FetchChallenge(w, s, spent);
    FetchPlain(w, s, spent, c.s.ticks);
    NoReading(w, s, c.s);
    FetchGrows(w, s, spent);
    NotRefused(c.s.log);
    NotRefused(a.s.log);
    var claims := LoginClaims(w, c.body, passphrase, scope, now);
    if c.rc == Ok && claims.Some? {
      ClaimsDated(w, c.body, passphrase, scope, now);
      PostRefused(w, c.s, claims.value);
    }
  }

  lemma ClaimsDated(w: Env, challenge: Body, passphrase: string, scope: string, now: int)
    ensures var claims := LoginClaims(w, challenge, passphrase, scope, now);
            claims.Some? ==> claims.value.iat == now
  {
  }

  lemma NotRefused(log: History)
    ensures |log| > 0 && (!IsLogin(Last(log)) || !Refused(Last(log), POST, TOKEN_PATH, 401)) ==> !RefusedOnDrift(log)
  {
  }

  lemma {:induction false} FetchGrows(w: Env, s: State, spent: bool)
    ensures |FetchChallenge(w, s, spent).s.log| > |s.log|
  {
    hide RequestJson, CheckinRun;
    var g := RequestJson(w, s, GET, TOKEN_PATH, NoBody, None, Default);
    JsonStatus(w, s, GET, TOKEN_PATH, NoBody);
    var legs := CheckinAdds(w, g.s, Budgeted);
    JsonStatus(w, CheckinRun(w, g.s, Budgeted).s, GET, TOKEN_PATH, NoBody);
  }

  /** The second exchange reads the clock again, after the check-in. */
  lemma {:induction false} DriftLogins(w: Env, s: State, passphrase: string, scope: string, from: nat)
    requires Passphrase(s) == Some(passphrase) && from <= s.ticks && RefusedOnDrift(s.log) && !w.noAutoCheckin
    ensures var c := CheckinRun(w, s, Budgeted);
            && Steps(w, s, c.s, from)
            && Steps(w, s, AcquireToken(w, Tick(c.s), passphrase, scope, w.clock(c.s.ticks), true).s, from)
  {
    hide Steps, AcquireToken, CheckinRun;
    var c := CheckinRun(w, s, Budgeted);
    CheckinPlain(w, s, Budgeted, from);
    CheckinTicks(w, s, Budgeted);
    Unchanged(w, c.s, from);
    StepsThen(w, s, c.s, Tick(c.s), from);
    AcquireLogins(w, Tick(c.s), passphrase, scope, c.s.ticks, true, from);
    StepsThen(w, s, Tick(c.s), AcquireToken(w, Tick(c.s), passphrase, scope, w.clock(c.s.ticks), true).s, from);
  }

  lemma ProactiveKeeps(w: Env, s: State)
    ensures var s1 := ProactiveCheckin(w, s); s1.auth == s.auth && s1.ticks == s.ticks
  {
    hide CheckinRun;
    CheckinTicks(w, s.(checkinDone := true), Proactive);
  }

  lemma {:induction false} PassphraseLogins(w: Env, s: State, passphrase: string, scope: string, t: nat, from: nat)
    requires from <= t < s.ticks && Passphrase(s) == Some(passphrase)
    ensures Steps(w, s, PassphraseToken(w, s, passphrase, scope, w.clock(t)).s, from)
  {
    hide Steps, ProactiveCheckin, AcquireToken, CheckinRun, RefusedOnDrift;
    var s1 := ProactiveCheckin(w, s);
    ProactivePlain(w, s, from);
    ProactiveKeeps(w, s);
    var a := AcquireToken(w, s1, passphrase, scope, w.clock(t), false);
    AcquireLogins(w, s1, passphrase, scope, t, false, from);
    AcquireRefused(w, s1, passphrase, scope, w.clock(t), false);
    StepsThen(w, s, s1, a.s, from);
    if RefusedOnDrift(a.s.log) && !w.noAutoCheckin {
      StepsTicks(w, s1, a.s, from);
      var c := CheckinRun(w, a.s, Budgeted);
      DriftLogins(w, a.s, passphrase, scope, from);
      After(w, s, a.s, c.s, PassphraseToken(w, s, passphrase, scope, w.clock(t)).s, from);
      StepsThen(w, s, a.s, AcquireToken(w, Tick(c.s), passphrase, scope, w.clock(c.s.ticks), true).s, from);
    }
  }

  lemma StepsTicks(w: Env, s: State, s': State, from: nat)
    requires Steps(w, s, s', from)
    ensures s.ticks <= s'.ticks && s.log <= s'.log
    ensures Passphrase(s').None? || Passphrase(s') == Passphrase(s)
  {
    hide Fits;
  }

  // ------------------------------------------------------ a rejected login

  /** From `s` on no login was sent behind one that got an answer. */
  predicate NoneBehindAnswer(log: History, start: nat) {
    forall i, k :: start <= i < k < |log| && IsLogin(log[i]) && log[i].out.Reply? ==> !IsLogin(log[k])
  }

  /** Steps that may not have read the clock have sent no login. */
  lemma NoReading(w: Env, s: State, s': State)
    requires Steps(w, s, s', s'.ticks)
    ensures s.log <= s'.log && forall i :: |s.log| <= i < |s'.log| ==> !IsLogin(s'.log[i])
  {
    hide IsLogin, Backed;
    forall i | |s.log| <= i < |s'.log|
      ensures !IsLogin(s'.log[i])
    {
      assert Fits(w, s'.log, i, Passphrase(s), s'.ticks, s'.ticks);
    }
  }

  lemma {:induction false} PostAnswered(w: Env, s: State, body: Body, start: nat)
    requires start <= |s.log| && forall i :: start <= i < |s.log| ==> !IsLogin(s.log[i])
    ensures NoneBehindAnswer(RequestJson(w, s, POST, TOKEN_PATH, body, None, Default).s.log, start)
  {
    hide Steps, CheckinRun, RequestJson, DispatchRecovering, IsLogin;
    var req := Request(POST, TOKEN_PATH, body, None, Default, false);
    var s1 := Dispatch(w, s, req, None);
    var c := CheckinRun(w, s1, CertRecovery);
    var legs := CheckinAdds(w, s1, CertRecovery);
    DispatchEnds(w, s, req);
    JsonAsDispatch(w, s, POST, TOKEN_PATH, body, Default);
  }

  lemma {:induction false} AcquireAnswered(w: Env, s: State, passphrase: string, scope: string, now: int, spent: bool)
    ensures var a := AcquireToken(w, s, passphrase, scope, now, spent);
            s.log <= a.s.log && NoneBehindAnswer(a.s.log, |s.log|)
  {
    hide Steps, FetchChallenge, RequestJson, AcquireToken, LoginClaims, IsLogin, IsChallenge, Passphrase;
    AcquireEnds(w, s, passphrase, scope, now, spent);
    var a := AcquireToken(w, s, passphrase, scope, now, spent);
    var c := FetchChallenge(w, s, spent);
    FetchPlain(w, s, spent, c.s.ticks);
    NoReading(w, s, c.s);
    var claims := LoginClaims(w, c.body, passphrase, scope, now);
    if c.rc == Ok && claims.Some? {
      var body := Object(map["auth" := Signed(claims.value)]);
      PostAnswered(w, c.s, body, |s.log|);
      JsonExtends(w, c.s, POST, TOKEN_PATH, body);
      NotALogin(Stored(scope, a.token, ByPost));
    }
  }

  lemma {:induction false} JsonExtends(w: Env, s: State, verb: Method, path: string, body: Body)
    ensures s.log <= RequestJson(w, s, verb, path, body, None, Default).s.log
  {
    hide RequestJson, Quietly;
    JsonQuiet(w, s, verb, path, body, Default);
    QuietLonger(s, RequestJson(w, s, verb, path, body, None, Default).s, RawCost(w, s.inCheckin, Default), 0);
  }

  /**
   * One acquisition: a login sent after an answered one, that is, after a rejection on clock drift, is
   * dated by a reading made since the acquisition began, not by the one the rejected login carried.
   */
  lemma {:induction false} RejectedReadsAgain(w: Env, s: State, scope: string, t: nat, i: nat, k: nat)
    requires t < s.ticks && Passphrase(s).Some?
    requires var log := PassphraseToken(w, s, Passphrase(s).value, scope, w.clock(t)).s.log;
             |s.log| <= i < k < |log| && IsLogin(log[i]) && log[i].out.Reply? && IsLogin(log[k])
    ensures var p := PassphraseToken(w, s, Passphrase(s).value, scope, w.clock(t));
            exists later :: s.ticks <= later < p.s.ticks
                            && Backed(w, p.s.log, k, Passphrase(s).value, w.clock(later))
  {
    hide Steps, ProactiveCheckin, AcquireToken, CheckinRun, IsLogin, Backed, RefusedOnDrift;
    var passphrase := Passphrase(s).value;
    var p := PassphraseToken(w, s, passphrase, scope, w.clock(t));
    var s1 := ProactiveCheckin(w, s);
    ProactivePlain(w, s, s1.ticks);
    NoReading(w, s, s1);
    ProactiveKeeps(w, s);
    var a := AcquireToken(w, s1, passphrase, scope, w.clock(t), false);
    AcquireAnswered(w, s1, passphrase, scope, w.clock(t), false);
    AcquireRefused(w, s1, passphrase, scope, w.clock(t), false);
    var c := CheckinRun(w, a.s, Budgeted);
    var legs := CheckinAdds(w, a.s, Budgeted);
    var b := AcquireToken(w, Tick(c.s), passphrase, scope, w.clock(c.s.ticks), true);
    AcquireAnswered(w, Tick(c.s), passphrase, scope, w.clock(c.s.ticks), true);
    assert a.s.log <= p.s.log;
    assert |s1.log| <= i;
    AcquireLogins(w, s1, passphrase, scope, t, false, t);
    StepsTicks(w, s1, a.s, t);
    DriftLogins(w, a.s, passphrase, scope, s.ticks);
    AtReading(w, a.s, b.s, k, s.ticks);
  }

  lemma AtReading(w: Env, s: State, s': State, i: nat, from: nat)
    requires Steps(w, s, s', from) && |s.log| <= i < |s'.log| && IsLogin(s'.log[i])
    ensures Passphrase(s).Some?
    ensures exists t :: from <= t < s'.ticks && Backed(w, s'.log, i, Passphrase(s).value, w.clock(t))
  {
    hide IsLogin, Backed;
    assert Fits(w, s'.log, i, Passphrase(s), from, s'.ticks);
  }

  /** A check-in on the login's budget was begun from here on. */
  ghost predicate BudgetUsed(log: History, start: nat) {
    exists m :: start <= m < |log| && log[m] == CheckinBegan(Budgeted)
  }

  lemma {:induction false} FetchUses(w: Env, s: State)
    ensures var c := FetchChallenge(w, s, false); c.spent ==> BudgetUsed(c.s.log, |s.log|)
  {
    hide RequestJson, CheckinRun;
    var g := RequestJson(w, s, GET, TOKEN_PATH, NoBody, None, Default);
    JsonExtends(w, s, GET, TOKEN_PATH, NoBody);
    var legs := CheckinAdds(w, g.s, Budgeted);
    var c := CheckinRun(w, g.s, Budgeted);
    assert c.s.log[|g.s.log|] == CheckinBegan(Budgeted);
    JsonExtends(w, c.s, GET, TOKEN_PATH, NoBody);
  }

  lemma {:induction false} AcquireUses(w: Env, s: State, passphrase: string, scope: string, now: int)
    ensures var a := AcquireToken(w, s, passphrase, scope, now, false);
            s.log <= a.s.log && (a.spent ==> BudgetUsed(a.s.log, |s.log|))
  {
    hide FetchChallenge, RequestJson, DriftEvident, CacheExpiry, LoginClaims, BudgetUsed;
    AcquireAnswered(w, s, passphrase, scope, now, false);
    var c := FetchChallenge(w, s, false);
    FetchUses(w, s);
    var claims := LoginClaims(w, c.body, passphrase, scope, now);
    var a := AcquireToken(w, s, passphrase, scope, now, false);
    if c.rc == Ok && claims.Some? {
      JsonExtends(w, c.s, POST, TOKEN_PATH, Object(map["auth" := Signed(claims.value)]));
    }
    UsedStays(c.s.log, a.s.log, |s.log|);
  }

  lemma UsedStays(a: History, b: History, start: nat)
    requires a <= b
    ensures BudgetUsed(a, start) ==> BudgetUsed(b, start)
  {
    if BudgetUsed(a, start) {
      var m :| start <= m < |a| && a[m] == CheckinBegan(Budgeted);
      assert b[m] == CheckinBegan(Budgeted);
    }
  }

  /**
   * With automatic check-ins on, an acquisition ends with a login refused on clock drift only if it
   * has used its check-in.
   */
  lemma {:induction false} DriftIsRecovered(w: Env, s: State, passphrase: string, scope: string, now: int)
    requires !w.noAutoCheckin && !s.inCheckin
    ensures var log := PassphraseToken(w, s, passphrase, scope, now).s.log;
            RefusedOnDrift(log) ==> BudgetUsed(log, |s.log|)
  {
    hide ProactiveCheckin, AcquireToken, CheckinRun, RefusedOnDrift, BudgetUsed, Steps;
    var p := PassphraseToken(w, s, passphrase, scope, now);
    var s1 := ProactiveCheckin(w, s);
    ProactivePlain(w, s, s1.ticks);
    StepsTicks(w, s, s1, s1.ticks);
    var a := AcquireToken(w, s1, passphrase, scope, now, false);
    AcquireUses(w, s1, passphrase, scope, now);
    AcquireRefused(w, s1, passphrase, scope, now, false);
    var c := CheckinRun(w, a.s, Budgeted);
    var legs := CheckinAdds(w, a.s, Budgeted);
    var b := AcquireToken(w, Tick(c.s), passphrase, scope, w.clock(c.s.ticks), true);
    AcquireAnswered(w, Tick(c.s), passphrase, scope, w.clock(c.s.ticks), true);
    assert p.s.log == a.s.log || p.s.log == c.s.log || p.s.log == b.s.log;
    if p.s.log == a.s.log {
      UsedFrom(a.s.log, |s1.log|, |s.log|);
    } else {
      UsedHere(p.s.log, |a.s.log|, |s.log|);
    }
  }

  lemma UsedFrom(log: History, start: nat, earlier: nat)
    requires earlier <= start
    ensures BudgetUsed(log, start) ==> BudgetUsed(log, earlier)
  {
  }

  lemma UsedHere(log: History, m: nat, start: nat)
    requires start <= m < |log| && log[m] == CheckinBegan(Budgeted)
    ensures BudgetUsed(log, start)
  {
  }

  // ------------------------------------------------- chokepoint and calls

  lemma {:induction false} EnsureLogins(w: Env, s: State, scope: string, from: nat)
    requires from <= s.ticks
    ensures Steps(w, s, EnsureToken(w, s, scope).s, from)
  {
    hide Steps, MobileToken, PassphraseToken;
    var s1, t := Tick(s), EnsureToken(w, s, scope);
    Unchanged(w, s, from);
    ButError(w, s, s1, t.s, from);
    if Mobile(s) {
      MobilePlain(w, s1, scope, from);
      StepsThen(w, s, s1, MobileToken(w, s1, scope).s, from);
    } else if HasPassphrase(s) {
      var passphrase := s.auth.value.passphrase.value;
      PassphraseLogins(w, s1, passphrase, scope, s.ticks, from);
      StepsThen(w, s, s1, PassphraseToken(w, s1, passphrase, scope, w.clock(s.ticks)).s, from);
    }
  }

  lemma {:induction false} RetryLogins(w: Env, s: State, req: Request, scope: string, from: nat)
    requires from <= s.ticks
    ensures Steps(w, s, RetryRejected(w, s, req, scope).s, from)
  {
    hide Steps, EnsureToken;
    var a := RetryRejected(w, s, req, scope);
    var s0 := Invalidate(s, Some(scope));
    Idle(w, s, s0, from);
    var t := EnsureToken(w, s0, scope);
    EnsureLogins(w, s0, scope, from);
    StepsThen(w, s, s0, t.s, from);
    if t.rc == Ok {
      var again := req.(bearer := Some(t.token), renew := true);
      var s1 := Dispatch(w, t.s, again, Some(scope));
      SentPlain(w, t.s, s1, again, Some(scope), from);
      After(w, s, t.s, s1, a.s, from);
    }
  }

  lemma {:induction false} RequestLogins(w: Env, s: State, verb: Method, path: string, body: Body,
        scope: Option<string>, from: nat)
    requires from <= s.ticks && (scope.Some? || verb != POST || path != TOKEN_PATH)
    ensures Steps(w, s, RequestRaw(w, s, verb, path, body, scope, Default).s, from)
  {
    hide Steps, EnsureToken, DispatchRecovering, RetryRejected, MapHttpStatus, IsLogin;
    var g := RequestRaw(w, s, verb, path, body, scope, Default);
    if scope.None? {
      RawPlain(w, s, verb, path, body, Default, from);
    } else {
      var t := EnsureToken(w, s, scope.value);
      EnsureLogins(w, s, scope.value, from);
      if t.rc == Ok {
        var req := Request(verb, path, body, Some(t.token), Default, false);
        ScopedIsNoLogin(w, t.s, req, scope.value);
        RecoveringPlain(w, t.s, req, scope, from);
        var a := DispatchRecovering(w, t.s, req, scope);
        After(w, s, t.s, a.s, g.s, from);
        StepsTicks(w, s, a.s, from);
        RetryLogins(w, a.s, req, scope.value, from);
        After(w, s, a.s, RetryRejected(w, a.s, req, scope.value).s, g.s, from);
      }
    }
  }

  lemma ScopedIsNoLogin(w: Env, s: State, req: Request, scope: string)
    ensures !IsLogin(Sent(req, Some(scope), Outgoing(w, s, req)))
  {
  }

  /** A client's own unscoped POST of the token endpoint, which the library would send as it stands. */
  predicate PostsLogin(c: Call) {
    c.DoRequest? && c.under.None? && c.verb == POST && c.path == TOKEN_PATH
  }

  lemma {:induction false} BindingLogins(w: Env, s: State, verb: Method, path: string, body: Body,
        scope: Option<string>, s': State, from: nat)
    requires from <= s.ticks && (scope.Some? || verb != POST || path != TOKEN_PATH)
    requires var g := RequestRaw(w, ClearError(s), verb, path, body, scope, Default).s;
             s'.log == g.log && s'.ticks == g.ticks && (Passphrase(s').None? || Passphrase(s') == Passphrase(g))
    ensures Steps(w, s, s', from)
  {
    hide Steps, RequestRaw, IsLogin;
    var s1 := ClearError(s);
    Unchanged(w, s, from);
    RequestLogins(w, s1, verb, path, body, scope, from);
    var g := RequestRaw(w, s1, verb, path, body, scope, Default).s;
    StepsThen(w, s, s1, g, from);
    Idle(w, g, s', from);
    StepsThen(w, s, g, s', from);
  }

  lemma {:induction false} UnscopedCallLogins(w: Env, x: World, c: Call)
    requires Unauthenticated(c)
    ensures Steps(w, x.s, Do(w, x, c).s, x.s.ticks)
  {
    hide Steps, CheckinRun, ExtRequest, ExtToken, NotifySession, EventNew, EventCheck, NotifySend, IsLogin;
    var s1, from := ClearError(x.s), x.s.ticks;
    Unchanged(w, x.s, from);
    match c
    case DoCheckin =>
      CheckinPlain(w, s1, Explicit, from);
      StepsThen(w, x.s, s1, CheckinRun(w, s1, Explicit).s, from);
    case DoExtRequest(epk, scope, ctxStr, note) => ExtPlain(w, x.s, epk, scope, ctxStr, note, "", from);
    case DoExtToken(reply) => ExtPlain(w, x.s, "", "", None, None, reply, from);
    case DoSession(url) => BrokerPlain(w, x.s, url, "", "", "", from);
    case DoEventNew(url, authreq, epk) => BrokerPlain(w, x.s, url, authreq, epk, "", from);
    case DoEventCheck(url, eventid) => BrokerPlain(w, x.s, url, "", "", eventid, from);
    case DoBroker(verb, url, subpath, body) =>
      NotifyPlain(w, s1, verb, url, subpath, body, from);
      StepsThen(w, x.s, s1, NotifySend(w, s1, verb, url, subpath, body).s, from);
  }

  lemma {:induction false} SessionCallLogins(w: Env, x: World, c: Call)
    requires Handleless(c) && !Unauthenticated(c) && !c.DoLogin? && !PostsLogin(c)
    ensures Steps(w, x.s, Do(w, x, c).s, x.s.ticks)
  {
    hide Steps, RequestRaw, CacheSeed, IsLogin;
    var s', from := Do(w, x, c).s, x.s.ticks;
    match c
    case DoLoginMobile => Idle(w, x.s, s', from);
    case DoLogout => Idle(w, x.s, s', from);
    case DoRequest(verb, path, body, scope) => BindingLogins(w, x.s, verb, path, body, scope, s', from);
    case DoVerify(body, scope) =>
      BindingLogins(w, x.s, POST, "/api/crypto/exdsa/verify", body, Some(scope), s', from);
    case DoRestart(path, scope) => BindingLogins(w, x.s, GET, path, NoBody, Some(scope), s', from);
    case DoWipeout =>
      var body := Object(map["wipeout" := Other]);
      BindingLogins(w, x.s, POST, "/api/system/config", body, Some("system:config"), s', from);
    case DoSeed(scope, token) => SeedPlain(w, x.s, scope, token, BySeed, from);
  }

  lemma {:induction false} HandleCallLogins(w: Env, x: World, c: Call)
    requires !Handleless(c)
    ensures Steps(w, x.s, Do(w, x, c).s, x.s.ticks)
  {
    hide Steps, ConfirmBegin, ConfirmPoll, WaitFrom;
    var from := x.s.ticks;
    Unchanged(w, x.s, from);
    match c
    case DoBegin(url, scope, ctxStr, note) => BeginPlain(w, x.s, url, scope, ctxStr, note, from);
    case DoPoll(i) =>
      if i < |x.handles| {
        PollPlain(w, x.s, x.handles[i], from);
      }
    case DoWait(i, timeout) =>
      if i < |x.handles| && timeout > 0 {
        WaitPlain(w, x.s, x.handles[i], timeout, 0, from);
      }
  }

  lemma {:induction false} CallLogins(w: Env, x: World, c: Call)
    requires !c.DoLogin? && !PostsLogin(c)
    ensures Steps(w, x.s, Do(w, x, c).s, x.s.ticks)
  {
    hide Steps, Do;
    if !Handleless(c) {
      HandleCallLogins(w, x, c);
    } else if Unauthenticated(c) {
      UnscopedCallLogins(w, x, c);
    } else {
      SessionCallLogins(w, x, c);
    }
  }

  // ----------------------------------------------------------- whole runs

  /** The passphrase a client has logged in with last, unless it has logged out or gone mobile since. */
  function LoggedInWith(calls: seq<Call>): Option<string> {
    if |calls| == 0 then None
    else
      match calls[|calls| - 1]
      case DoLogin(passphrase) => Some(passphrase)
      case DoLoginMobile => None
      case DoLogout => None
      case _ => LoggedInWith(calls[..|calls| - 1])
  }

  /** A passphrase held is the one of the last login. */
  lemma {:induction false} HeldPassphrase(w: Env, calls: seq<Call>)
    requires forall c :: c in calls ==> !PostsLogin(c)
    ensures var s := Run(w, Start(), calls).s;
            Passphrase(s).None? || Passphrase(s) == LoggedInWith(calls)
  {
    hide Steps;
    if |calls| > 0 {
      var before, c := calls[..|calls| - 1], calls[|calls| - 1];
      HeldPassphrase(w, before);
      var x := Run(w, Start(), before);
      if !c.DoLogin? {
        CallLogins(w, x, c);
        StepsTicks(w, x.s, Do(w, x, c).s, x.s.ticks);
      }
    }
  }

  lemma LoginAddsNoLogin(w: Env, s: State, passphrase: string)
    ensures var s' := Login(w, s, passphrase); |s'.log| == |s.log| + 1 && s.log <= s'.log && !IsLogin(Last(s'.log))
  {
  }

  /**
   * Every login of every run was sent by one of its calls, the one numbered `n`, under the passphrase
   * of the last login before that call, dated by a reading of the clock made in it, and backed by the
   * challenge reply before it. After a logout there is none until the next login.
   */
  lemma {:induction false} EveryLogin(w: Env, calls: seq<Call>, i: nat) returns (n: nat, t: nat)
    requires forall c :: c in calls ==> !PostsLogin(c)
    requires var log := Run(w, Start(), calls).s.log; i < |log| && IsLogin(log[i])
    ensures n < |calls|
    ensures var before, after := Run(w, Start(), calls[..n]).s, Run(w, Start(), calls[..n + 1]).s;
            |before.log| <= i < |after.log| && before.ticks <= t < after.ticks
    ensures var log, passphrase := Run(w, Start(), calls).s.log, LoggedInWith(calls[..n]);
            passphrase.Some? && Backed(w, log, i, passphrase.value, w.clock(t))
  {
    hide Steps, Backed, IsLogin, Do;
    var before, c := calls[..|calls| - 1], calls[|calls| - 1];
    var x := Run(w, Start(), before);
    var s' := Run(w, Start(), calls).s;
    assert s' == Do(w, x, c).s;
    CallGrows(w, x, c);
    if i < |x.s.log| {
      n, t := EveryLogin(w, before, i);
      assert before[..n] == calls[..n] && before[..n + 1] == calls[..n + 1];
      BackedStays(w, x.s.log, s'.log, i, LoggedInWith(calls[..n]).value, w.clock(t));
    } else {
      n := |calls| - 1;
      assert calls[..n] == before && calls[..n + 1] == calls;
      CallLogins(w, x, c);
      HeldPassphrase(w, before);
      AtReading(w, x.s, s', i, x.s.ticks);
      t :| x.s.ticks <= t < s'.ticks && Backed(w, s'.log, i, LoggedInWith(before).value, w.clock(t));
    }
  }

  lemma {:induction false} CallGrows(w: Env, x: World, c: Call)
    requires !PostsLogin(c)
    ensures var s' := Do(w, x, c).s;
            x.s.log <= s'.log && (c.DoLogin? ==> forall i :: |x.s.log| <= i < |s'.log| ==> !IsLogin(s'.log[i]))
  {
    hide Steps, IsLogin;
    if c.DoLogin? {
      LoginAddsNoLogin(w, x.s, c.passphrase);
    } else {
      CallLogins(w, x, c);
      StepsTicks(w, x.s, Do(w, x, c).s, x.s.ticks);
    }
  }

  /**
   * Every check-in of every run has its cause: the context's first use, the client's own wish, or
   * right before it a send that met an expired certificate, an endpoint that refused with 403, a
   * login or a push refused with 401 while the clocks were measurably apart.
   */
  lemma {:induction false} EveryCheckin(w: Env, calls: seq<Call>, i: nat)
    requires forall c :: c in calls ==> !PostsLogin(c)
    requires var log := Run(w, Start(), calls).s.log; i < |log| && log[i].CheckinBegan?
    ensures var s := Run(w, Start(), calls).s; Caused(w, s.log[..i], s.log[i].why, s.ticks)
  {
    hide Steps, Caused, Do, Login;
    var before, c := calls[..|calls| - 1], calls[|calls| - 1];
    var x := Run(w, Start(), before);
    var s' := Run(w, Start(), calls).s;
    assert s' == Do(w, x, c).s;
    CallTicks(w, x, c);
    if i < |x.s.log| {
      EveryCheckin(w, before, i);
      assert x.s.log[..i] == s'.log[..i];
      CausedLater(w, s'.log[..i], s'.log[i].why, x.s.ticks, s'.ticks);
    } else {
      CallLogins(w, x, c);
      FitsAt(w, x.s, s', i);
    }
  }

  lemma CallTicks(w: Env, x: World, c: Call)
    requires !PostsLogin(c)
    ensures var s' := Do(w, x, c).s;
            && x.s.log <= s'.log && x.s.ticks <= s'.ticks
            && (c.DoLogin? ==> forall i :: |x.s.log| <= i < |s'.log| ==> !s'.log[i].CheckinBegan?)
  {
    hide Steps;
    if !c.DoLogin? {
      CallLogins(w, x, c);
      StepsTicks(w, x.s, Do(w, x, c).s, x.s.ticks);
    }
  }

  lemma FitsAt(w: Env, s: State, s': State, i: nat)
    requires Steps(w, s, s', s.ticks) && |s.log| <= i < |s'.log| && s'.log[i].CheckinBegan?
    ensures Caused(w, s'.log[..i], s'.log[i].why, s'.ticks)
  {
    hide Caused, IsLogin, Backed;
    assert Fits(w, s'.log, i, Passphrase(s), s.ticks, s'.ticks);
  }
}
