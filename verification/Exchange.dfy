/**
 Unauthenticated exchanges: how much each may send, what it leaves alone, and that a success is the
 last thing it put in the history.
 */
module Exchange {
  import opened Options
  import opened Wire
  import opened Engine
  import opened Ledger

  function Fired(s: State): nat {
    if s.checkinDone then 1 else 0
  }

  /**
   * From `s` to `s'` only unauthenticated traffic: at most `sends` dispatches and `budgeted`
   * check-ins, plus one three-send session-start check-in if its latch was set on the way; session
   * untouched, latches not undone.
   */
  ghost predicate Quietly(s: State, s': State, sends: nat, budgeted: nat) {
    && Anonymously(s.log, s'.log)
    && Usage(s'.log).sends + 3 * Fired(s) <= Usage(s.log).sends + sends + 3 * Fired(s')
    && Usage(s'.log).proactive + Fired(s) <= Usage(s.log).proactive + Fired(s')
    && Usage(s'.log).budgeted <= Usage(s.log).budgeted + budgeted
    && (s.certRefreshed ==> s'.certRefreshed)
    && (s.checkinDone ==> s'.checkinDone)
    && s.ticks <= s'.ticks
    && s'.auth == s.auth
    && s'.inCheckin == s.inCheckin
  }

  lemma QuietThen(s1: State, s2: State, s3: State, n: nat, g: nat, n': nat, g': nat)
    requires Quietly(s1, s2, n, g) && Quietly(s2, s3, n', g')
    ensures Quietly(s1, s3, n + n', g + g')
  {
    AnonymousTrans(s1.log, s2.log, s3.log);
  }

  lemma QuietLonger(s: State, s': State, n: nat, g: nat)
    requires Quietly(s, s', n, g)
    ensures s.log <= s'.log
  {
  }

  lemma DispatchQuiet(w: Env, s: State, req: Request)
    requires req.bearer.None?
    ensures Quietly(s, Dispatch(w, s, req, None), 1, 0)
  {
    Append(s.log, Sent(req, None, Outgoing(w, s, req)));
    AnonymousStep(s.log, s.log, Sent(req, None, Outgoing(w, s, req)));
  }

  /** An unauthenticated request recovers from an expired certificate at most once. */
  function RawCost(w: Env, inCheckin: bool, tls: Tls): nat {
    if inCheckin || w.noAutoCheckin || tls != Default then 1 else 5
  }

  lemma RecoveringQuiet(w: Env, s: State, req: Request)
    requires req.bearer.None?
    ensures Quietly(s, DispatchRecovering(w, s, req, None).s, RawCost(w, s.inCheckin, req.tls), 0)
    decreases if s.inCheckin then 0 else 2, 0
  {
    var s1 := Dispatch(w, s, req, None);
    DispatchQuiet(w, s, req);
    if RawCost(w, s.inCheckin, req.tls) == 5 {
      var c := CheckinRun(w, s1, CertRecovery).s;
      CheckinQuiet(w, s1, CertRecovery);
      QuietThen(s, s1, c, 1, 0, 3, 0);
      var again := req.(renew := true);
      var s2 := Dispatch(w, c, again, None);
      DispatchQuiet(w, c, again);
      QuietThen(s, c, s2, 4, 0, 1, 0);
      RecoveringStates(w, s, req, None, s1, c, s2);
    }
  }

  /** Where a recovering dispatch can end, up to the error record and the refresh latch. */
  lemma RecoveringStates(w: Env, s: State, req: Request, scope: Option<string>, s1: State, c: State, s2: State)
    requires s1 == Dispatch(w, s, req, scope)
    requires c == CheckinRun(w, s1, CertRecovery).s
    requires s2 == Dispatch(w, c, req.(renew := true), scope)
    ensures var t := DispatchRecovering(w, s, req, scope).s;
            SameButError(s1, t) || SameButError(c, t) || SameButError(s2, t)
  {
  }

  predicate SameButError(base: State, t: State) {
    t == base.(err := t.err, certRefreshed := t.certRefreshed) && (base.certRefreshed ==> t.certRefreshed)
  }

  lemma RawQuiet(w: Env, s: State, verb: Method, path: string, body: Body, tls: Tls)
    ensures Quietly(s, RequestRaw(w, s, verb, path, body, None, tls).s, RawCost(w, s.inCheckin, tls), 0)
    decreases if s.inCheckin then 0 else 2, 1
  {
    RecoveringQuiet(w, s, Request(verb, path, body, None, tls, false));
  }

  lemma JsonQuiet(w: Env, s: State, verb: Method, path: string, body: Body, tls: Tls)
    ensures Quietly(s, RequestJson(w, s, verb, path, body, None, tls).s, RawCost(w, s.inCheckin, tls), 0)
    decreases if s.inCheckin then 0 else 2, 2
  {
    RawQuiet(w, s, verb, path, body, tls);
  }

  /** A check-in is at most three sends, and nothing inside it starts another. */
  lemma {:induction false} CheckinLegs(w: Env, s: State, why: Reason)
    requires !s.inCheckin
    ensures Quietly(Note(s, CheckinBegan(why)), CheckinRun(w, s, why).s, 3, 0)
    decreases 1, 0
  {
    var s0 := Note(s.(inCheckin := true), CheckinBegan(why));
    var leg1 := RequestRaw(w, s0, GET, CHECKIN_PATH, NoBody, None, Relax);
    RawQuiet(w, s0, GET, CHECKIN_PATH, NoBody, Relax);
    if leg1.rc == Ok {
      var leg2 := RequestRaw(w, leg1.s, POST, w.checkinUrl, leg1.body, None, Verify);
      RawQuiet(w, leg1.s, POST, w.checkinUrl, leg1.body, Verify);
      QuietThen(s0, leg1.s, leg2.s, 1, 0, 1, 0);
      if leg2.rc == Ok {
        JsonQuiet(w, leg2.s, POST, CHECKIN_PATH, leg2.body, Relax);
        var leg3 := RequestJson(w, leg2.s, POST, CHECKIN_PATH, leg2.body, None, Relax);
        QuietThen(s0, leg2.s, leg3.s, 2, 0, 1, 0);
      }
    }
  }

  lemma {:induction false} CheckinQuiet(w: Env, s: State, why: Reason)
    requires !s.inCheckin && !why.Proactive?
    ensures Quietly(s, CheckinRun(w, s, why).s, 3, if why.Budgeted? then 1 else 0)
    decreases 1, 1
  {
    var s0 := Note(s, CheckinBegan(why));
    CheckinLegs(w, s, why);
    Append(s.log, CheckinBegan(why));
    AnonymousStep(s.log, s.log, CheckinBegan(why));
    QuietThen(s, s0, CheckinRun(w, s, why).s, 0, if why.Budgeted? then 1 else 0, 3, 0);
  }

  /** A reply a leg can hand on: 2xx with a body. */
  predicate Usable(o: Outcome) {
    o.Success() && !o.body.NoBody?
  }

  /**
   * The dispatches of a check-in that got these outcomes: unretried, the cloud leg always fully
   * verified and carrying the device's challenge verbatim, the last leg carrying the cloud's answer.
   */
  function Legs(w: Env, outs: seq<Outcome>): History
    requires 1 <= |outs| <= 3
    requires |outs| > 1 ==> outs[0].Reply?
    requires |outs| > 2 ==> outs[1].Reply?
  {
    [Sent(Request(GET, CHECKIN_PATH, NoBody, None, Relax, false), None, outs[0])]
    + (if |outs| > 1 then [Sent(Request(POST, w.checkinUrl, outs[0].body, None, Verify, false), None, outs[1])] else [])
    + (if |outs| > 2 then [Sent(Request(POST, CHECKIN_PATH, outs[1].body, None, Relax, false), None, outs[2])] else [])
  }

  /** All three legs were sent and answered, the last with an object. */
  predicate Completed(outs: seq<Outcome>) {
    |outs| == 3 && Usable(outs[0]) && Usable(outs[1]) && outs[2].Success() && outs[2].body.Object?
  }

  /** A whole certificate check-in that completed, and nothing else. */
  ghost predicate CheckedIn(w: Env, events: History) {
    exists outs: seq<Outcome> :: Completed(outs) && events == [CheckinBegan(CertRecovery)] + Legs(w, outs)
  }

  /** The check-in's shape: one send per leg, each leg only after the one before was usable. */
  lemma {:induction false} CheckinShape(w: Env, s: State, why: Reason) returns (outs: seq<Outcome>)
    ensures 1 <= |outs| <= 3
    ensures |outs| > 1 <==> Usable(outs[0])
    ensures |outs| > 2 <==> |outs| > 1 && Usable(outs[1])
    ensures CheckinRun(w, s, why).s.log == s.log + [CheckinBegan(why)] + Legs(w, outs)
    ensures CheckinRun(w, s, why).rc == Ok <==> Completed(outs)
  {
    hide RequestRaw;
    var g := CheckinRun(w, s, why);
    var s0 := Note(s.(inCheckin := true), CheckinBegan(why));
    var req1 := Request(GET, CHECKIN_PATH, NoBody, None, Relax, false);
    InsideShape(w, s0, req1);
    outs := [Outgoing(w, s0, req1)];
    var leg1 := RequestRaw(w, s0, GET, CHECKIN_PATH, NoBody, None, Relax);
    if leg1.rc == Ok {
      var req2 := Request(POST, w.checkinUrl, leg1.body, None, Verify, false);
      InsideShape(w, leg1.s, req2);
      outs := outs + [Outgoing(w, leg1.s, req2)];
      var leg2 := RequestRaw(w, leg1.s, POST, w.checkinUrl, leg1.body, None, Verify);
      if leg2.rc == Ok {
        var req3 := Request(POST, CHECKIN_PATH, leg2.body, None, Relax, false);
        InsideShape(w, leg2.s, req3);
        outs := outs + [Outgoing(w, leg2.s, req3)];
        var leg3 := RequestJson(w, leg2.s, POST, CHECKIN_PATH, leg2.body, None, Relax);
        assert g.s.log == leg3.s.log == leg2.s.log + [Sent(req3, None, outs[2])];
      }
    }
  }

  /** Inside a check-in a request is one dispatch, whatever happens. */
  lemma InsideShape(w: Env, s: State, req: Request)
    requires s.inCheckin && req.bearer.None? && !req.renew
    ensures var o := Outgoing(w, s, req);
            var g := RequestRaw(w, s, req.verb, req.path, req.body, None, req.tls);
            && g.s.log == s.log + [Sent(req, None, o)]
            && (g.rc == Ok <==> o.Success() && !o.body.NoBody?)
            && (g.rc == Ok ==> g.body == o.body)
  {
  }

  /** The result that stands for an unsuccessful HTTP status, and for which ones it stands. */
  predicate MeansStatus(rc: Rc, status: int) {
    && (rc == AuthFailed <==> status == 401)
    && (rc == ScopeDenied <==> status == 403)
    && (rc == NotFound <==> status == 404)
    && (rc == Device <==> status >= 400 && status != 401 && status != 403 && status != 404)
    && (rc == Protocol <==> status < 400)
  }

  /** A successful request's reply is the newest event. */
  predicate EndsInReply(log: History, verb: Method, path: string, body: Body, reply: Body) {
    && |log| > 0 && Last(log).Sent? && Last(log).scope.None?
    && Last(log).req.verb == verb && Last(log).req.path == path && Last(log).req.body == body
    && Last(log).out.Success() && Last(log).out.body == reply
  }

  lemma RawReply(w: Env, s: State, verb: Method, path: string, body: Body, tls: Tls)
    ensures var g := RequestRaw(w, s, verb, path, body, None, tls);
            g.rc == Ok ==> EndsInReply(g.s.log, verb, path, body, g.body)
  {
    hide CheckinRun;
  }

  lemma JsonReply(w: Env, s: State, verb: Method, path: string, body: Body, tls: Tls)
    ensures var g := RequestJson(w, s, verb, path, body, None, tls);
            g.rc == Ok ==> g.body.Object? && EndsInReply(g.s.log, verb, path, body, g.body)
  {
    RawReply(w, s, verb, path, body, tls);
  }

  /** An unscoped request is sent at least once. */
  lemma {:induction false} JsonGrows(w: Env, s: State, verb: Method, path: string, body: Body, tls: Tls)
    ensures |s.log| < |RequestJson(w, s, verb, path, body, None, tls).s.log|
  {
    hide DispatchRecovering;
    RecoveringGrows(w, s, Request(verb, path, body, None, tls, false));
  }

  lemma {:induction false} RecoveringGrows(w: Env, s: State, req: Request)
    ensures |s.log| < |DispatchRecovering(w, s, req, None).s.log|
  {
    hide CheckinRun;
    var s1 := Dispatch(w, s, req, None);
    var outs := CheckinShape(w, s1, CertRecovery);
    assert |s1.log| <= |CheckinRun(w, s1, CertRecovery).s.log|;
  }

  /** The session-start check-in happens at most once per context. */
  lemma {:induction false} ProactiveQuiet(w: Env, s: State)
    ensures Quietly(s, ProactiveCheckin(w, s), 0, 0)
  {
    if w.checkinOnLogin && !s.checkinDone && !s.inCheckin {
      var s1 := s.(checkinDone := true);
      CheckinLegs(w, s1, Proactive);
      Append(s.log, CheckinBegan(Proactive));
      AnonymousStep(s.log, s.log, CheckinBegan(Proactive));
      AnonymousTrans(s.log, s.log + [CheckinBegan(Proactive)], ProactiveCheckin(w, s).log);
    }
  }

  // ---------------------------------------------------- broker and ext legs

  lemma NotifyQuiet(w: Env, s: State, verb: Method, url: Option<string>, subpath: string, body: Body)
    ensures Quietly(s, NotifySend(w, s, verb, url, subpath, body).s, 1, 0)
  {
    if |BrokerBase(url)| > 0 {
      DispatchQuiet(w, s, Request(verb, BrokerBase(url) + subpath, body, None, Verify, false));
    }
  }

  lemma SessionQuiet(w: Env, s: State, url: Option<string>)
    ensures Quietly(s, NotifySession(w, s, url).s, 1, 0)
  {
    NotifyQuiet(w, ClearError(s), GET, url, "/session", NoBody);
  }

  lemma EventNewQuiet(w: Env, s: State, url: Option<string>, authreq: string, epk: string)
    ensures Quietly(s, EventNew(w, s, url, authreq, epk).s, 1, 0)
  {
    NotifyQuiet(w, ClearError(s), POST, url, "/event/new", Object(map["authreq" := Str(authreq), "epk" := Str(epk)]));
  }

  function ExtCost(w: Env): nat {
    if w.noAutoCheckin then 1 else 13
  }

  lemma ExtPostQuiet(w: Env, s: State, path: string, body: Body)
    ensures Quietly(s, ExtLoginPost(w, s, path, body).s, ExtCost(w), 0)
    ensures var g := ExtLoginPost(w, s, path, body);
            g.rc == Ok ==> g.body.Object? && EndsInReply(g.s.log, POST, path, body, g.body)
  {
    var g := RequestJson(w, s, POST, path, body, None, Default);
    JsonQuiet(w, s, POST, path, body, Default);
    JsonReply(w, s, POST, path, body, Default);
    if g.rc != Ok && g.s.err.status == 403 && !w.noAutoCheckin && !g.s.inCheckin {
      var c := CheckinRun(w, g.s, ExtRecovery);
      CheckinQuiet(w, g.s, ExtRecovery);
      QuietThen(s, g.s, c.s, 5, 0, 3, 0);
      if c.rc == Ok {
        JsonQuiet(w, c.s, POST, path, body, Default);
        JsonReply(w, c.s, POST, path, body, Default);
        QuietThen(s, c.s, RequestJson(w, c.s, POST, path, body, None, Default).s, 8, 0, 5, 0);
      }
    }
  }

  lemma ExtRequestQuiet(w: Env, s: State, epk: string, scope: string, ctxStr: Option<string>, note: Option<string>)
    ensures Quietly(s, ExtRequest(w, s, epk, scope, ctxStr, note).s, ExtCost(w), 0)
  {
    var fields := ExtFields(epk, scope, ctxStr, note);
    var g := ExtLoginPost(w, ClearError(s), EXT_REQUEST_PATH, Object(fields));
    ExtPostQuiet(w, ClearError(s), EXT_REQUEST_PATH, Object(fields));
    QuietlyWithError(s, ClearError(s), g.s, ExtCost(w));
    var r := ExtRequest(w, s, epk, scope, ctxStr, note);
    assert r.s == SetError(s, 0, false) || r.s == g.s || r.s == SetError(g.s, 200, false);
  }

  /** The error record is not part of what a quiet exchange may not touch. */
  lemma QuietlyWithError(s: State, s1: State, s': State, n: nat)
    requires s1 == ClearError(s) && Quietly(s1, s', n, 0)
    ensures Quietly(s, s', n, 0) && Quietly(s, SetError(s, 0, false), n, 0)
    ensures forall st, x :: Quietly(s, SetError(s', st, x), n, 0)
  {
  }

  lemma ExtTokenQuiet(w: Env, s: State, reply: string)
    ensures Quietly(s, ExtToken(w, s, reply).s, ExtCost(w), 0)
    ensures var t := ExtToken(w, s, reply); t.rc == Ok ==> |t.s.log| > 0 && IsRedemption(Last(t.s.log), reply, t.token)
  {
    var body := Object(map["authreply" := Str(reply)]);
    var g := ExtLoginPost(w, ClearError(s), EXT_TOKEN_PATH, body);
    ExtPostQuiet(w, ClearError(s), EXT_TOKEN_PATH, body);
    QuietlyWithError(s, ClearError(s), g.s, ExtCost(w));
    var t := ExtToken(w, s, reply);
    assert t.s == SetError(s, 0, false) || t.s == g.s || t.s == SetError(g.s, 200, false)
        || t.s == SetError(g.s, g.s.err.status, false);
  }

  lemma FireQuiet(w: Env, s: State, url: Option<string>, scope: string, ctxStr: Option<string>, note: Option<string>)
    ensures Quietly(s, FirePush(w, s, url, scope, ctxStr, note).s, ExtCost(w) + 2, 0)
  {
    hide NotifySession, ExtRequest, EventNew, ExtCost;
    var session := NotifySession(w, s, url);
    SessionQuiet(w, s, url);
    if session.rc == Ok {
      var r := ExtRequest(w, session.s, session.token, scope, ctxStr, note);
      ExtRequestQuiet(w, session.s, session.token, scope, ctxStr, note);
      QuietThen(s, session.s, r.s, 1, 0, ExtCost(w), 0);
      if r.rc == Ok {
        var e := EventNew(w, r.s, url, r.authreq, r.epk);
        EventNewQuiet(w, r.s, url, r.authreq, r.epk);
        QuietThen(s, r.s, e.s, ExtCost(w) + 1, 0, 1, 0);
      }
    }
  }

  function PushCost(w: Env): nat {
    if w.noAutoCheckin then 3 else 33
  }

  lemma PushQuiet(w: Env, s: State, url: Option<string>, scope: string, ctxStr: Option<string>, note: Option<string>)
    ensures Quietly(s, PushRecovering(w, s, url, scope, ctxStr, note).s, PushCost(w), 0)
  {
    hide FirePush, CheckinRun, Claim, Anonymously, Usage;
    var p := FirePush(w, s, url, scope, ctxStr, note);
    FireQuiet(w, s, url, scope, ctxStr, note);
    var s1 := Tick(p.s);
    assert Quietly(s, s1, ExtCost(w) + 2, 0);
    if !w.noAutoCheckin && !p.s.inCheckin {
      var c := CheckinRun(w, s1, Reason.BrokerDrift);
      CheckinQuiet(w, s1, Reason.BrokerDrift);
      QuietThen(s, s1, c.s, 15, 0, 3, 0);
      var again := FirePush(w, c.s, url, scope, ctxStr, note);
      FireQuiet(w, c.s, url, scope, ctxStr, note);
      QuietThen(s, c.s, again.s, 18, 0, 15, 0);
      var r := PushRecovering(w, s, url, scope, ctxStr, note);
      assert r.s == p.s || r.s == s1 || r.s == c.s || r.s == again.s;
    }
  }
}
