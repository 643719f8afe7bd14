/**
 What a push confirmation puts on the wire, from the broker's session to the handle: whose key goes
 where, what the device is asked, and what is refused before anything is sent.
 */
module Push {
  import opened Options
  import opened Wire
  import opened Engine
  import opened Ledger
  import opened Exchange
  import opened Confirmation
  import opened Causes
  import Base64

  // ------------------------------------------------------------ the story

  /** One exchange with the broker, answered 2xx with an object. */
  predicate Brokered(e: Event, verb: Method, url: Option<string>, subpath: string, body: Body) {
    && var base := if url.Some? then url.value else "https://api.encedo.com/notify";
    && e.Sent? && e.scope.None? && e.req == Request(verb, base + subpath, body, None, Verify, false)
    && e.out.Reply? && 200 <= e.out.status < 300 && e.out.body.Object?
  }

  /** The device's request: the broker's key and the scope, and context and note only where given. */
  predicate Asks(body: Body, epk: string, scope: string, ctxStr: Option<string>, note: Option<string>) {
    && body.Object?
    && body.Text("epk") == Some(epk) && body.Text("scope") == Some(scope)
    && body.Text("ctx") == ctxStr && body.Text("note") == note
    && body.fields.Keys == {"epk", "scope"} + (if ctxStr.Some? then {"ctx"} else {})
                           + (if note.Some? then {"note"} else {})
  }

  /** And its answer: the signed request and the device's own key. */
  predicate DeviceAnswered(e: Event, epk: string, scope: string, ctxStr: Option<string>, note: Option<string>,
        authreq: string, deviceKey: string) {
    && e.Sent? && Replied(e, POST, "/api/auth/ext/request", e.req.body) && e.out.Success()
    && Asks(e.req.body, epk, scope, ctxStr, note)
    && e.out.body.Text("authreq") == Some(authreq) && e.out.body.Text("epk") == Some(deviceKey)
  }

  /**
   * The end of a history that began a confirmation: a broker session handed out a key, the device made
   * a request for that key, the broker took that very request together with the device's key and named
   * the event the handle is for.
   */
  predicate Story(log: History, j: nat, h: Handle, url: Option<string>, scope: string, ctxStr: Option<string>,
        note: Option<string>, authreq: string, deviceKey: string)
    requires j < |log|
  {
    var n := |log|;
    && j < n - 3
    && Brokered(log[j], GET, url, "/session", NoBody)
    && log[j].out.body.Text("epk").Some?
    && DeviceAnswered(log[n - 3], log[j].out.body.Text("epk").value, scope, ctxStr, note, authreq, deviceKey)
    && Brokered(log[n - 2], POST, url, "/event/new", Object(map["authreq" := Str(authreq), "epk" := Str(deviceKey)]))
    && log[n - 2].out.body.Text("eventid") == Some(h.eventid)
    && h == Handle(n - 1, url, scope, h.eventid, false) && log[n - 1] == Begun(h.id, scope, h.eventid)
  }

  lemma {:induction false} SessionStory(w: Env, s: State, url: Option<string>)
    ensures var t := NotifySession(w, s, url);
            t.rc == Ok ==>
              && |t.s.log| == |s.log| + 1 && s.log <= t.s.log
              && Brokered(Last(t.s.log), GET, url, "/session", NoBody)
              && Last(t.s.log).out.body.Text("epk") == Some(t.token)
  {
  }

  lemma {:induction false} EventStory(w: Env, s: State, url: Option<string>, authreq: string, epk: string)
    ensures var t := EventNew(w, s, url, authreq, epk);
            var body := Object(map["authreq" := Str(authreq), "epk" := Str(epk)]);
            t.rc == Ok ==>
              && |t.s.log| == |s.log| + 1 && s.log <= t.s.log
              && Brokered(Last(t.s.log), POST, url, "/event/new", body)
              && Last(t.s.log).out.body.Text("eventid") == Some(t.token)
  {
  }

  lemma FieldsAsk(epk: string, scope: string, ctxStr: Option<string>, note: Option<string>)
    ensures Asks(Object(ExtFields(epk, scope, ctxStr, note)), epk, scope, ctxStr, note)
  {
  }

  lemma {:induction false} RequestStory(w: Env, s: State, epk: string, scope: string, ctxStr: Option<string>,
        note: Option<string>)
    ensures var r := ExtRequest(w, s, epk, scope, ctxStr, note);
            r.rc == Ok ==>
              && |r.s.log| > |s.log| && s.log <= r.s.log
              && DeviceAnswered(Last(r.s.log), epk, scope, ctxStr, note, r.authreq, r.epk)
  {
    hide ExtLoginPost, ExtFields, Asks, IsB64Of32, Quietly;
    FieldsAsk(epk, scope, ctxStr, note);
    var body := Object(ExtFields(epk, scope, ctxStr, note));
    PostStory(w, ClearError(s), EXT_REQUEST_PATH, body);
  }

  lemma {:induction false} PostStory(w: Env, s: State, path: string, body: Body)
    ensures var g := ExtLoginPost(w, s, path, body);
            && |s.log| < |g.s.log| && s.log <= g.s.log
            && (g.rc == Ok ==>
                  Replied(Last(g.s.log), POST, path, body) && Last(g.s.log).out.Success()
                  && Last(g.s.log).out.body == g.body)
  {
    hide RequestJson, CheckinRun, Replied;
    var g := RequestJson(w, s, POST, path, body, None, Default);
    JsonSuccess(w, s, POST, path, body);
    JsonExtends(w, s, POST, path, body);
    var legs := CheckinAdds(w, g.s, ExtRecovery);
    var c := CheckinRun(w, g.s, ExtRecovery);
    JsonSuccess(w, c.s, POST, path, body);
    JsonExtends(w, c.s, POST, path, body);
  }

  lemma {:induction false} JsonSuccess(w: Env, s: State, verb: Method, path: string, body: Body)
    ensures var g := RequestJson(w, s, verb, path, body, None, Default);
            && |g.s.log| > |s.log|
            && (g.rc == Ok ==>
                  Replied(Last(g.s.log), verb, path, body) && Last(g.s.log).out.Success()
                  && Last(g.s.log).out.body == g.body)
  {
    hide DispatchRecovering, Replied, MapHttpStatus;
    DispatchStatus(w, s, Request(verb, path, body, None, Default, false));
    var r := RequestRaw(w, s, verb, path, body, None, Default);
  }

  lemma {:induction false} FireStory(w: Env, s: State, url: Option<string>, scope: string, ctxStr: Option<string>,
        note: Option<string>)
    ensures var p := FirePush(w, s, url, scope, ctxStr, note);
            p.rc == Ok ==>
              var h := Handle(|p.s.log|, url, scope, p.eventid, false);
              exists j, authreq, deviceKey ::
                && |s.log| <= j < |p.s.log|
                && Story(p.s.log + [Begun(h.id, scope, p.eventid)], j, h, url, scope, ctxStr, note, authreq, deviceKey)
  {
    hide NotifySession, EventNew, ExtRequest, Brokered, DeviceAnswered;
    var t := NotifySession(w, s, url);
    SessionStory(w, s, url);
    var r := ExtRequest(w, t.s, t.token, scope, ctxStr, note);
    RequestStory(w, t.s, t.token, scope, ctxStr, note);
    var e := EventNew(w, r.s, url, r.authreq, r.epk);
    EventStory(w, r.s, url, r.authreq, r.epk);
    var p := FirePush(w, s, url, scope, ctxStr, note);
    if p.rc == Ok {
      var h := Handle(|p.s.log|, url, scope, p.eventid, false);
      var log := p.s.log + [Begun(h.id, scope, p.eventid)];
      assert log[|s.log|] == Last(t.s.log) && log[|log| - 3] == Last(r.s.log) && log[|log| - 2] == Last(e.s.log);
      assert Story(log, |s.log|, h, url, scope, ctxStr, note, r.authreq, r.epk);
    }
  }

  /** Every confirmation begun ends its history with that story, told since the call. */
  lemma {:induction false} BeginStory(w: Env, s: State, url: Option<string>, scope: string, ctxStr: Option<string>,
        note: Option<string>)
    ensures var b := ConfirmBegin(w, s, url, scope, ctxStr, note);
            b.rc == Ok ==>
              exists j, authreq, deviceKey ::
                && |s.log| <= j < |b.s.log|
                && Story(b.s.log, j, b.handle.value, url, scope, ctxStr, note, authreq, deviceKey)
  {
    hide FirePush, CheckinRun, Story, Claim;
    var p := FirePush(w, s, url, scope, ctxStr, note);
    FireStory(w, s, url, scope, ctxStr, note);
    FirePlain(w, s, url, scope, ctxStr, note, 0);
    StepsTicks(w, s, p.s, 0);
    var s1 := Tick(p.s);
    var legs := CheckinAdds(w, s1, BrokerDrift);
    var c := CheckinRun(w, s1, BrokerDrift);
    FireStory(w, c.s, url, scope, ctxStr, note);
    hide Steps;
  }

  // ------------------------------------------------------------- refusals

  /** What the device can be asked: a 32-byte key, and texts within their bounds. */
  predicate Askable(epk: string, scope: string, ctxStr: Option<string>, note: Option<string>) {
    && 43 <= |epk| <= 46
    && (var key := Base64.Decode(Base64.Standard, epk, 48); key.Some? && |key.value| == 32)
    && |scope| < 1024
    && (ctxStr.Some? ==> 0 < |ctxStr.value| <= 64)
    && (note.Some? ==> 0 < |note.value| <= 128)
  }

  /** Anything else is ARG, and nothing is sent; what is askable is. */
  lemma {:induction false} AskedExactly(w: Env, s: State, epk: string, scope: string, ctxStr: Option<string>,
        note: Option<string>)
    ensures var r := ExtRequest(w, s, epk, scope, ctxStr, note);
            if Askable(epk, scope, ctxStr, note) then |s.log| < |r.s.log|
            else r.rc == Arg && r.s == SetError(s, 0, false)
  {
    hide ExtLoginPost, ExtFields;
    PostStory(w, ClearError(s), EXT_REQUEST_PATH, Object(ExtFields(epk, scope, ctxStr, note)));
  }

  /**
   * A redemption fails as AUTH_FAILED exactly when the device answered it 401 or 406, with that status
   * on record; an empty authreply is ARG and nothing is sent.
   */
  lemma {:induction false} RedemptionVerdict(w: Env, s: State, reply: string)
    ensures var t := ExtToken(w, s, reply);
            if reply == "" then t.rc == Arg && t.s == SetError(s, 0, false)
            else
              && |s.log| < |t.s.log|
              && var body := Object(map["authreply" := Str(reply)]);
              && (t.rc == AuthFailed <==>
                    Replied(Last(t.s.log), POST, "/api/auth/ext/token", body)
                    && (Last(t.s.log).out.status == 401 || Last(t.s.log).out.status == 406))
              && (t.rc == AuthFailed ==> t.s.err.status == Last(t.s.log).out.status)
  {
    hide ExtLoginPost, Replied;
    if reply != "" {
      PostVerdict(w, ClearError(s), EXT_TOKEN_PATH, Object(map["authreply" := Str(reply)]));
    }
  }

  lemma {:induction false} PostVerdict(w: Env, s: State, path: string, body: Body)
    ensures |s.log| < |ExtLoginPost(w, s, path, body).s.log|
    ensures var g := ExtLoginPost(w, s, path, body);
            var e := Last(g.s.log);
            && (g.rc == Ok ==> Replied(e, POST, path, body) && e.out.Success())
            && (g.rc != Ok && g.s.err.status != 0 && g.s.err.status != 403 ==>
                  Replied(e, POST, path, body) && e.out.status == g.s.err.status)
            && (g.rc == AuthFailed ==> g.s.err.status == 401)
            && (Replied(e, POST, path, body) && !e.out.Success() ==>
                  MeansStatus(g.rc, e.out.status) && g.s.err.status == e.out.status)
  {
    hide RequestJson, CheckinRun, Replied;
    PostStory(w, s, path, body);
    var g := RequestJson(w, s, POST, path, body, None, Default);
    PostedVerdict(w, s, path, body);
    var c := CheckinRun(w, g.s, ExtRecovery);
    NotReplied(w, g.s, path, body);
    PostedVerdict(w, c.s, path, body);
  }

  lemma {:induction false} PostedVerdict(w: Env, s: State, path: string, body: Body)
    ensures |s.log| < |RequestJson(w, s, POST, path, body, None, Default).s.log|
    ensures var g := RequestJson(w, s, POST, path, body, None, Default);
            var e := Last(g.s.log);
            && (g.rc == Ok ==> Replied(e, POST, path, body) && e.out.Success())
            && (g.rc != Ok && g.s.err.status != 0 ==>
                  Replied(e, POST, path, body) && e.out.status == g.s.err.status)
            && (g.rc == AuthFailed ==> g.s.err.status == 401)
            && (Replied(e, POST, path, body) && !e.out.Success() ==>
                  MeansStatus(g.rc, e.out.status) && g.s.err.status == e.out.status)
  {
    hide RequestJson, Replied;
    JsonStatus(w, s, POST, path, body);
    JsonSuccess(w, s, POST, path, body);
    RefusalStatus(w, s, path, body);
  }

  lemma {:induction false} RefusalStatus(w: Env, s: State, path: string, body: Body)
    ensures var g := RequestJson(w, s, POST, path, body, None, Default);
            g.rc == AuthFailed ==> g.s.err.status == 401
  {
    hide DispatchRecovering;
    DispatchStatus(w, s, Request(POST, path, body, None, Default, false));
    var r := RequestRaw(w, s, POST, path, body, None, Default);
  }

  lemma {:induction false} NotReplied(w: Env, s: State, path: string, body: Body)
    ensures |CheckinRun(w, s, ExtRecovery).s.log| > 0
    ensures !Replied(Last(CheckinRun(w, s, ExtRecovery).s.log), POST, path, body)
  {
    var legs := CheckinAdds(w, s, ExtRecovery);
    hide CheckinRun;
  }

  // ------------------------------------------------------- missing members

  /** A reply that lacks a member the protocol needs, as text. */
  predicate Lacks(log: History, key: string) {
    && |log| > 0 && Last(log).Sent? && Last(log).out.Success()
    && Last(log).out.body.Object? && Last(log).out.body.Text(key).None?
  }

  /** It is PROTOCOL with status 200, whatever its own status was. */
  predicate Incomplete(rc: Rc, s: State) {
    rc == Protocol && s.err == Error(200, false)
  }

  lemma {:induction false} BrokerMembers(w: Env, s: State, url: Option<string>, authreq: string, epk: string)
    requires url != Some("")
    ensures var t := NotifySession(w, s, url); Lacks(t.s.log, "epk") ==> Incomplete(t.rc, t.s)
    ensures var t := EventNew(w, s, url, authreq, epk); Lacks(t.s.log, "eventid") ==> Incomplete(t.rc, t.s)
  {
    hide NotifyJson;
    BrokerReads(w, ClearError(s), GET, url, "/session", NoBody);
    BrokerReads(w, ClearError(s), POST, url, "/event/new", Object(map["authreq" := Str(authreq), "epk" := Str(epk)]));
  }

  lemma {:induction false} BrokerReads(w: Env, s: State, verb: Method, url: Option<string>, subpath: string, body: Body)
    requires url != Some("")
    ensures var g := NotifyJson(w, s, verb, url, subpath, body);
            |g.s.log| > 0 && Last(g.s.log).Sent? && Last(g.s.log).out.Success() && Last(g.s.log).out.body.Object?
            ==> g.rc == Ok && g.body == Last(g.s.log).out.body
  {
  }

  /** The newest event is a reply to a POST of this path in the context's TLS mode. */
  predicate AnswersPost(log: History, path: string) {
    |log| > 0 && Last(log).Sent? && Replied(Last(log), POST, path, Last(log).req.body)
  }

  lemma {:induction false} RequestMembers(w: Env, s: State, epk: string, scope: string, ctxStr: Option<string>,
        note: Option<string>)
    requires Askable(epk, scope, ctxStr, note)
    ensures var r := ExtRequest(w, s, epk, scope, ctxStr, note);
            AnswersPost(r.s.log, "/api/auth/ext/request") && (Lacks(r.s.log, "authreq") || Lacks(r.s.log, "epk"))
            ==> Incomplete(r.rc, r.s)
  {
    hide ExtLoginPost, ExtRequest, ExtFields, Replied, Askable;
    var body := Object(ExtFields(epk, scope, ctxStr, note));
    PostReads(w, ClearError(s), EXT_REQUEST_PATH, body);
    RequestEnds(w, s, epk, scope, ctxStr, note, ExtLoginPost(w, ClearError(s), EXT_REQUEST_PATH, body));
  }

  lemma {:induction false} RequestEnds(w: Env, s: State, epk: string, scope: string, ctxStr: Option<string>,
        note: Option<string>, g: Got)
    requires Askable(epk, scope, ctxStr, note)
    requires g == ExtLoginPost(w, ClearError(s), EXT_REQUEST_PATH, Object(ExtFields(epk, scope, ctxStr, note)))
    ensures var r := ExtRequest(w, s, epk, scope, ctxStr, note);
            && r.s.log == g.s.log
            && (g.rc == Ok && (g.body.Text("authreq").None? || g.body.Text("epk").None?) ==> Incomplete(r.rc, r.s))
  {
    hide ExtLoginPost, ExtFields;
  }

  lemma {:induction false} TokenMember(w: Env, s: State, reply: string)
    requires reply != ""
    ensures var t := ExtToken(w, s, reply);
            AnswersPost(t.s.log, "/api/auth/ext/token") && Lacks(t.s.log, "token") ==> Incomplete(t.rc, t.s)
  {
    hide ExtLoginPost, Replied;
    PostReads(w, ClearError(s), EXT_TOKEN_PATH, Object(map["authreply" := Str(reply)]));
  }

  lemma {:induction false} PostReads(w: Env, s: State, path: string, body: Body)
    ensures var g := ExtLoginPost(w, s, path, body);
            AnswersPost(g.s.log, path) && Last(g.s.log).out.Success() && Last(g.s.log).out.body.Object?
            ==> g.rc == Ok && g.body == Last(g.s.log).out.body
  {
    hide RequestJson, CheckinRun;
    var g := RequestJson(w, s, POST, path, body, None, Default);
    PostedReads(w, s, path, body);
    var legs := CheckinAdds(w, g.s, ExtRecovery);
    PostedReads(w, CheckinRun(w, g.s, ExtRecovery).s, path, body);
  }

  lemma {:induction false} PostedReads(w: Env, s: State, path: string, body: Body)
    ensures var g := RequestJson(w, s, POST, path, body, None, Default);
            AnswersPost(g.s.log, path) && Last(g.s.log).out.Success() && Last(g.s.log).out.body.Object?
            ==> g.rc == Ok && g.body == Last(g.s.log).out.body
  {
    hide DispatchRecovering, MapHttpStatus;
    DispatchStatus(w, s, Request(POST, path, body, None, Default, false));
    var r := RequestRaw(w, s, POST, path, body, None, Default);
  }
}
