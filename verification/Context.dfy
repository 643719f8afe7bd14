/**
 The context object: the client's connection state, updated in place call by call, proved equal to
 the state functions of `Engine` step by step.
 */
module Context {
  import opened Bits
  import opened Options
  import opened Wire
  import opened TokenCache
  import E = Engine

  /** A confirmation in progress, owned by whoever began it. */
  class ConfirmHandle {
    const url: Option<string>
    const scope: string
    var id: nat
    var eventid: string
    var terminal: bool

    constructor (url: Option<string>, scope: string)
      ensures this.url == url && this.scope == scope && !terminal
    {
      this.url, this.scope := url, scope;
      id, eventid, terminal := 0, "", false;
    }

    /** No further poll reaches the broker. */
    method Finish()
      modifies this
      ensures Value() == old(Value()).(terminal := true)
    {
      terminal := true;
    }

    ghost function Value(): Handle
      reads this
    {
      Handle(id, url, scope, eventid, terminal)
    }
  }

  class Context {
    const w: Env
    var inCheckin: bool
    var certRefreshed: bool
    var checkinDone: bool
    var httpStatus: int
    var tlsExpired: bool
    var auth: Auth?
    var history: History
    var ticks: nat
    ghost var repr: set<object>

    ghost predicate Valid()
      reads this, repr
    {
      && this in repr
      && (auth != null ==>
            && auth in repr
            && (forall e :: e in auth.spine ==> e in repr)
            && auth.Valid())
    }

    /** The state this object stands for. */
    ghost function Model(): State
      reads this, repr
      requires Valid()
    {
      State(if auth == null then None
            else Some(Session(auth.passphrase, auth.retain, auth.mobile, auth.Contents())),
            inCheckin, certRefreshed, checkinDone, Error(httpStatus, tlsExpired), history, ticks)
    }

    constructor (w: Env)
      ensures Valid() && fresh(repr) && this.w == w
      ensures Model() == State(None, false, false, false, Error(0, false), [], 0)
    {
      this.w := w;
      inCheckin, certRefreshed, checkinDone := false, false, false;
      httpStatus, tlsExpired, auth, history, ticks := 0, false, null, [], 0;
      repr := {this};
    }

    // -------------------------------------------------------- primitives

    method Fail(rc: Rc, status: int) returns (r: Rc)
      requires Valid()
      modifies this
      ensures Valid() && repr == old(repr) && r == rc
      ensures Model() == E.SetError(old(Model()), status, false)
    {
      httpStatus, tlsExpired := status, false;
      return rc;
    }

    /** A failure below HTTP, remembering whether it was an expired certificate. */
    method FailBelow(rc: Rc, expired: bool) returns (r: Rc)
      requires Valid()
      modifies this
      ensures Valid() && repr == old(repr) && r == rc
      ensures Model() == E.SetError(old(Model()), 0, expired)
    {
      httpStatus, tlsExpired := 0, expired;
      return rc;
    }

    method SetInCheckin(on: bool)
      requires Valid()
      modifies this
      ensures Valid() && repr == old(repr)
      ensures Model() == old(Model()).(inCheckin := on)
    {
      inCheckin := on;
    }

    method SetCertRefreshed()
      requires Valid()
      modifies this
      ensures Valid() && repr == old(repr)
      ensures Model() == old(Model()).(certRefreshed := true)
    {
      certRefreshed := true;
    }

    method ClearError()
      requires Valid()
      modifies this
      ensures Valid() && repr == old(repr)
      ensures Model() == E.ClearError(old(Model()))
    {
      httpStatus, tlsExpired := 0, false;
    }

    method Send(req: Request, scope: Option<string>) returns (o: Outcome)
      requires Valid()
      modifies this
      ensures Valid() && repr == old(repr)
      ensures Model() == E.Dispatch(w, old(Model()), req, scope) && o == E.Outgoing(w, old(Model()), req)
    {
      o := w.device(history, req);
      history := history + [Sent(req, scope, o)];
    }

    method Note(e: Event)
      requires Valid()
      modifies this
      ensures Valid() && repr == old(repr)
      ensures Model() == E.Note(old(Model()), e)
    {
      history := history + [e];
    }

    method Now() returns (now: int)
      requires Valid()
      modifies this
      ensures Valid() && repr == old(repr)
      ensures Model() == E.Tick(old(Model())) && now == w.clock(old(ticks))
    {
      now := w.clock(ticks);
      ticks := ticks + 1;
    }

    // ------------------------------------------------------- token cache

    /** The session, allocated on first use. */
    method EnsureAuth()
      requires Valid()
      modifies this
      ensures Valid() && fresh(repr - old(repr)) && auth != null
      ensures old(auth) != null ==> auth == old(auth) && Model() == old(Model())
      ensures old(auth) == null ==> Model() == old(Model()).(auth := Some(Session(None, false, false, map[])))
    {
      if auth == null {
        auth := new Auth();
        repr := repr + {auth};
      }
    }

    method PutToken(scope: string, token: string, exp: int)
      requires Valid() && auth != null
      modifies repr
      ensures Valid() && fresh(repr - old(repr)) && auth == old(auth)
      ensures var s := old(Model());
              Model() == s.(auth := Some(s.auth.value.(cache := s.auth.value.cache[scope := Bearer(token, exp)])))
    {
      auth.Put(scope, token, exp);
      repr := repr + (set e | e in auth.spine);
    }

    method Store(scope: string, token: string, exp: int, source: Source)
      requires Valid()
      modifies repr
      ensures Valid() && fresh(repr - old(repr)) && auth != null
      ensures Model() == E.Store(old(Model()), scope, token, exp, source)
    {
      EnsureAuth();
      PutToken(scope, token, exp);
      Note(Stored(scope, token, source));
    }

    method Invalidate(scope: Option<string>)
      requires Valid()
      modifies repr
      ensures Valid() && repr == old(repr)
      ensures Model() == E.Invalidate(old(Model()), scope)
    {
      if auth == null {
        return;
      }
      if scope.None? {
        auth.Clear();
      } else {
        auth.Remove(scope.value);
      }
    }

    /** Forget the passphrase. */
    method Scrub()
      requires Valid() && auth != null
      modifies repr
      ensures Valid() && repr == old(repr)
      ensures Model() == E.Scrub(old(Model()))
    {
      ghost var before := auth.Items();
      auth.passphrase := None;
      assert auth.Items() == before;
    }

    method CacheSeed(scope: string, token: string, source: Source)
      requires Valid()
      modifies repr
      ensures Valid() && fresh(repr - old(repr))
      ensures Model() == E.CacheSeed(w, old(Model()), scope, token, source)
    {
      var exp := E.Claim(w, token, "exp");
      if exp.None? {
        var now := Now();
        exp := Some(now + E.TOKEN_LIFETIME);
      }
      Store(scope, token, exp.value - E.TOKEN_SKEW, source);
    }

    // ------------------------------------------------------ request path

    method RequestRaw(verb: Method, path: string, body: Body, scope: Option<string>, tls: Tls)
      returns (rc: Rc, reply: Body)
      requires Valid()
      modifies repr
      ensures Valid() && fresh(repr - old(repr))
      ensures E.Got(rc, reply, Model()) == E.RequestRaw(w, old(Model()), verb, path, body, scope, tls)
      decreases if scope.Some? then 5 else if inCheckin then 0 else 2, 1
    {
      hide E.EnsureToken, E.DispatchRecovering, E.RetryRejected, E.Classify, Auth.Valid, Auth.Contents;
      reply := NoBody;
      var bearer: Option<string> := None;
      if scope.Some? {
        var token;
        rc, token := EnsureToken(scope.value);
        if rc != Ok {
          return;
        }
        bearer := Some(token);
      }
      rc, reply := SendUnder(Request(verb, path, body, bearer, tls, false), scope);
    }

    /** Dispatch under the bearer got, retry once on a 401, and read the reply. */
    method SendUnder(req: Request, scope: Option<string>) returns (rc: Rc, reply: Body)
      requires Valid()
      modifies repr
      ensures Valid() && fresh(repr - old(repr))
      ensures var a := E.DispatchRecovering(w, old(Model()), req, scope);
              var b := if a.rc == Ok && a.status == 401 && scope.Some?
                       then E.RetryRejected(w, a.s, req, scope.value) else a;
              E.Got(rc, reply, Model())
                == if b.rc != Ok then E.Got(b.rc, NoBody, b.s) else E.Classify(b.s, b.status, b.body)
      decreases if scope.Some? then 5 else if inCheckin then 0 else 2, 1, 0
    {
      hide E.EnsureToken, E.DispatchRecovering, E.RetryRejected, E.Classify, Auth.Valid, Auth.Contents;
      var status;
      rc, status, reply := DispatchRecovering(req, scope);
      if rc != Ok {
        reply := NoBody;
        return;
      }
      if status == 401 && scope.Some? {
        rc, status, reply := RetryRejected(req, scope.value);
        if rc != Ok {
          reply := NoBody;
          return;
        }
      }
      rc, reply := Classify(status, reply);
    }

    /** The reply as the caller sees it: a mapped status, an empty 2xx, or a body. */
    method Classify(status: int, body: Body) returns (rc: Rc, reply: Body)
      requires Valid()
      modifies this
      ensures Valid() && repr == old(repr)
      ensures E.Got(rc, reply, Model()) == E.Classify(old(Model()), status, body)
    {
      if status < 200 || status >= 300 {
        reply := NoBody;
        rc := Fail(E.MapHttpStatus(status), status);
      } else if body.NoBody? {
        reply := NoBody;
        rc := Fail(Protocol, status);
      } else {
        rc, reply := Ok, body;
      }
    }

    method RetryRejected(req: Request, scope: string) returns (rc: Rc, status: int, reply: Body)
      requires Valid()
      modifies repr
      ensures Valid() && fresh(repr - old(repr))
      ensures E.Attempt(rc, status, reply, Model()) == E.RetryRejected(w, old(Model()), req, scope)
      decreases 5, 0
    {
      hide E.EnsureToken, E.Invalidate, Auth.Valid, Auth.Contents;
      status, reply := 0, NoBody;
      Invalidate(Some(scope));
      var token;
      rc, token := EnsureToken(scope);
      if rc != Ok {
        return;
      }
      var o := Send(req.(bearer := Some(token), renew := true), Some(scope));
      if o.Failed? {
        rc := Fail(o.rc, 0);
        return;
      }
      return Ok, o.status, o.body;
    }

    method DispatchRecovering(req: Request, scope: Option<string>) returns (rc: Rc, status: int, reply: Body)
      requires Valid()
      modifies repr
      ensures Valid() && fresh(repr - old(repr))
      ensures E.Attempt(rc, status, reply, Model()) == E.DispatchRecovering(w, old(Model()), req, scope)
      decreases if inCheckin then 0 else 2, 0
    {
      hide E.CheckinRun, Auth.Valid, Auth.Contents;
      status, reply := 0, NoBody;
      var o := Send(req, scope);
      if o.Failed? && o.expired && !w.noAutoCheckin && !inCheckin && req.tls == Default {
        var first := o.rc;
        var crc, root := CheckinRun(CertRecovery);
        if crc != Ok {
          rc := FailBelow(first, true);
          return;
        }
        o := Send(req.(renew := true), scope);
        if o.Reply? {
          SetCertRefreshed();
        } else if o.expired {
          rc := FailBelow(first, true);
          return;
        }
      }
      if o.Failed? {
        rc := FailBelow(o.rc, o.expired);
        return;
      }
      return Ok, o.status, o.body;
    }

    method RequestJson(verb: Method, path: string, body: Body, scope: Option<string>, tls: Tls)
      returns (rc: Rc, root: Body)
      requires Valid()
      modifies repr
      ensures Valid() && fresh(repr - old(repr))
      ensures E.Got(rc, root, Model()) == E.RequestJson(w, old(Model()), verb, path, body, scope, tls)
      decreases if scope.Some? then 5 else if inCheckin then 0 else 2, 2
    {
      hide E.RequestRaw, Auth.Valid, Auth.Contents;
      rc, root := RequestRaw(verb, path, body, scope, tls);
      if rc == Ok && !root.Object? {
        root := NoBody;
        rc := Fail(Protocol, 0);
      }
    }

    method CheckinRun(why: Reason) returns (rc: Rc, root: Body)
      requires Valid()
      modifies repr
      ensures Valid() && fresh(repr - old(repr))
      ensures E.Got(rc, root, Model()) == E.CheckinRun(w, old(Model()), why)
      decreases 1, 0
    {
      hide E.RequestRaw, E.RequestJson, E.CheckinRun, Auth.Valid, Auth.Contents;
      ghost var before := Model();
      SetInCheckin(true);
      Note(CheckinBegan(why));
      rc, root := CheckinLegs(before, why);
      SetInCheckin(false);
    }

    /** The three legs, the guard being set. */
    method CheckinLegs(ghost before: State, ghost why: Reason) returns (rc: Rc, root: Body)
      requires Valid() && Model() == E.Note(before.(inCheckin := true), CheckinBegan(why))
      modifies repr
      ensures Valid() && fresh(repr - old(repr))
      ensures E.Got(rc, root, Model().(inCheckin := false)) == E.CheckinRun(w, before, why)
      decreases 0, 3
    {
      hide E.RequestRaw, E.RequestJson, Auth.Valid, Auth.Contents;
      var challenge, verified;
      root := NoBody;
      rc, challenge := RequestRaw(GET, E.CHECKIN_PATH, NoBody, None, Relax);
      if rc == Ok {
        rc, verified := RequestRaw(POST, w.checkinUrl, challenge, None, Verify);
        if rc == Ok {
          rc, root := RequestJson(POST, E.CHECKIN_PATH, verified, None, Relax);
        }
      }
    }

    // ------------------------------------------------- token acquisition

    method FetchChallenge(spent: bool) returns (rc: Rc, challenge: Body, nowSpent: bool)
      requires Valid()
      modifies repr
      ensures Valid() && fresh(repr - old(repr))
      ensures E.Challenge(rc, challenge, nowSpent, Model()) == E.FetchChallenge(w, old(Model()), spent)
      decreases 3, 0
    {
      hide E.RequestJson, E.CheckinRun, Auth.Valid, Auth.Contents;
      nowSpent := spent;
      rc, challenge := RequestJson(GET, E.TOKEN_PATH, NoBody, None, Default);
      if rc == Ok {
        return;
      }
      challenge := NoBody;
      if httpStatus == 403 && !spent && !w.noAutoCheckin && !inCheckin {
        nowSpent := true;
        var crc, root := CheckinRun(Budgeted);
        if crc != Ok {
          rc := Fail(rc, 403);
          return;
        }
        rc, challenge := RequestJson(GET, E.TOKEN_PATH, NoBody, None, Default);
      }
    }

    method AcquireToken(scope: string, now: int, spent: bool)
      returns (rc: Rc, token: string, nowSpent: bool, drift: bool)
      requires Valid() && auth != null && auth.passphrase.Some?
      modifies repr
      ensures Valid() && fresh(repr - old(repr))
      ensures E.Acquired(rc, token, nowSpent, drift, Model())
           == E.AcquireToken(w, old(Model()), old(auth.passphrase.value), scope, now, spent)
      decreases 3, 1
    {
      hide E.FetchChallenge, E.RequestJson, E.DriftEvident, E.LoginClaims, E.CacheExpiry, Auth.Valid, Auth.Contents;
      token, drift := "", false;
      var challenge;
      rc, challenge, nowSpent := FetchChallenge(spent);
      if rc != Ok {
        return;
      }
      drift := E.DriftEvident(challenge, now);
      var claims := E.LoginClaims(w, challenge, auth.passphrase.value, scope, now);
      if claims.None? {
        rc := Fail(Protocol, 0);
        return;
      }
      var result;
      rc, result := RequestJson(POST, E.TOKEN_PATH, Object(map["auth" := Signed(claims.value)]), None, Default);
      if rc != Ok {
        return;
      }
      var reply := result.Text("token");
      if reply.None? {
        rc := Fail(Protocol, 200);
        return;
      }
      token := reply.value;
      Store(scope, token, E.CacheExpiry(w, token, now), ByPost);
      if !auth.retain {
        Scrub();
      }
    }

    method ProactiveCheckin()
      requires Valid()
      modifies repr
      ensures Valid() && fresh(repr - old(repr))
      ensures Model() == E.ProactiveCheckin(w, old(Model()))
      decreases 1, 1
    {
      hide E.CheckinRun, Auth.Valid, Auth.Contents;
      if w.checkinOnLogin && !checkinDone && !inCheckin {
        checkinDone := true;
        var rc, root := CheckinRun(Proactive);
      }
    }

    method EnsureToken(scope: string) returns (rc: Rc, token: string)
      requires Valid()
      modifies repr
      ensures Valid() && fresh(repr - old(repr))
      ensures E.Token(rc, token, Model()) == E.EnsureToken(w, old(Model()), scope)
      decreases 4, 0
    {
      hide E.MobileToken, E.PassphraseToken, Auth.Valid, Auth.Contents;
      token := "";
      var now := Now();
      if auth != null {
        var e, at := auth.Find(scope);
        if e != null && e.exp > now {
          return Ok, e.token;
        }
      }
      if auth != null && auth.mobile {
        rc, token := MobileToken(scope);
        return;
      }
      if auth == null || auth.passphrase.None? {
        rc := Fail(AuthExpired, 0);
        return;
      }
      rc, token := PassphraseToken(scope, now);
    }

    method PassphraseToken(scope: string, now: int) returns (rc: Rc, token: string)
      requires Valid() && auth != null && auth.passphrase.Some?
      modifies repr
      ensures Valid() && fresh(repr - old(repr))
      ensures E.Token(rc, token, Model())
           == E.PassphraseToken(w, old(Model()), old(auth.passphrase.value), scope, now)
      decreases 3, 2
    {
      hide E.AcquireToken, E.CheckinRun, E.ProactiveCheckin, E.Cached, E.Scrub, Auth.Valid, Auth.Contents;
      ProactiveCheckin();
      var spent, drift;
      rc, token, spent, drift := AcquireToken(scope, now, false);
      if rc == AuthFailed && drift && httpStatus == 401 && !spent && !w.noAutoCheckin && !inCheckin {
        var crc, root := CheckinRun(Budgeted);
        if crc == Ok {
          var later := Now();
          rc, token, spent, drift := AcquireToken(scope, later, true);
        } else {
          token := "";
          rc := Fail(AuthFailed, 401);
        }
      }
    }

    method MobileToken(scope: string) returns (rc: Rc, token: string)
      requires Valid()
      modifies repr
      ensures Valid() && fresh(repr - old(repr))
      ensures E.Token(rc, token, Model()) == E.MobileToken(w, old(Model()), scope)
      decreases 3, 6
    {
      hide E.ConfirmBegin, E.ConfirmWait, E.ProactiveCheckin, Auth.Valid, Auth.Contents;
      token := "";
      ProactiveCheckin();
      var h;
      rc, h := ConfirmBegin(None, scope, None, None);
      if rc != Ok {
        return;
      }
      rc := ConfirmWait(h, w.confirmTimeout);
      if rc != Ok {
        return;
      }
      if auth == null {
        rc := Fail(Protocol, 0);
        return;
      }
      var e, at := auth.Find(scope);
      if e == null {
        rc := Fail(Protocol, 0);
        return;
      }
      token := e.token;
    }

    // -------------------------------------------------- session lifecycle

    method Login(passphrase: string)
      requires Valid()
      modifies repr
      ensures Valid() && fresh(repr - old(repr))
      ensures Model() == E.Login(w, old(Model()), passphrase)
    {
      hide AsMap;
      ClearError();
      EnsureAuth();
      auth.Clear();
      auth.passphrase, auth.retain, auth.mobile := Some(passphrase), !w.noRetention, false;
      Note(LoggedIn);
    }

    method LoginMobile()
      requires Valid()
      modifies repr
      ensures Valid() && fresh(repr - old(repr))
      ensures Model() == E.LoginMobile(old(Model()))
    {
      ClearError();
      EnsureAuth();
      auth.Clear();
      auth.passphrase, auth.mobile := None, true;
    }

    method Logout()
      requires Valid()
      modifies repr
      ensures Valid() && repr == old(repr)
      ensures Model() == E.Logout(old(Model()))
    {
      ClearError();
      auth := null;
    }

    // ------------------------------------------------------------- broker

    method NotifySend(verb: Method, url: Option<string>, subpath: string, body: Body)
      returns (rc: Rc, status: int, reply: Body)
      requires Valid()
      modifies this
      ensures Valid() && repr == old(repr)
      ensures E.Attempt(rc, status, reply, Model()) == E.NotifySend(w, old(Model()), verb, url, subpath, body)
    {
      status, reply := 0, NoBody;
      var base := E.BrokerBase(url);
      if |base| == 0 {
        rc := Fail(Arg, 0);
        return;
      }
      var o := Send(Request(verb, base + subpath, body, None, Verify, false), None);
      if o.Failed? {
        rc := Fail(o.rc, 0);
        return;
      }
      status := o.status;
      if status < 200 || status >= 300 {
        rc := Fail(E.MapHttpStatus(status), status);
        return;
      }
      return Ok, status, o.body;
    }

    method NotifyJson(verb: Method, url: Option<string>, subpath: string, body: Body) returns (rc: Rc, root: Body)
      requires Valid()
      modifies this
      ensures Valid() && repr == old(repr)
      ensures E.Got(rc, root, Model()) == E.NotifyJson(w, old(Model()), verb, url, subpath, body)
    {
      var status;
      rc, status, root := NotifySend(verb, url, subpath, body);
      if rc == Ok && !root.Object? {
        root := NoBody;
        rc := Fail(Protocol, status);
      }
    }

    /** A required string member of an object reply. */
    method Required(root: Body, key: string) returns (rc: Rc, text: string)
      requires Valid()
      modifies this
      ensures Valid() && repr == old(repr)
      ensures E.Token(rc, text, Model()) == E.Required(E.Got(Ok, root, old(Model())), key)
    {
      var t := root.Text(key);
      if t.None? {
        text := "";
        rc := Fail(Protocol, 200);
        return;
      }
      return Ok, t.value;
    }

    method NotifySession(url: Option<string>) returns (rc: Rc, epk: string)
      requires Valid()
      modifies this
      ensures Valid() && repr == old(repr)
      ensures E.Token(rc, epk, Model()) == E.NotifySession(w, old(Model()), url)
    {
      ClearError();
      var root;
      epk := "";
      rc, root := NotifyJson(GET, url, "/session", NoBody);
      if rc == Ok {
        rc, epk := Required(root, "epk");
      }
    }

    method EventNew(url: Option<string>, authreq: string, epk: string) returns (rc: Rc, eventid: string)
      requires Valid()
      modifies this
      ensures Valid() && repr == old(repr)
      ensures E.Token(rc, eventid, Model()) == E.EventNew(w, old(Model()), url, authreq, epk)
    {
      ClearError();
      var root;
      eventid := "";
      rc, root := NotifyJson(POST, url, "/event/new", Object(map["authreq" := Str(authreq), "epk" := Str(epk)]));
      if rc == Ok {
        rc, eventid := Required(root, "eventid");
      }
    }

    method EventCheck(url: Option<string>, eventid: string) returns (rc: Rc, verdict: E.Verdict)
      requires Valid()
      modifies this
      ensures Valid() && repr == old(repr)
      ensures E.Check(rc, verdict, Model()) == E.EventCheck(w, old(Model()), url, eventid)
    {
      verdict := E.Pending;
      if |E.CheckPath(eventid)| >= 160 {
        rc := Fail(Arg, 0);
        return;
      }
      ClearError();
      var status, root;
      rc, status, root := NotifySend(GET, url, E.CheckPath(eventid), NoBody);
      if rc != Ok || status == 202 {
        return;
      }
      if !root.Object? {
        rc := Fail(Protocol, status);
      } else if "deny" in root.fields {
        verdict := E.Denied;
      } else {
        var reply := root.Text("authreply");
        if reply.None? {
          rc := Fail(Protocol, status);
        } else {
          verdict := E.Approved(reply.value);
        }
      }
    }

    // ----------------------------------------------------- ext endpoints

    method ExtLoginPost(path: string, body: Body) returns (rc: Rc, root: Body)
      requires Valid()
      modifies repr
      ensures Valid() && fresh(repr - old(repr))
      ensures E.Got(rc, root, Model()) == E.ExtLoginPost(w, old(Model()), path, body)
      decreases 3, 0
    {
      hide E.RequestJson, E.CheckinRun, Auth.Valid, Auth.Contents;
      rc, root := RequestJson(POST, path, body, None, Default);
      if rc != Ok && httpStatus == 403 && !w.noAutoCheckin && !inCheckin {
        var crc, croot := CheckinRun(ExtRecovery);
        if crc != Ok {
          root := NoBody;
          rc := Fail(rc, 403);
          return;
        }
        rc, root := RequestJson(POST, path, body, None, Default);
      }
    }

    method ExtRequest(epk: string, scope: string, ctxStr: Option<string>, note: Option<string>)
      returns (rc: Rc, authreq: string, deviceEpk: string)
      requires Valid()
      modifies repr
      ensures Valid() && fresh(repr - old(repr))
      ensures E.ExtReply(rc, authreq, deviceEpk, Model()) == E.ExtRequest(w, old(Model()), epk, scope, ctxStr, note)
      decreases 3, 1
    {
      hide E.ExtLoginPost, E.IsB64Of32, Auth.Valid, Auth.Contents;
      authreq, deviceEpk := "", "";
      ClearError();
      if !E.IsB64Of32(epk) || |scope| > 1023
        || (ctxStr.Some? && !(1 <= |ctxStr.value| <= 64)) || (note.Some? && !(1 <= |note.value| <= 128)) {
        rc := Fail(Arg, 0);
        return;
      }
      var fields := E.ExtFields(epk, scope, ctxStr, note);
      var root;
      rc, root := ExtLoginPost(E.EXT_REQUEST_PATH, Object(fields));
      if rc != Ok {
        return;
      }
      rc, authreq := Required(root, "authreq");
      if rc == Ok {
        rc, deviceEpk := Required(root, "epk");
      }
    }

    method ExtToken(reply: string) returns (rc: Rc, token: string)
      requires Valid()
      modifies repr
      ensures Valid() && fresh(repr - old(repr))
      ensures E.Token(rc, token, Model()) == E.ExtToken(w, old(Model()), reply)
      decreases 3, 1, 0
    {
      hide E.ExtLoginPost, Auth.Valid, Auth.Contents;
      token := "";
      ClearError();
      if |reply| == 0 {
        rc := Fail(Arg, 0);
        return;
      }
      var root;
      rc, root := ExtLoginPost(E.EXT_TOKEN_PATH, Object(map["authreply" := Str(reply)]));
      if rc != Ok {
        if httpStatus == 401 || httpStatus == 406 {
          rc := Fail(AuthFailed, httpStatus);
        }
        return;
      }
      rc, token := Required(root, "token");
    }

    // ----------------------------------------------------- confirm engine

    method FirePush(url: Option<string>, scope: string, ctxStr: Option<string>, note: Option<string>)
      returns (rc: Rc, authreq: Option<string>, eventid: string)
      requires Valid()
      modifies repr
      ensures Valid() && fresh(repr - old(repr))
      ensures E.Push(rc, authreq, eventid, Model()) == E.FirePush(w, old(Model()), url, scope, ctxStr, note)
      decreases 3, 2
    {
      hide E.NotifySession, E.ExtRequest, E.EventNew, Auth.Valid, Auth.Contents;
      authreq, eventid := None, "";
      var session, request, epk;
      rc, session := NotifySession(url);
      if rc != Ok {
        return;
      }
      rc, request, epk := ExtRequest(session, scope, ctxStr, note);
      if rc != Ok {
        return;
      }
      authreq := Some(request);
      rc, eventid := EventNew(url, request, epk);
    }

    method PushRecovering(url: Option<string>, scope: string, ctxStr: Option<string>, note: Option<string>)
      returns (rc: Rc, authreq: Option<string>, eventid: string)
      requires Valid()
      modifies repr
      ensures Valid() && fresh(repr - old(repr))
      ensures E.Push(rc, authreq, eventid, Model()) == E.PushRecovering(w, old(Model()), url, scope, ctxStr, note)
      decreases 3, 3
    {
      hide E.FirePush, E.CheckinRun, E.Claim, E.DriftedFromBroker, Auth.Valid, Auth.Contents;
      rc, authreq, eventid := FirePush(url, scope, ctxStr, note);
      if rc != Ok && httpStatus == 401 && authreq.Some? && !w.noAutoCheckin && !inCheckin {
        var iat := E.Claim(w, authreq.value, "iat");
        if iat.Some? {
          var now := Now();
          if E.DriftedFromBroker(iat.value, now) {
            var crc, root := CheckinRun(Reason.BrokerDrift);
            if crc == Ok {
              rc, authreq, eventid := FirePush(url, scope, ctxStr, note);
            }
          }
        }
      }
    }

    method ConfirmBegin(url: Option<string>, scope: string, ctxStr: Option<string>, note: Option<string>)
      returns (rc: Rc, h: ConfirmHandle)
      requires Valid()
      modifies repr
      ensures Valid() && fresh(repr - old(repr)) && fresh(h) && h !in repr
      ensures E.Begin(rc, if rc == Ok then Some(h.Value()) else None, Model())
           == E.ConfirmBegin(w, old(Model()), url, scope, ctxStr, note)
      decreases 3, 4
    {
      hide E.PushRecovering, Auth.Valid, Auth.Contents;
      var authreq, eventid;
      rc, authreq, eventid := PushRecovering(url, scope, ctxStr, note);
      h := new ConfirmHandle(url, scope);
      if rc != Ok {
        return;
      }
      h.id, h.eventid := |history|, eventid;
      Note(Begun(h.id, scope, eventid));
    }

    method ConfirmPoll(h: ConfirmHandle) returns (rc: Rc, approved: bool)
      requires Valid() && h !in repr
      modifies repr, h
      ensures Valid() && fresh(repr - old(repr)) && h !in repr
      ensures E.Polled(rc, approved, h.Value(), Model()) == E.ConfirmPoll(w, old(Model()), old(h.Value()))
      decreases 3, 2
    {
      hide E.EventCheck, E.ExtToken, E.CacheSeed, Auth.Valid, Auth.Contents;
      approved := false;
      if h.terminal {
        rc := Fail(Arg, 0);
        return;
      }
      var verdict;
      rc, verdict := EventCheck(h.url, h.eventid);
      if rc != Ok || verdict.Pending? {
        return;
      }
      if verdict.Denied? {
        h.Finish();
        Note(Answered(h.id, None));
        rc := Fail(UserRejected, 0);
        return;
      }
      Note(Answered(h.id, Some(verdict.reply)));
      rc := Redeem(h, verdict.reply);
      approved := rc == Ok;
    }

    /** Redeem an approval; the handle is spent whatever comes of it. */
    method Redeem(h: ConfirmHandle, reply: string) returns (rc: Rc)
      requires Valid() && h !in repr
      modifies repr, h
      ensures Valid() && fresh(repr - old(repr)) && h !in repr
      ensures h.Value() == old(h.Value()).(terminal := true)
      ensures var t := E.ExtToken(w, E.Note(old(Model()), Redeemed(old(h.id))), reply);
              && rc == t.rc
              && Model() == if rc != Ok then t.s else E.CacheSeed(w, t.s, h.scope, t.token, ByConfirm(old(h.id)))
      decreases 3, 1, 1
    {
      hide E.ExtToken, E.CacheSeed, Auth.Valid, Auth.Contents;
      Note(Redeemed(h.id));
      var token;
      rc, token := ExtToken(reply);
      h.Finish();
      if rc == Ok {
        CacheSeed(h.scope, token, ByConfirm(h.id));
      }
    }

    method ConfirmWait(h: ConfirmHandle, timeout: int) returns (rc: Rc)
      requires Valid() && h !in repr
      modifies repr, h
      ensures Valid() && fresh(repr - old(repr)) && h !in repr
      ensures var p := E.ConfirmWait(w, old(Model()), old(h.Value()), timeout);
              rc == p.rc && h.Value() == p.h && Model() == p.s
      decreases 3, 4
    {
      hide E.ConfirmPoll, Auth.Valid, Auth.Contents;
      if timeout <= 0 {
        return Arg;
      }
      var elapsed: nat := 0;
      ghost var goal := E.WaitFrom(w, Model(), h.Value(), timeout, 0);
      while true
        invariant Valid() && fresh(repr - old(repr)) && h !in repr
        invariant 0 <= elapsed <= timeout
        invariant E.WaitFrom(w, Model(), h.Value(), timeout, elapsed) == goal
        decreases timeout - elapsed
      {
        var approved;
        rc, approved := ConfirmPoll(h);
        if rc != Ok || approved {
          return;
        }
        if elapsed >= timeout {
          rc := Fail(ConfirmTimeout, 0);
          return;
        }
        var step := if w.pollInterval > timeout - elapsed then timeout - elapsed else w.pollInterval;
        Note(Slept(step));
        elapsed := elapsed + step;
      }
    }

    // --------------------------------- bindings with effects of their own

    method VerifySignature(body: Body, scope: string) returns (rc: Rc)
      requires Valid()
      modifies repr
      ensures Valid() && fresh(repr - old(repr))
      ensures var g := E.VerifySignature(w, old(Model()), body, scope); rc == g.rc && Model() == g.s
    {
      hide E.RequestRaw, Auth.Valid, Auth.Contents;
      ClearError();
      var reply;
      rc, reply := RequestRaw(POST, "/api/crypto/exdsa/verify", body, Some(scope), Default);
      if rc == Ok || (rc == Protocol && httpStatus == 200) {
        ClearError();
        rc := Ok;
      }
    }

    method Restart(path: string, scope: string) returns (rc: Rc)
      requires Valid()
      modifies repr
      ensures Valid() && fresh(repr - old(repr))
      ensures var g := E.Restart(w, old(Model()), path, scope); rc == g.rc && Model() == g.s
    {
      hide E.RequestRaw, Auth.Valid, Auth.Contents;
      ClearError();
      var reply;
      rc, reply := RequestRaw(GET, path, NoBody, Some(scope), Default);
      if rc == Ok || (rc == Protocol && httpStatus == 200) {
        Invalidate(None);
        ClearError();
        rc := Ok;
      }
    }

    method Wipeout() returns (rc: Rc)
      requires Valid()
      modifies repr
      ensures Valid() && fresh(repr - old(repr))
      ensures var g := E.Wipeout(w, old(Model())); rc == g.rc && Model() == g.s
    {
      hide E.RequestRaw, Auth.Valid, Auth.Contents;
      ClearError();
      var reply;
      var body := Object(map["wipeout" := Other]);
      rc, reply := RequestRaw(POST, "/api/system/config", body, Some("system:config"), Default);
      if rc == Ok || (rc == Protocol && httpStatus == 200) {
        Logout();
        rc := Ok;
      }
    }

    /** One encrypt call over a throwaway byte; the ciphertext is dropped. */
    method Encrypt(kid: string) returns (rc: Rc, iv: Option<seq<byte>>)
      requires Valid()
      modifies repr
      ensures Valid() && fresh(repr - old(repr))
      ensures E.Cipher(rc, iv, Model()) == E.Encrypt(w, old(Model()), kid)
    {
      hide E.RequestJson, E.Ciphertext, E.FixedField, Auth.Valid, Auth.Contents;
      iv := None;
      ClearError();
      var body := Object(map["kid" := Str(kid), "alg" := Str("AES128-CBC"), "msg" := Str("AA==")]);
      var root;
      rc, root := RequestJson(POST, "/api/crypto/cipher/encrypt", body, Some("keymgmt:use:" + kid), Default);
      if rc != Ok {
        return;
      }
      var vector, tag := E.FixedField(root, "iv", E.IV_LEN), E.FixedField(root, "tag", 16);
      if !E.Ciphertext(root) || vector.None? || tag.None? {
        rc := Fail(Protocol, 200);
        return;
      }
      iv := vector.value;
    }
  }
}
