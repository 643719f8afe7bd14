/**
 The authenticated request engine as functions from state to state: src/proto_common.c,
 src/proto_auth.c, src/proto_ext.c, src/proto_notify.c and the check-in of src/proto_system.c.
 Class `Context.Context` is the imperative form and is proved equal to these functions.
 */
module Engine {
  import opened Options
  import opened Wire
  import opened Bits
  import Base64
  import CompactToken

  const TOKEN_PATH := "/api/auth/token"
  const CHECKIN_PATH := "/api/system/checkin"
  const EXT_REQUEST_PATH := "/api/auth/ext/request"
  const EXT_TOKEN_PATH := "/api/auth/ext/token"
  const NOTIFY_URL := "https://api.encedo.com/notify"
  const TOKEN_LIFETIME: int := 3600
  const TOKEN_SKEW: int := 60
  const CHALLENGE_DEADLINE: int := 60
  const BROKER_FUTURE_SKEW: int := 2
  const BROKER_PAST_SKEW: int := 15

  datatype Got = Got(rc: Rc, body: Body, s: State)
  datatype Attempt = Attempt(rc: Rc, status: int, body: Body, s: State)
  datatype Challenge = Challenge(rc: Rc, body: Body, spent: bool, s: State)
  datatype Acquired = Acquired(rc: Rc, token: string, spent: bool, drift: bool, s: State)
  datatype Token = Token(rc: Rc, token: string, s: State)
  datatype ExtReply = ExtReply(rc: Rc, authreq: string, epk: string, s: State)
  datatype Push = Push(rc: Rc, authreq: Option<string>, eventid: string, s: State)
  datatype Begin = Begin(rc: Rc, handle: Option<Handle>, s: State)
  datatype Verdict = Pending | Denied | Approved(reply: string)
  datatype Check = Check(rc: Rc, verdict: Verdict, s: State)
  datatype Polled = Polled(rc: Rc, approved: bool, h: Handle, s: State)

  // ------------------------------------------------------------ primitives

  function MapHttpStatus(status: int): Rc {
    if status == 401 then AuthFailed
    else if status == 403 then ScopeDenied
    else if status == 404 then NotFound
    else if status >= 400 then Device
    else Protocol
  }

  function SetError(s: State, status: int, expired: bool): State {
    s.(err := Error(status, expired))
  }

  function ClearError(s: State): State {
    SetError(s, 0, false)
  }

  function Note(s: State, e: Event): State {
    s.(log := s.log + [e])
  }

  function Tick(s: State): State {
    s.(ticks := s.ticks + 1)
  }

  /** One dispatch: the device answers as it likes, knowing the whole history. */
  function Outgoing(w: Env, s: State, req: Request): Outcome {
    w.device(s.log, req)
  }

  function Dispatch(w: Env, s: State, req: Request, scope: Option<string>): State {
    Note(s, Sent(req, scope, Outgoing(w, s, req)))
  }

  // ----------------------------------------------------------- token cache

  function Cached(s: State, scope: string): Option<Bearer> {
    if s.auth.Some? && scope in s.auth.value.cache then Some(s.auth.value.cache[scope]) else None
  }

  /** Insert or replace; creates the session when there is none. */
  function Store(s: State, scope: string, token: string, exp: int, source: Source): State {
    var a := if s.auth.Some? then s.auth.value else Session(None, false, false, map[]);
    Note(s.(auth := Some(a.(cache := a.cache[scope := Bearer(token, exp)]))), Stored(scope, token, source))
  }

  function Invalidate(s: State, scope: Option<string>): State {
    if s.auth.None? then s
    else
      var a := s.auth.value;
      s.(auth := Some(a.(cache := if scope.None? then map[] else a.cache - {scope.value})))
  }

  function Scrub(s: State): State {
    if s.auth.Some? then s.(auth := Some(s.auth.value.(passphrase := None))) else s
  }

  /** A numeric claim of a bearer, when its payload can be read at all. */
  function Claim(w: Env, jwt: string, key: string): Option<int> {
    match CompactToken.PeekPayload(jwt, CompactToken.PEEK_CAP)
    case None => None
    case Some(bytes) => w.json(bytes).Number(key)
  }

  function CacheExpiry(w: Env, token: string, now: int): int {
    (match Claim(w, token, "exp") case Some(e) => e case None => now + TOKEN_LIFETIME) - TOKEN_SKEW
  }

  /** A bearer from outside the passphrase exchange enters the same cache. */
  function CacheSeed(w: Env, s: State, scope: string, token: string, source: Source): (s': State)
    ensures s'.inCheckin == s.inCheckin && s'.checkinDone == s.checkinDone
  {
    if Claim(w, token, "exp").Some? then
      Store(s, scope, token, CacheExpiry(w, token, 0), source)
    else
      Store(Tick(s), scope, token, CacheExpiry(w, token, w.clock(s.ticks)), source)
  }

  // ---------------------------------------------------------- request path

  /** Dispatch, and on an expired certificate check in and dispatch once more. */
  function DispatchRecovering(w: Env, s: State, req: Request, scope: Option<string>): (a: Attempt)
    ensures a.s.inCheckin == s.inCheckin && a.s.auth == s.auth && a.s.checkinDone == s.checkinDone
    decreases if s.inCheckin then 0 else 2, 0
  {
    var o := Outgoing(w, s, req);
    var s1 := Dispatch(w, s, req, scope);
    if o.Failed? && o.expired && !w.noAutoCheckin && !s1.inCheckin && req.tls == Default then
      var c := CheckinRun(w, s1, CertRecovery);
      if c.rc != Ok then
        Attempt(o.rc, 0, NoBody, SetError(c.s, 0, true))
      else
        var again := req.(renew := true);
        var o2 := Outgoing(w, c.s, again);
        var s2 := Dispatch(w, c.s, again, scope);
        if o2.Reply? then Attempt(Ok, o2.status, o2.body, s2.(certRefreshed := true))
        else if o2.expired then Attempt(o.rc, 0, NoBody, SetError(s2, 0, true))
        else Attempt(o2.rc, 0, NoBody, SetError(s2, 0, false))
    else if o.Reply? then Attempt(Ok, o.status, o.body, s1)
    else Attempt(o.rc, 0, NoBody, SetError(s1, 0, o.expired))
  }

  /** A rejected bearer: drop it, acquire again, dispatch once more on a fresh connection. */
  function RetryRejected(w: Env, s: State, req: Request, scope: string): (a: Attempt)
    ensures a.s.inCheckin == s.inCheckin
    decreases 5, 0
  {
    var t := EnsureToken(w, Invalidate(s, Some(scope)), scope);
    if t.rc != Ok then Attempt(t.rc, 0, NoBody, t.s)
    else
      var again := req.(bearer := Some(t.token), renew := true);
      var o := Outgoing(w, t.s, again);
      var s' := Dispatch(w, t.s, again, Some(scope));
      if o.Reply? then Attempt(Ok, o.status, o.body, s') else Attempt(o.rc, 0, NoBody, SetError(s', 0, false))
  }

  /** The status and body of the last reply as the caller sees them. */
  function Classify(s: State, status: int, body: Body): (g: Got)
    ensures g.s == s || g.s == SetError(s, status, false)
  {
    if status < 200 || status >= 300 then Got(MapHttpStatus(status), NoBody, SetError(s, status, false))
    else if body.NoBody? then Got(Protocol, NoBody, SetError(s, status, false))
    else Got(Ok, body, s)
  }

  function RequestRaw(w: Env, s: State, verb: Method, path: string, body: Body, scope: Option<string>,
        tls: Tls): (g: Got)
    ensures g.s.inCheckin == s.inCheckin
    ensures scope.None? ==> g.s.auth == s.auth && g.s.checkinDone == s.checkinDone
    decreases if scope.Some? then 5 else if s.inCheckin then 0 else 2, 1
  {
    var t := if scope.Some? then EnsureToken(w, s, scope.value) else Token(Ok, "", s);
    if t.rc != Ok then Got(t.rc, NoBody, t.s)
    else
      var req := Request(verb, path, body, if scope.Some? then Some(t.token) else None, tls, false);
      var a := DispatchRecovering(w, t.s, req, scope);
      var b := if a.rc == Ok && a.status == 401 && scope.Some? then RetryRejected(w, a.s, req, scope.value) else a;
      if b.rc != Ok then Got(b.rc, NoBody, b.s) else Classify(b.s, b.status, b.body)
  }

  function RequestJson(w: Env, s: State, verb: Method, path: string, body: Body, scope: Option<string>,
        tls: Tls): (g: Got)
    ensures g.s.inCheckin == s.inCheckin
    ensures scope.None? ==> g.s.auth == s.auth && g.s.checkinDone == s.checkinDone
    decreases if scope.Some? then 5 else if s.inCheckin then 0 else 2, 2
  {
    var g := RequestRaw(w, s, verb, path, body, scope, tls);
    if g.rc == Ok && !g.body.Object? then Got(Protocol, NoBody, SetError(g.s, 0, false)) else g
  }

  // -------------------------------------------------------------- check-in

  /** Device challenge, cloud verification, cloud answer back to the device. */
  function CheckinRun(w: Env, s: State, why: Reason): (g: Got)
    ensures !g.s.inCheckin && g.s.auth == s.auth && g.s.checkinDone == s.checkinDone
    decreases 1, 0
  {
    var s0 := Note(s.(inCheckin := true), CheckinBegan(why));
    var leg1 := RequestRaw(w, s0, GET, CHECKIN_PATH, NoBody, None, Relax);
    if leg1.rc != Ok then Got(leg1.rc, NoBody, leg1.s.(inCheckin := false))
    else
      var leg2 := RequestRaw(w, leg1.s, POST, w.checkinUrl, leg1.body, None, Verify);
      if leg2.rc != Ok then Got(leg2.rc, NoBody, leg2.s.(inCheckin := false))
      else
        var leg3 := RequestJson(w, leg2.s, POST, CHECKIN_PATH, leg2.body, None, Relax);
        Got(leg3.rc, leg3.body, leg3.s.(inCheckin := false))
  }

  /** Session-start check-in: once per context, its outcome ignored. */
  function ProactiveCheckin(w: Env, s: State): (s': State)
    ensures s'.inCheckin == s.inCheckin && s'.auth == s.auth
    decreases 1, 1
  {
    if w.checkinOnLogin && !s.checkinDone && !s.inCheckin then
      CheckinRun(w, s.(checkinDone := true), Proactive).s
    else s
  }

  // ----------------------------------------------------- token acquisition

  /** The login challenge; a 403 (device clock unset) may cost the one budgeted check-in. */
  function FetchChallenge(w: Env, s: State, spent: bool): (c: Challenge)
    ensures c.s.inCheckin == s.inCheckin && c.s.auth == s.auth && c.s.checkinDone == s.checkinDone
    decreases 3, 0
  {
    var g := RequestJson(w, s, GET, TOKEN_PATH, NoBody, None, Default);
    if g.rc == Ok then Challenge(Ok, g.body, spent, g.s)
    else if g.s.err.status == 403 && !spent && !w.noAutoCheckin && !g.s.inCheckin then
      var c := CheckinRun(w, g.s, Budgeted);
      if c.rc != Ok then Challenge(g.rc, NoBody, true, SetError(c.s, 403, false))
      else
        var h := RequestJson(w, c.s, GET, TOKEN_PATH, NoBody, None, Default);
        Challenge(h.rc, h.body, true, h.s)
    else Challenge(g.rc, NoBody, spent, g.s)
  }

  /** The challenge's deadline betrays the device clock. */
  predicate DriftEvident(challenge: Body, now: int) {
    match challenge.Number("exp")
    case None => false
    case Some(exp) =>
      var drift := exp - CHALLENGE_DEADLINE - now;
      drift > TOKEN_SKEW || drift < -TOKEN_SKEW
  }

  predicate IsKey32(b64: string) {
    var d := Base64.Decode(Base64.Standard, b64, 32);
    d.Some? && |d.value| == 32
  }

  /** The signed login token for a challenge, or the reason there is none. */
  function LoginClaims(w: Env, challenge: Body, passphrase: string, scope: string, now: int): Option<Claims> {
    var eid, spk, jti := challenge.Text("eid"), challenge.Text("spk"), challenge.Text("jti");
    if eid.None? || spk.None? || jti.None? || !IsKey32(spk.value) then None
    else
      match w.derive(passphrase, eid.value, spk.value)
      case None => None
      case Some(d) =>
        Some(Claims(jti.value, spk.value, now + TOKEN_LIFETIME, now, d.iss, scope, d.shared))
  }

  /** Challenge, derivation, token POST, cache. */
  function AcquireToken(w: Env, s: State, passphrase: string, scope: string, now: int, spent: bool): (a: Acquired)
    ensures a.s.inCheckin == s.inCheckin
    ensures a.rc != Ok ==> a.s.auth == s.auth
    decreases 3, 1
  {
    var c := FetchChallenge(w, s, spent);
    if c.rc != Ok then Acquired(c.rc, "", c.spent, false, c.s)
    else
      var drift := DriftEvident(c.body, now);
      var claims := LoginClaims(w, c.body, passphrase, scope, now);
      if claims.None? then Acquired(Protocol, "", c.spent, drift, SetError(c.s, 0, false))
      else
        var g := RequestJson(w, c.s, POST, TOKEN_PATH, Object(map["auth" := Signed(claims.value)]), None, Default);
        if g.rc != Ok then Acquired(g.rc, "", c.spent, drift, g.s)
        else
          match g.body.Text("token")
          case None => Acquired(Protocol, "", c.spent, drift, SetError(g.s, 200, false))
          case Some(token) =>
            var s1 := Store(g.s, scope, token, CacheExpiry(w, token, now), ByPost);
            var s2 := if s1.auth.value.retain then s1 else Scrub(s1);
            Acquired(Ok, token, c.spent, drift, s2)
  }

  /** The passphrase exchange with its clock-drift recovery. */
  function PassphraseToken(w: Env, s: State, passphrase: string, scope: string, now: int): (t: Token)
    ensures t.s.inCheckin == s.inCheckin
    decreases 3, 2
  {
    var a := AcquireToken(w, ProactiveCheckin(w, s), passphrase, scope, now, false);
    if a.rc == AuthFailed && a.drift && a.s.err.status == 401 && !a.spent && !w.noAutoCheckin && !a.s.inCheckin then
      var c := CheckinRun(w, a.s, Budgeted);
      if c.rc == Ok then
        var b := AcquireToken(w, Tick(c.s), passphrase, scope, w.clock(c.s.ticks), true);
        Token(b.rc, b.token, b.s)
      else Token(AuthFailed, "", SetError(c.s, 401, false))
    else Token(a.rc, a.token, a.s)
  }

  /** Push-confirmation acquisition. */
  function MobileToken(w: Env, s: State, scope: string): (t: Token)
    ensures t.s.inCheckin == s.inCheckin
    decreases 3, 6
  {
    var b := ConfirmBegin(w, ProactiveCheckin(w, s), None, scope, None, None);
    if b.rc != Ok then Token(b.rc, "", b.s)
    else
      var p := ConfirmWait(w, b.s, b.handle.value, w.confirmTimeout);
      if p.rc != Ok then Token(p.rc, "", p.s)
      else
        match Cached(p.s, scope)
        case None => Token(Protocol, "", SetError(p.s, 0, false))
        case Some(e) => Token(Ok, e.token, p.s)
  }

  /** A bearer for the scope: fresh from the cache, or acquired as the session's mode allows. */
  function EnsureToken(w: Env, s: State, scope: string): (t: Token)
    ensures t.s.inCheckin == s.inCheckin
    decreases 4, 0
  {
    var now := w.clock(s.ticks);
    var s1 := Tick(s);
    var e := Cached(s, scope);
    if e.Some? && e.value.exp > now then Token(Ok, e.value.token, s1)
    else if s.auth.Some? && s.auth.value.mobile then MobileToken(w, s1, scope)
    else if s.auth.None? || s.auth.value.passphrase.None? then Token(AuthExpired, "", SetError(s1, 0, false))
    else PassphraseToken(w, s1, s.auth.value.passphrase.value, scope, now)
  }

  // ------------------------------------------------------ session lifecycle

  function Login(w: Env, s: State, passphrase: string): State {
    Note(ClearError(s).(auth := Some(Session(Some(passphrase), !w.noRetention, false, map[]))), LoggedIn)
  }

  function LoginMobile(s: State): State {
    var retain := s.auth.Some? && s.auth.value.retain;
    ClearError(s).(auth := Some(Session(None, retain, true, map[])))
  }

  function Logout(s: State): State {
    ClearError(s).(auth := None)
  }

  // ----------------------------------------------------------------- broker

  function BrokerBase(url: Option<string>): string {
    if url.Some? then url.value else NOTIFY_URL
  }

  /** One broker exchange: never a bearer, always full TLS verification, 2xx handed back whole. */
  function NotifySend(w: Env, s: State, verb: Method, url: Option<string>, subpath: string, body: Body): (a: Attempt)
    ensures a.s.inCheckin == s.inCheckin && a.s.auth == s.auth && a.s.checkinDone == s.checkinDone
  {
    if |BrokerBase(url)| == 0 then Attempt(Arg, 0, NoBody, SetError(s, 0, false))
    else
      var req := Request(verb, BrokerBase(url) + subpath, body, None, Verify, false);
      var o := Outgoing(w, s, req);
      var s' := Dispatch(w, s, req, None);
      if o.Failed? then Attempt(o.rc, 0, NoBody, SetError(s', 0, false))
      else if !o.Success() then Attempt(MapHttpStatus(o.status), o.status, NoBody, SetError(s', o.status, false))
      else Attempt(Ok, o.status, o.body, s')
  }

  function NotifyJson(w: Env, s: State, verb: Method, url: Option<string>, subpath: string, body: Body): (g: Got)
    ensures g.s.inCheckin == s.inCheckin && g.s.auth == s.auth && g.s.checkinDone == s.checkinDone
    ensures g.rc == Ok ==> g.body.Object?
  {
    var a := NotifySend(w, s, verb, url, subpath, body);
    if a.rc != Ok then Got(a.rc, NoBody, a.s)
    else if !a.body.Object? then Got(Protocol, NoBody, SetError(a.s, a.status, false))
    else Got(Ok, a.body, a.s)
  }

  /** A required string member of a reply. */
  function Required(g: Got, key: string): (t: Token)
    ensures t.s == g.s || t.s == SetError(g.s, 200, false)
  {
    if g.rc != Ok then Token(g.rc, "", g.s)
    else
      match g.body.Text(key)
      case None => Token(Protocol, "", SetError(g.s, 200, false))
      case Some(text) => Token(Ok, text, g.s)
  }

  function NotifySession(w: Env, s: State, url: Option<string>): (t: Token)
    ensures t.s.inCheckin == s.inCheckin && t.s.auth == s.auth && t.s.checkinDone == s.checkinDone
  {
    Required(NotifyJson(w, ClearError(s), GET, url, "/session", NoBody), "epk")
  }

  function EventNew(w: Env, s: State, url: Option<string>, authreq: string, epk: string): (t: Token)
    ensures t.s.inCheckin == s.inCheckin && t.s.auth == s.auth && t.s.checkinDone == s.checkinDone
  {
    Required(NotifyJson(w, ClearError(s), POST, url, "/event/new",
                        Object(map["authreq" := Str(authreq), "epk" := Str(epk)])), "eventid")
  }

  function CheckPath(eventid: string): string {
    "/event/check/" + eventid
  }

  /** The three-way poll result; a 202 is an answer, not an error. */
  function EventCheck(w: Env, s: State, url: Option<string>, eventid: string): (c: Check)
    ensures c.s.inCheckin == s.inCheckin && c.s.auth == s.auth && c.s.checkinDone == s.checkinDone
  {
    if |CheckPath(eventid)| >= 160 then Check(Arg, Pending, SetError(s, 0, false))
    else
      var a := NotifySend(w, ClearError(s), GET, url, CheckPath(eventid), NoBody);
      if a.rc != Ok then Check(a.rc, Pending, a.s)
      else if a.status == 202 then Check(Ok, Pending, a.s)
      else if !a.body.Object? then Check(Protocol, Pending, SetError(a.s, a.status, false))
      else if "deny" in a.body.fields then Check(Ok, Denied, a.s)
      else
        match a.body.Text("authreply")
        case None => Check(Protocol, Pending, SetError(a.s, a.status, false))
        case Some(reply) => Check(Ok, Approved(reply), a.s)
  }

  // --------------------------------------------------------- ext endpoints

  /** An unauthenticated ext POST; a 403 may cost one check-in and one retry. */
  function ExtLoginPost(w: Env, s: State, path: string, body: Body): (g: Got)
    ensures g.s.inCheckin == s.inCheckin && g.s.auth == s.auth && g.s.checkinDone == s.checkinDone
    decreases 3, 0
  {
    var g := RequestJson(w, s, POST, path, body, None, Default);
    if g.rc != Ok && g.s.err.status == 403 && !w.noAutoCheckin && !g.s.inCheckin then
      var c := CheckinRun(w, g.s, ExtRecovery);
      if c.rc != Ok then Got(g.rc, NoBody, SetError(c.s, 403, false))
      else RequestJson(w, c.s, POST, path, body, None, Default)
    else g
  }

  predicate IsB64Of32(s: string) {
    43 <= |s| <= 46 &&
    var d := Base64.Decode(Base64.Standard, s, 48);
    d.Some? && |d.value| == 32
  }

  function OptionalField(m: map<string, Field>, key: string, v: Option<string>): map<string, Field> {
    if v.Some? then m[key := Str(v.value)] else m
  }

  function ExtFields(epk: string, scope: string, ctxStr: Option<string>, note: Option<string>): map<string, Field> {
    OptionalField(OptionalField(map["epk" := Str(epk), "scope" := Str(scope)], "ctx", ctxStr), "note", note)
  }

  function ExtRequest(w: Env, s: State, epk: string, scope: string, ctxStr: Option<string>,
        note: Option<string>): (r: ExtReply)
    ensures r.s.inCheckin == s.inCheckin && r.s.auth == s.auth && r.s.checkinDone == s.checkinDone
    decreases 3, 1
  {
    var s1 := ClearError(s);
    if !IsB64Of32(epk) || |scope| > 1023
      || (ctxStr.Some? && !(1 <= |ctxStr.value| <= 64)) || (note.Some? && !(1 <= |note.value| <= 128)) then
      ExtReply(Arg, "", "", SetError(s1, 0, false))
    else
      var fields := ExtFields(epk, scope, ctxStr, note);
      var g := ExtLoginPost(w, s1, EXT_REQUEST_PATH, Object(fields));
      var authreq := Required(g, "authreq");
      if authreq.rc != Ok then ExtReply(authreq.rc, "", "", authreq.s)
      else
        var device := Required(g, "epk");
        ExtReply(device.rc, authreq.token, device.token, device.s)
  }

  /** Redeem an authreply for a bearer. */
  function ExtToken(w: Env, s: State, reply: string): (t: Token)
    ensures t.s.inCheckin == s.inCheckin && t.s.auth == s.auth && t.s.checkinDone == s.checkinDone
    decreases 3, 1
  {
    var s1 := ClearError(s);
    if |reply| == 0 then Token(Arg, "", SetError(s1, 0, false))
    else
      var g := ExtLoginPost(w, s1, EXT_TOKEN_PATH, Object(map["authreply" := Str(reply)]));
      if g.rc != Ok && (g.s.err.status == 401 || g.s.err.status == 406) then
        Token(AuthFailed, "", SetError(g.s, g.s.err.status, false))
      else Required(g, "token")
  }

  // --------------------------------------------------------- confirm engine

  /** Broker session, device authreq, broker push. */
  function FirePush(w: Env, s: State, url: Option<string>, scope: string, ctxStr: Option<string>,
        note: Option<string>): (p: Push)
    ensures p.s.inCheckin == s.inCheckin && p.s.auth == s.auth && p.s.checkinDone == s.checkinDone
    decreases 3, 2
  {
    var session := NotifySession(w, s, url);
    if session.rc != Ok then Push(session.rc, None, "", session.s)
    else
      var r := ExtRequest(w, session.s, session.token, scope, ctxStr, note);
      if r.rc != Ok then Push(r.rc, None, "", r.s)
      else
        var e := EventNew(w, r.s, url, r.authreq, r.epk);
        Push(e.rc, Some(r.authreq), e.token, e.s)
  }

  /** Local and device clocks disagree by more than the broker tolerates. */
  predicate DriftedFromBroker(iat: int, now: int) {
    iat - now > BROKER_FUTURE_SKEW || iat - now < -BROKER_PAST_SKEW
  }

  /** A push refused on clock drift costs one check-in and is fired once more. */
  function PushRecovering(w: Env, s: State, url: Option<string>, scope: string, ctxStr: Option<string>,
        note: Option<string>): (p: Push)
    ensures p.s.inCheckin == s.inCheckin && p.s.auth == s.auth && p.s.checkinDone == s.checkinDone
    decreases 3, 3
  {
    var p := FirePush(w, s, url, scope, ctxStr, note);
    if p.rc != Ok && p.s.err.status == 401 && p.authreq.Some? && !w.noAutoCheckin && !p.s.inCheckin then
      match Claim(w, p.authreq.value, "iat")
      case None => p
      case Some(iat) =>
        var s1 := Tick(p.s);
        if DriftedFromBroker(iat, w.clock(p.s.ticks)) then
          var c := CheckinRun(w, s1, BrokerDrift);
          if c.rc == Ok then FirePush(w, c.s, url, scope, ctxStr, note) else p.(s := c.s)
        else p.(s := s1)
    else p
  }

  function ConfirmBegin(w: Env, s: State, url: Option<string>, scope: string, ctxStr: Option<string>,
        note: Option<string>): (b: Begin)
    ensures b.s.inCheckin == s.inCheckin
    ensures b.rc == Ok <==> b.handle.Some?
    decreases 3, 4
  {
    var p := PushRecovering(w, s, url, scope, ctxStr, note);
    if p.rc != Ok then Begin(p.rc, None, p.s)
    else
      var h := Handle(|p.s.log|, url, scope, p.eventid, false);
      Begin(Ok, Some(h), Note(p.s, Begun(h.id, scope, p.eventid)))
  }

  /** One poll; an approval is redeemed and cached at once. */
  function ConfirmPoll(w: Env, s: State, h: Handle): (p: Polled)
    ensures p.s.inCheckin == s.inCheckin && p.s.checkinDone == s.checkinDone
    decreases 3, 2
  {
    if h.terminal then Polled(Arg, false, h, SetError(s, 0, false))
    else
      var c := EventCheck(w, s, h.url, h.eventid);
      if c.rc != Ok || c.verdict.Pending? then Polled(c.rc, false, h, c.s)
      else if c.verdict.Denied? then
        Polled(UserRejected, false, h.(terminal := true), SetError(Note(c.s, Answered(h.id, None)), 0, false))
      else
        var reply := c.verdict.reply;
        var s1 := Note(Note(c.s, Answered(h.id, Some(reply))), Redeemed(h.id));
        var t := ExtToken(w, s1, reply);
        if t.rc != Ok then Polled(t.rc, false, h.(terminal := true), t.s)
        else Polled(Ok, true, h.(terminal := true), CacheSeed(w, t.s, h.scope, t.token, ByConfirm(h.id)))
  }

  /** Poll, sleep, poll: `elapsed` milliseconds have been slept so far. */
  function WaitFrom(w: Env, s: State, h: Handle, timeout: int, elapsed: nat): (p: Polled)
    ensures p.s.inCheckin == s.inCheckin && p.s.checkinDone == s.checkinDone
    decreases 3, 3, if elapsed < timeout then timeout - elapsed else 0
  {
    var p := ConfirmPoll(w, s, h);
    if p.rc != Ok || p.approved then p
    else if elapsed >= timeout then Polled(ConfirmTimeout, false, p.h, SetError(p.s, 0, false))
    else
      var step := if w.pollInterval > timeout - elapsed then timeout - elapsed else w.pollInterval;
      WaitFrom(w, Note(p.s, Slept(step)), p.h, timeout, elapsed + step)
  }

  function ConfirmWait(w: Env, s: State, h: Handle, timeout: int): (p: Polled)
    ensures p.s.inCheckin == s.inCheckin && p.s.checkinDone == s.checkinDone
    decreases 3, 4
  {
    if timeout <= 0 then Polled(Arg, false, h, s) else WaitFrom(w, s, h, timeout, 0)
  }

  // ----------------------------------- bindings with effects of their own

  predicate EmptySuccess(g: Got) {
    g.rc == Ok || (g.rc == Protocol && g.s.err.status == 200)
  }

  /** Signature verification: the device says "valid" with an empty 200. */
  function VerifySignature(w: Env, s: State, body: Body, scope: string): Got {
    var g := RequestRaw(w, ClearError(s), POST, "/api/crypto/exdsa/verify", body, Some(scope), Default);
    if EmptySuccess(g) then Got(Ok, NoBody, ClearError(g.s)) else g
  }

  /** Reboot and shutdown: every issued token dies with the services. */
  function Restart(w: Env, s: State, path: string, scope: string): Got {
    var g := RequestRaw(w, ClearError(s), GET, path, NoBody, Some(scope), Default);
    if EmptySuccess(g) then Got(Ok, NoBody, ClearError(Invalidate(g.s, None))) else g
  }

  /** Factory reset: the session goes with the configuration. */
  function Wipeout(w: Env, s: State): Got {
    var g := RequestRaw(w, ClearError(s), POST, "/api/system/config", Object(map["wipeout" := Other]),
                        Some("system:config"), Default);
    if EmptySuccess(g) then Got(Ok, NoBody, Logout(g.s)) else g
  }

  // ---------------------------------------------------------------- cipher

  datatype Cipher = Cipher(rc: Rc, iv: Option<seq<byte>>, s: State)

  const IV_LEN: nat := 16

  /** A base64 member of exactly `n` bytes: malformed, absent, or there. */
  function FixedField(body: Body, key: string, n: nat): Option<Option<seq<byte>>> {
    match body.Text(key)
    case None => Some(None)
    case Some(text) =>
      if |text| == 0 then Some(None)
      else
        var d := Base64.Decode(Base64.Standard, text, 32);
        if d.Some? && |d.value| == n then Some(d) else None
  }

  predicate Ciphertext(body: Body) {
    match body.Text("ciphertext")
    case None => false
    case Some(text) =>
      |text| > 0 &&
      var d := Base64.Decode(Base64.Standard, text, |text|);
      d.Some? && |d.value| > 0
  }

  /** One encrypt call over a throwaway byte; only the device's IV matters. */
  function Encrypt(w: Env, s: State, kid: string): (c: Cipher)
    ensures c.iv.Some? ==> c.rc == Ok && |c.iv.value| == IV_LEN
  {
    var body := Object(map["kid" := Str(kid), "alg" := Str("AES128-CBC"), "msg" := Str("AA==")]);
    var scope := "keymgmt:use:" + kid;
    var g := RequestJson(w, ClearError(s), POST, "/api/crypto/cipher/encrypt", body, Some(scope), Default);
    if g.rc != Ok then Cipher(g.rc, None, g.s)
    else
      var iv, tag := FixedField(g.body, "iv", IV_LEN), FixedField(g.body, "tag", 16);
      if !Ciphertext(g.body) || iv.None? || tag.None? then Cipher(Protocol, None, SetError(g.s, 200, false))
      else Cipher(Ok, iv.value, g.s)
  }
}
