/**
 The send bounds are exact: a device, with its cloud and broker, against which one scoped request
 makes all 55 sends in passphrase mode, and all 101 and the polls of two waits in mobile mode, and
 succeeds. It decides by the requests it has seen and nothing else: its certificate looks expired on
 every first dispatch, its clock is off, it refuses every other login, ext request, push and bearer,
 and answers each confirmation at its last poll. The client's clock is read so seldom that every token
 has expired by the next reading.
 */
module WorstCase {
  import opened Options
  import opened Wire
  import opened Engine
  import opened Ledger
  import opened Confirmation
  import opened Requests
  import opened Devices
  import Runs
  import Guarantees

  // ------------------------------------------------------------ the device

  /** The answer to a request, `polls` being the number of polls of a whole wait. */
  function AnswerTo(polls: nat, seen: Seen, req: Request): Outcome {
    if req.tls == Default && !req.renew then Failed(Network, true)
    else
      match KindOf(req)
      case LoginPost => if seen.logins % 2 == 0 then Reply(401, NoBody) else Reply(200, Everything())
      case ExtPost => if seen.exts % 2 == 0 then Reply(403, NoBody) else Reply(200, Everything())
      case EventPost => if seen.pushes % 2 == 0 then Reply(401, NoBody) else Reply(200, Everything())
      case EventPoll => if seen.polls + 1 < polls then Reply(202, NoBody) else Reply(200, Everything())
      case Own => if seen.owns % 2 == 0 then Reply(401, NoBody) else Reply(200, Everything())
      case Plain => Reply(200, Everything())
  }

  const TICK: nat := 4000

  function Worst(timeout: Millis, interval: Millis): Env {
    var polls := Polls(timeout, interval);
    Env(false, true, false, timeout, interval, CLOUD_URL, (log, req) => AnswerTo(polls, SeenIn(log), req),
        n => TICK * (n + 1), bytes => ReadJson(bytes), (a, b, c) => Some(Derived("i", "k")))
  }

  // ------------------------------------------------------- request by request

  ghost predicate IsWorst(w: Env) {
    w == Worst(w.confirmTimeout, w.pollInterval)
  }

  /** The polls of a whole wait. */
  function Waits(w: Env): nat {
    Polls(w.confirmTimeout, w.pollInterval)
  }

  lemma Asks(w: Env, s: State, req: Request)
    requires IsWorst(w)
    ensures Outgoing(w, s, req) == AnswerTo(Waits(w), SeenIn(s.log), req)
  {
    hide AnswerTo, SeenIn, Polls;
  }

  lemma Settings(w: Env)
    requires IsWorst(w)
    ensures !w.noAutoCheckin && w.checkinOnLogin && !w.noRetention && w.checkinUrl == CLOUD_URL
            && (forall n: nat :: w.clock(n) == TICK * (n + 1))
            && (forall a, b, c :: w.derive(a, b, c).Some?) && forall bytes :: w.json(bytes) == ReadJson(bytes)
  {
    hide Polls, AnswerTo;
  }

  /** A leg of the check-in succeeds at its one send. */
  lemma {:induction false} Leg(w: Env, s: State, verb: Method, path: string, body: Body, tls: Tls)
    requires IsWorst(w) && s.inCheckin && tls != Default && (tls == Verify ==> verb == POST && path == CLOUD_URL)
    ensures var g := RequestRaw(w, s, verb, path, body, None, tls);
            Step(s, g.s, Cost(1, 0, 0, 0), SeenIn(s.log)) && g.rc == Ok && g.body == Everything()
  {
    hide Step, SeenIn, Everything, IsWorst, CheckinRun, CLOUD_URL, EVENT_NEW, BROKER_SESSION;
    Settings(w);
    Members();
    Kinds(body);
    var req := Request(verb, path, body, None, tls, false);
    OneSend(w, s, req, None);
    Asks(w, s, req);
    assert DispatchRecovering(w, s, req, None) == Attempt(Ok, 200, Everything(), Dispatch(w, s, req, None));
  }

  lemma {:induction false} ThreeLegs(w: Env, s: State, why: Reason)
    requires IsWorst(w) && !s.inCheckin
    ensures var c := CheckinRun(w, s, why);
            c.rc == Ok && Step(s, c.s, CostOfCheckin(why), SeenIn(s.log))
  {
    hide CostOf, SeenIn, Everything, RequestRaw, IsWorst;
    Settings(w);
    Members();
    OneMore(s.log, CheckinBegan(why));
    var s0 := Note(s.(inCheckin := true), CheckinBegan(why));
    var leg1 := RequestRaw(w, s0, GET, CHECKIN_PATH, NoBody, None, Relax);
    Leg(w, s0, GET, CHECKIN_PATH, NoBody, Relax);
    var leg2 := RequestRaw(w, leg1.s, POST, w.checkinUrl, leg1.body, None, Verify);
    Leg(w, leg1.s, POST, w.checkinUrl, leg1.body, Verify);
    Leg(w, leg2.s, POST, CHECKIN_PATH, leg2.body, Relax);
    var leg3 := RequestJson(w, leg2.s, POST, CHECKIN_PATH, leg2.body, None, Relax);
    assert CheckinRun(w, s, why) == Got(leg3.rc, leg3.body, leg3.s.(inCheckin := false));
  }

  /** Every dispatch in the context's own mode: expired, check-in, and the answer to the resend. */
  lemma {:induction false} FiveSends(w: Env, s: State, req: Request, scope: Option<string>)
    requires IsWorst(w) && !s.inCheckin && req.tls == Default && !req.renew
    ensures var a := DispatchRecovering(w, s, req, scope);
            var again := req.(renew := true);
            && Step(s, a.s, Cost(5, 0, 0, 0), Saw(SeenIn(s.log), again)) && a.rc == Ok
            && Reply(a.status, a.body) == AnswerTo(Waits(w), SeenIn(s.log), again)
  {
    hide CostOf, SeenIn, CheckinRun, Waits;
    var s1 := Dispatch(w, s, req, scope);
    OneSend(w, s, req, scope);
    Asks(w, s, req);
    var c := CheckinRun(w, s1, CertRecovery);
    ThreeLegs(w, s1, CertRecovery);
    var again := req.(renew := true);
    OneSend(w, c.s, again, scope);
    Asks(w, c.s, again);
  }

  /** What a caller makes of a reply. */
  predicate Reads(g: Got, o: Outcome) {
    o.Reply? &&
    if o.status == 200 then g.rc == Ok && g.body == o.body
    else g.rc == MapHttpStatus(o.status) && g.s.err.status == o.status
  }

  lemma {:induction false} FiveUnscoped(w: Env, s: State, verb: Method, path: string, body: Body)
    requires IsWorst(w) && !s.inCheckin
    ensures var g := RequestJson(w, s, verb, path, body, None, Default);
            var again := Request(verb, path, body, None, Default, true);
            && Step(s, g.s, Cost(5, 0, 0, 0), Saw(SeenIn(s.log), again))
            && Reads(g, AnswerTo(Waits(w), SeenIn(s.log), again))
  {
    hide CostOf, SeenIn, IsWorst, DispatchRecovering, Saw, Waits, DeviceKey, Authreq;
    var req := Request(verb, path, body, None, Default, false);
    FiveSends(w, s, req, None);
    var a := DispatchRecovering(w, s, req, None);
    assert RequestRaw(w, s, verb, path, body, None, Default) == Classify(a.s, a.status, a.body);
  }

  // ------------------------------------------------------ passphrase mode

  lemma {:induction false} Challenged(w: Env, s: State, spent: bool)
    requires IsWorst(w) && !s.inCheckin
    ensures var c := FetchChallenge(w, s, spent);
            c == Challenge(Ok, Everything(), spent, c.s) && Step(s, c.s, Cost(5, 0, 0, 0), SeenIn(s.log))
  {
    hide Step, SeenIn, IsWorst, RequestJson, CheckinRun, Waits, DeviceKey;
    FiveUnscoped(w, s, GET, TOKEN_PATH, NoBody);
  }

  /** The login POST: refused, and granted the next time. */
  lemma {:induction false} LoginPosted(w: Env, s: State, body: Body)
    requires IsWorst(w) && !s.inCheckin
    ensures var g := RequestJson(w, s, POST, TOKEN_PATH, body, None, Default);
            var seen := SeenIn(s.log);
            && Step(s, g.s, Cost(5, 0, 0, 0), seen.(logins := seen.logins + 1))
            && (if seen.logins % 2 == 0 then g.rc == AuthFailed && g.s.err.status == 401
                else g.rc == Ok && g.body == Everything())
  {
    hide Step, SeenIn, IsWorst, RequestJson, Waits;
    FiveUnscoped(w, s, POST, TOKEN_PATH, body);
  }

  /** A login attempt the device rejects. */
  lemma {:induction false} RejectedLogin(w: Env, s: State, passphrase: string, scope: string, now: int)
    requires IsWorst(w) && !s.inCheckin && SeenIn(s.log).logins % 2 == 0 && now > 60
    ensures var a := AcquireToken(w, s, passphrase, scope, now, false);
            var seen := SeenIn(s.log);
            && a.rc == AuthFailed && a.drift && !a.spent && a.s.err.status == 401
            && Step(s, a.s, Cost(10, 0, 0, 0), seen.(logins := seen.logins + 1))
  {
    hide CostOf, SeenIn, IsWorst, FetchChallenge, RequestJson, LoginClaims, DriftEvident, Everything, CacheExpiry;
    Settings(w);
    var c := FetchChallenge(w, s, false);
    Challenged(w, s, false);
    ChallengeUsable(w, passphrase, scope, now);
    var claims := LoginClaims(w, Everything(), passphrase, scope, now);
    LoginPosted(w, c.s, Object(map["auth" := Signed(claims.value)]));
  }

  /** A token got at exactly this cost, and nothing else of the session changed; it has expired by now. */
  predicate Granted(w: Env, s: State, s': State, scope: string, cost: Cost, seen: Seen) {
    && s.auth.Some? && s'.auth.Some? && Step(s, s'.(auth := s.auth), cost, seen)
    && s'.auth.value.(cache := map[]) == s.auth.value.(cache := map[])
    && Cached(s', scope).Some? && !FreshHit(w, s', scope)
  }

  /** And the one after the check-in, which it accepts. */
  lemma {:induction false} AcceptedLogin(w: Env, s: State, passphrase: string, scope: string, now: int)
    requires IsWorst(w) && !s.inCheckin && SeenIn(s.log).logins % 2 == 1
    requires s.auth.Some? && s.auth.value.retain && now == TICK * s.ticks
    ensures var a := AcquireToken(w, s, passphrase, scope, now, true);
            var seen := SeenIn(s.log);
            && a.rc == Ok && a.token == "t"
            && Granted(w, s, a.s, scope, Cost(10, 0, 0, 0), seen.(logins := seen.logins + 1))
  {
    hide CostOf, SeenIn, IsWorst, FetchChallenge, RequestJson, LoginClaims, DriftEvident, Everything, CacheExpiry,
         FreshHit, Body.Text, AnswerTo;
    Settings(w);
    Members();
    var c := FetchChallenge(w, s, true);
    Challenged(w, s, true);
    ChallengeUsable(w, passphrase, scope, now);
    var claims := LoginClaims(w, Everything(), passphrase, scope, now);
    var body := Object(map["auth" := Signed(claims.value)]);
    LoginPosted(w, c.s, body);
    var g := RequestJson(w, c.s, POST, TOKEN_PATH, body, None, Default);
    OneMore(g.s.log, Stored(scope, "t", ByPost));
    StoreIsStale(w, g.s, scope, now, s.ticks);
  }

  /** A token kept for an hour from the reading before the last has expired at the next. */
  lemma StoreIsStale(w: Env, s: State, scope: string, now: int, ticks: nat)
    requires IsWorst(w) && now == TICK * ticks && ticks <= s.ticks
    ensures !FreshHit(w, Store(s, scope, "t", CacheExpiry(w, "t", now), ByPost), scope)
  {
    hide IsWorst, Claim;
    Settings(w);
    AuthreqClaims(w);
  }

  // ---------------------------------------------------------- mobile mode

  /** An ext request: refused, and answered after the check-in. */
  lemma {:induction false} ExtAnswered(w: Env, s: State, path: string, body: Body)
    requires IsWorst(w) && !s.inCheckin && path != TOKEN_PATH && SeenIn(s.log).exts % 2 == 0
    ensures var g := ExtLoginPost(w, s, path, body);
            var seen := SeenIn(s.log);
            g.rc == Ok && g.body == Everything() && Step(s, g.s, Cost(13, 0, 1, 0), seen.(exts := seen.exts + 2))
  {
    hide CostOf, SeenIn, RequestJson, CheckinRun, Waits, DeviceKey, Authreq, Polls;
    var g := RequestJson(w, s, POST, path, body, None, Default);
    FiveUnscoped(w, s, POST, path, body);
    var c := CheckinRun(w, g.s, ExtRecovery);
    ThreeLegs(w, g.s, ExtRecovery);
    FiveUnscoped(w, c.s, POST, path, body);
  }

  lemma {:induction false} Authorized(w: Env, s: State, scope: string)
    requires IsWorst(w) && !s.inCheckin && SeenIn(s.log).exts % 2 == 0 && |scope| <= 1023
    ensures var r := ExtRequest(w, s, DeviceKey(), scope, None, None);
            var seen := SeenIn(s.log);
            && r.rc == Ok && r.authreq == Authreq() && r.epk == DeviceKey()
            && Step(s, r.s, Cost(13, 0, 1, 0), seen.(exts := seen.exts + 2))
  {
    hide CostOf, SeenIn, IsWorst, ExtLoginPost, ExtRequest, Everything, ExtFields, IsB64Of32, IsKey32, DeviceKey,
         Authreq;
    KeyDecodes();
    Members();
    var body := Object(ExtFields(DeviceKey(), scope, None, None));
    ExtAnswered(w, ClearError(s), EXT_REQUEST_PATH, body);
    AuthorizedBy(w, s, DeviceKey(), scope, ExtLoginPost(w, ClearError(s), EXT_REQUEST_PATH, body));
  }

  lemma {:induction false} RedeemedForToken(w: Env, s: State)
    requires IsWorst(w) && !s.inCheckin && SeenIn(s.log).exts % 2 == 0
    ensures var t := ExtToken(w, s, "r");
            var seen := SeenIn(s.log);
            t.rc == Ok && t.token == "t" && Step(s, t.s, Cost(13, 0, 1, 0), seen.(exts := seen.exts + 2))
  {
    hide CostOf, SeenIn, IsWorst, ExtLoginPost, Everything, KindOf;
    Members();
    ExtAnswered(w, ClearError(s), EXT_TOKEN_PATH, Object(map["authreply" := Str("r")]));
  }

  /** A broker exchange is one send, read as it is. */
  lemma {:induction false} BrokerSend(w: Env, s: State, verb: Method, subpath: string, body: Body)
    requires IsWorst(w)
    ensures var a := NotifySend(w, s, verb, None, subpath, body);
            var req := Request(verb, NOTIFY_URL + subpath, body, None, Verify, false);
            var o := AnswerTo(Waits(w), SeenIn(s.log), req);
            && Step(s, a.s, Cost(1, 0, 0, 0), Saw(SeenIn(s.log), req))
            && o.Reply?
            && (if o.Success() then a.rc == Ok && a.status == o.status && a.body == o.body
                else a.rc == MapHttpStatus(o.status) && a.s.err.status == o.status)
  {
    hide CostOf, SeenIn, IsWorst, Saw, Waits, DeviceKey, Authreq;
    var req := Request(verb, NOTIFY_URL + subpath, body, None, Verify, false);
    OneSend(w, s, req, None);
    Asks(w, s, req);
  }

  lemma {:induction false} SessionOpened(w: Env, s: State)
    requires IsWorst(w)
    ensures var t := NotifySession(w, s, None);
            t.rc == Ok && t.token == DeviceKey() && Step(s, t.s, Cost(1, 0, 0, 0), SeenIn(s.log))
  {
    hide CostOf, SeenIn, IsWorst, NotifySend, Waits, DeviceKey, Everything, KindOf;
    Members();
    Kinds(NoBody);
    BrokerSend(w, ClearError(s), GET, "/session", NoBody);
  }

  /** The push: refused, and taken the next time. */
  lemma {:induction false} EventPosted(w: Env, s: State, authreq: string, epk: string)
    requires IsWorst(w)
    ensures var t := EventNew(w, s, None, authreq, epk);
            var seen := SeenIn(s.log);
            && Step(s, t.s, Cost(1, 0, 0, 0), seen.(pushes := seen.pushes + 1, polls := 0))
            && (if seen.pushes % 2 == 0 then t.rc == AuthFailed && t.s.err.status == 401
                else t.rc == Ok && t.token == "e")
  {
    hide CostOf, SeenIn, IsWorst, NotifySend, Waits, Everything, KindOf;
    Members();
    var body := Object(map["authreq" := Str(authreq), "epk" := Str(epk)]);
    Kinds(body);
    BrokerSend(w, ClearError(s), POST, "/event/new", body);
  }

  lemma {:induction false} Fired(w: Env, s: State, scope: string)
    requires IsWorst(w) && !s.inCheckin && SeenIn(s.log).exts % 2 == 0 && |scope| <= 1023
    ensures var p := FirePush(w, s, None, scope, None, None);
            var seen := SeenIn(s.log);
            && Step(s, p.s, Cost(15, 0, 1, 0), seen.(exts := seen.exts + 2, pushes := seen.pushes + 1, polls := 0))
            && p.authreq == Some(Authreq())
            && (if seen.pushes % 2 == 0 then p.rc == AuthFailed && p.s.err.status == 401
                else p.rc == Ok && p.eventid == "e")
  {
    hide CostOf, SeenIn, IsWorst, NotifySession, ExtRequest, EventNew, DeviceKey, Authreq;
    var t := NotifySession(w, s, None);
    SessionOpened(w, s);
    var r := ExtRequest(w, t.s, DeviceKey(), scope, None, None);
    Authorized(w, t.s, scope);
    EventPosted(w, r.s, Authreq(), DeviceKey());
  }

  /** Two pushes and the drift check-in between them. */
  lemma {:induction false} Pushed(w: Env, s: State, scope: string)
    requires IsWorst(w) && !s.inCheckin && |scope| <= 1023
    requires SeenIn(s.log).exts % 2 == 0 && SeenIn(s.log).pushes % 2 == 0
    ensures var p := PushRecovering(w, s, None, scope, None, None);
            var seen := SeenIn(s.log);
            && p.rc == Ok && p.eventid == "e"
            && Step(s, p.s, Cost(33, 0, 2, 1), seen.(exts := seen.exts + 4, pushes := seen.pushes + 2, polls := 0))
  {
    hide CostOf, SeenIn, FirePush, CheckinRun, Claim, Authreq, Polls, AnswerTo;
    var p := FirePush(w, s, None, scope, None, None);
    Fired(w, s, scope);
    AuthreqClaims(w);
    var c := CheckinRun(w, Tick(p.s), BrokerDrift);
    ThreeLegs(w, Tick(p.s), BrokerDrift);
    Fired(w, c.s, scope);
  }

  /** A confirmation of the kind begun there. */
  predicate Asked(h: Handle, scope: string) {
    h.url == None && h.scope == scope && h.eventid == "e" && !h.terminal
  }

  lemma {:induction false} Checked(w: Env, s: State)
    requires IsWorst(w)
    ensures var c := EventCheck(w, s, None, "e");
            var seen := SeenIn(s.log);
            && c.rc == Ok && Step(s, c.s, Cost(1, 0, 0, 0), seen.(polls := seen.polls + 1))
            && c.verdict == if seen.polls + 1 < Waits(w) then Pending else Approved("r")
  {
    hide CostOf, SeenIn, IsWorst, NotifySend, EventCheck, Waits, Everything, KindOf;
    CheckReads(w, s);
    Kinds(NoBody);
    BrokerSend(w, ClearError(s), GET, CheckPath("e"), NoBody);
  }

  /** Approved, redeemed, cached. */
  lemma {:induction false} LastPoll(w: Env, s: State, h: Handle, scope: string)
    requires IsWorst(w) && !s.inCheckin && Asked(h, scope) && s.auth.Some?
    requires SeenIn(s.log).exts % 2 == 0 && SeenIn(s.log).polls + 1 >= Waits(w)
    ensures var p := ConfirmPoll(w, s, h);
            var seen := SeenIn(s.log);
            && p.approved
            && Granted(w, s, p.s, scope, Cost(14, 0, 1, 0), seen.(exts := seen.exts + 2, polls := seen.polls + 1))
  {
    hide CostOf, SeenIn, IsWorst, EventCheck, ExtToken, CacheSeed;
    Settings(w);
    var c := EventCheck(w, s, None, "e");
    Checked(w, s);
    var e1, e2 := Answered(h.id, Some("r")), Redeemed(h.id);
    OneMore(c.s.log, e1);
    OneMore(c.s.log + [e1], e2);
    var s1 := Note(Note(c.s, e1), e2);
    var t := ExtToken(w, s1, "r");
    RedeemedForToken(w, s1);
    SeedStores(w, t.s, scope, "t", ByConfirm(h.id));
    SeedIsStale(w, t.s, scope, ByConfirm(h.id));
    OneMore(t.s.log, Stored(scope, "t", ByConfirm(h.id)));
  }

  lemma SeedIsStale(w: Env, s: State, scope: string, source: Source)
    requires IsWorst(w)
    ensures var s' := CacheSeed(w, s, scope, "t", source);
            !FreshHit(w, s', scope) && s.ticks <= s'.ticks
  {
    hide IsWorst, Claim;
    Settings(w);
    AuthreqClaims(w);
  }

  /** A wait is answered at its last poll. */
  lemma {:induction false} WaitedOut(w: Env, s: State, h: Handle, scope: string, elapsed: nat)
    requires IsWorst(w) && !s.inCheckin && Asked(h, scope) && s.auth.Some?
    requires var left := Polls(Left(w.confirmTimeout, elapsed), w.pollInterval);
             SeenIn(s.log).exts % 2 == 0 && SeenIn(s.log).polls + left == Waits(w)
    ensures var left := Polls(Left(w.confirmTimeout, elapsed), w.pollInterval);
            var p := WaitFrom(w, s, h, w.confirmTimeout, elapsed);
            var seen := SeenIn(s.log);
            && p.rc == Ok
            && Granted(w, s, p.s, scope, Cost(left + 13, 0, 1, 0), seen.(exts := seen.exts + 2, polls := Waits(w)))
    decreases Left(w.confirmTimeout, elapsed)
  {
    hide CostOf, SeenIn, IsWorst, EventCheck, ConfirmPoll, Waits;
    var left := Polls(Left(w.confirmTimeout, elapsed), w.pollInterval);
    var p := ConfirmPoll(w, s, h);
    PollRc(w, s, h);
    if left == 1 {
      LastPoll(w, s, h, scope);
    } else {
      Checked(w, s);
      PendingPoll(w, s, h);
      var rest := w.confirmTimeout - elapsed;
      var step := if w.pollInterval > rest then rest else w.pollInterval;
      OneMore(p.s.log, Slept(step));
      WaitedOut(w, Note(p.s, Slept(step)), h, scope, elapsed + step);
    }
  }

  // --------------------------------------------------------- acquisitions

  predicate Even(seen: Seen) {
    seen.logins % 2 == 0 && seen.exts % 2 == 0 && seen.pushes % 2 == 0
  }

  /** What the request finds before each acquisition. */
  predicate Ready(w: Env, s: State, scope: string) {
    && !s.inCheckin && Even(SeenIn(s.log)) && !FreshHit(w, s, scope)
    && s.auth.Some?
    && (if s.auth.value.mobile then |scope| <= 1023 else s.auth.value.passphrase.Some? && s.auth.value.retain)
  }

  function AcquisitionCost(w: Env, mobile: bool, start: nat): Cost {
    if mobile then Cost(start + 46 + Waits(w), 0, 3, 1) else Cost(start + 23, 1, 0, 0)
  }

  /** An acquisition at its full cost, after which everything is ready for the next. */
  predicate Acquired(w: Env, s: State, s': State, scope: string) {
    && SameLogin(s, s') && s'.checkinDone
    && CostOf(s'.log) == Plus(CostOf(s.log), AcquisitionCost(w, s.auth.value.mobile, StartSends(s)))
    && Even(SeenIn(s'.log)) && SeenIn(s'.log).owns == SeenIn(s.log).owns
    && !FreshHit(w, s', scope)
  }

  lemma {:induction false} SessionStarted(w: Env, s: State)
    requires IsWorst(w) && !s.inCheckin
    ensures ProactiveCheckin(w, s).checkinDone
    ensures Step(s.(checkinDone := true), ProactiveCheckin(w, s), Cost(StartSends(s), 0, 0, 0), SeenIn(s.log))
  {
    hide CostOf, SeenIn, CheckinRun, Polls, AnswerTo;
    ThreeLegs(w, s.(checkinDone := true), Proactive);
  }

  /** What the passphrase acquisition adds up to. */
  lemma PassphraseTotals(w: Env, s: State, scope: string, s1: State, a: State, c: State, b: State)
    requires s.auth.Some? && !s.auth.value.mobile && Even(SeenIn(s.log)) && s1.checkinDone
    requires Step(s.(checkinDone := true), s1, Cost(StartSends(s), 0, 0, 0), SeenIn(s.log))
    requires Step(s1, a, Cost(10, 0, 0, 0), SeenIn(s.log).(logins := SeenIn(s.log).logins + 1))
    requires Step(a, c, CostOfCheckin(Budgeted), SeenIn(a.log))
    requires Granted(w, Tick(c), b, scope, Cost(10, 0, 0, 0), SeenIn(c.log).(logins := SeenIn(c.log).logins + 1))
    ensures Acquired(w, s, b, scope)
  {
    hide CostOf, SeenIn, Waits, FreshHit;
  }

  /** Refused, check-in, granted. */
  lemma {:induction false} ByPassphrase(w: Env, s: State, passphrase: string, scope: string, now: int)
    requires IsWorst(w) && Ready(w, s, scope) && !s.auth.value.mobile && now > 60
    ensures var t := PassphraseToken(w, s, passphrase, scope, now);
            t.rc == Ok && Acquired(w, s, t.s, scope)
  {
    hide CostOf, SeenIn, Plus, IsWorst, ProactiveCheckin, AcquireToken, CheckinRun, AcquisitionCost, Acquired, FreshHit;
    Settings(w);
    var s1 := ProactiveCheckin(w, s);
    SessionStarted(w, s);
    var a := AcquireToken(w, s1, passphrase, scope, now, false);
    RejectedLogin(w, s1, passphrase, scope, now);
    var c := CheckinRun(w, a.s, Budgeted);
    ThreeLegs(w, a.s, Budgeted);
    var later := w.clock(c.s.ticks);
    AcceptedLogin(w, Tick(c.s), passphrase, scope, later);
    PassphraseTotals(w, s, scope, s1, a.s, c.s, AcquireToken(w, Tick(c.s), passphrase, scope, later, true).s);
  }

  /** Two pushes, a wait to its last poll, and its redemption. */
  lemma {:induction false} ByConfirmation(w: Env, s: State, scope: string)
    requires IsWorst(w) && Ready(w, s, scope) && s.auth.value.mobile
    ensures var t := MobileToken(w, s, scope);
            t.rc == Ok && Acquired(w, s, t.s, scope)
  {
    hide CostOf, SeenIn, IsWorst, ProactiveCheckin, PushRecovering, WaitFrom, Polls, FreshHit;
    var s1 := ProactiveCheckin(w, s);
    SessionStarted(w, s);
    var p := PushRecovering(w, s1, None, scope, None, None);
    Pushed(w, s1, scope);
    var h := Handle(|p.s.log|, None, scope, "e", false);
    var s2 := Note(p.s, Begun(h.id, scope, "e"));
    OneMore(p.s.log, Begun(h.id, scope, "e"));
    assert ConfirmBegin(w, s1, None, scope, None, None) == Begin(Ok, Some(h), s2);
    assert Waits(w) == Polls(Left(w.confirmTimeout, 0), w.pollInterval);
    WaitedOut(w, s2, h, scope, 0);
  }

  /** One acquisition at its full cost, in either mode. */
  lemma {:induction false} Acquires(w: Env, s: State, scope: string)
    requires IsWorst(w) && Ready(w, s, scope)
    ensures var t := EnsureToken(w, s, scope);
            t.rc == Ok && Acquired(w, s, t.s, scope)
  {
    hide CostOf, SeenIn, IsWorst, MobileToken, PassphraseToken, AcquisitionCost;
    Settings(w);
    if s.auth.value.mobile {
      ByConfirmation(w, Tick(s), scope);
    } else {
      ByPassphrase(w, Tick(s), s.auth.value.passphrase.value, scope, w.clock(s.ticks));
    }
  }

  // --------------------------------------------------------- whole request

  /** Ready for a whole request. */
  predicate Set(w: Env, s: State, scope: string) {
    Ready(w, s, scope) && SeenIn(s.log).owns % 2 == 0
  }

  function RequestSends(w: Env, s: State): nat
    requires s.auth.Some?
  {
    StartSends(s) + 6 + 2 * AcquisitionCost(w, s.auth.value.mobile, 0).sends
  }

  /**
   * Acquire, be rejected after a certificate recovery, acquire again, be served; then everything is
   * ready for the next request.
   */
  lemma {:induction false} WholeRequest(w: Env, s: State, verb: Method, path: string, body: Body, scope: string)
    requires IsWorst(w) && Set(w, s, scope)
    ensures var g := RequestRaw(w, s, verb, path, body, Some(scope), Default);
            && g.rc == Ok && g.body == Everything()
            && Usage(g.s.log).sends == Usage(s.log).sends + RequestSends(w, s)
            && SameLogin(s, g.s) && Set(w, g.s, scope) && g.s.checkinDone
  {
    hide CostOf, IsWorst, EnsureToken, DispatchRecovering, RetryRejected, SeenIn, Even, Everything, FreshHit,
         AcquisitionCost, Usage;
    var t := EnsureToken(w, s, scope);
    var req := Request(verb, path, body, Some(t.token), Default, false);
    Members();
    RejectedFirst(w, s, req, scope);
    ServedAtLast(w, DispatchRecovering(w, t.s, req, Some(scope)).s, req, scope);
  }

  /** The first dispatch, a certificate recovery included, and its 401. */
  lemma {:induction false} RejectedFirst(w: Env, s: State, req: Request, scope: string)
    requires IsWorst(w) && Set(w, s, scope)
    requires req.bearer == Some(EnsureToken(w, s, scope).token) && req.tls == Default && !req.renew
    ensures var t := EnsureToken(w, s, scope);
            var a := DispatchRecovering(w, t.s, req, Some(scope));
            && t.rc == Ok && a == Attempt(Ok, 401, NoBody, a.s)
            && Usage(a.s.log).sends
               == Usage(s.log).sends + StartSends(s) + AcquisitionCost(w, s.auth.value.mobile, 0).sends + 5
            && SameLogin(s, a.s) && a.s.checkinDone
            && Ready(w, Invalidate(a.s, Some(scope)), scope) && SeenIn(a.s.log).owns % 2 == 1
  {
    hide Usage, Checkins, IsWorst, EnsureToken, DispatchRecovering, Polls, Saw, SeenIn, Everything, FreshHit;
    var t := EnsureToken(w, s, scope);
    Acquires(w, s, scope);
    var a := DispatchRecovering(w, t.s, req, Some(scope));
    FiveSends(w, t.s, req, Some(scope));
    OwnSeen(SeenIn(t.s.log), req.(renew := true));
    DroppedIsNotFresh(w, a.s, scope);
  }

  /** The retry: an acquisition and one dispatch, which is served. */
  lemma {:induction false} ServedAtLast(w: Env, s: State, req: Request, scope: string)
    requires IsWorst(w) && s.checkinDone && SeenIn(s.log).owns % 2 == 1
    requires Ready(w, Invalidate(s, Some(scope)), scope)
    ensures var a := RetryRejected(w, s, req, scope);
            && a == Attempt(Ok, 200, Everything(), a.s)
            && Usage(a.s.log).sends == Usage(s.log).sends + AcquisitionCost(w, s.auth.value.mobile, 0).sends + 1
            && SameLogin(s, a.s) && Set(w, a.s, scope) && a.s.checkinDone
  {
    hide Usage, Checkins, IsWorst, EnsureToken, Polls, Saw, SeenIn, Everything, FreshHit;
    var s1 := Invalidate(s, Some(scope));
    Acquires(w, s1, scope);
    var t := EnsureToken(w, s1, scope);
    var again := req.(bearer := Some(t.token), renew := true);
    OwnSeen(SeenIn(t.s.log), again);
    OneSend(w, t.s, again, Some(scope));
    Asks(w, t.s, again);
    NothingFresher(w, t.s, Dispatch(w, t.s, again, Some(scope)), scope);
  }

  lemma OwnSeen(seen: Seen, req: Request)
    requires req.bearer.Some? && req.renew
    ensures Saw(seen, req) == seen.(owns := seen.owns + 1)
  {
  }

  lemma LoginSet(w: Env, s: State, passphrase: string, scope: string)
    requires s.log == [] && !s.inCheckin && !s.checkinDone && !w.noRetention
    ensures var s' := Login(w, s, passphrase);
            Set(w, s', scope) && !s'.checkinDone && !s'.auth.value.mobile
  {
    hide Saw, CostOf;
    assert SeenIn(s.log) == Seen(0, 0, 0, 0, 0);
    OneMore(s.log, LoggedIn);
    hide SeenIn;
  }

  lemma {:induction false} AfterLogin(w: Env, passphrase: string, scope: string)
    requires !w.noRetention
    ensures var s := Guarantees.Reached(w, [Runs.DoLogin(passphrase)]);
            Set(w, s, scope) && !s.checkinDone && !s.auth.value.mobile
  {
    hide Guarantees.Reached, Set, Login;
    AfterOneCall(w, Runs.DoLogin(passphrase));
    LoginSet(w, Runs.Start().s, passphrase, scope);
  }

  lemma {:induction false} AfterMobileLogin(w: Env, scope: string)
    requires |scope| <= 1023
    ensures var s := Guarantees.Reached(w, [Runs.DoLoginMobile]);
            Set(w, s, scope) && !s.checkinDone && s.auth.value.mobile
  {
    hide Guarantees.Reached;
    AfterOneCall(w, Runs.DoLoginMobile);
  }

  /** One scoped request after a login: 26 + 5 + 23 + 1. */
  lemma {:induction false} FiftyFiveSends(timeout: Millis, interval: Millis, passphrase: string, verb: Method,
        path: string, body: Body, scope: string)
    ensures var w := Worst(timeout, interval);
            var s := Guarantees.Reached(w, [Runs.DoLogin(passphrase)]);
            var g := RequestRaw(w, s, verb, path, body, Some(scope), Default);
            g.rc == Ok && Usage(g.s.log).sends == Usage(s.log).sends + 55
  {
    hide RequestRaw, Usage, Set, AnswerTo, Guarantees.Reached;
    var w := Worst(timeout, interval);
    AfterLogin(w, passphrase, scope);
    WholeRequest(w, Guarantees.Reached(w, [Runs.DoLogin(passphrase)]), verb, path, body, scope);
  }

  /** One scoped request after a mobile login, whatever the timeout and the interval. */
  lemma {:induction false} MobileBoundIsReached(timeout: Millis, interval: Millis, verb: Method, path: string,
        body: Body, scope: string)
    requires |scope| <= 1023
    ensures var w := Worst(timeout, interval);
            var s := Guarantees.Reached(w, [Runs.DoLoginMobile]);
            var g := RequestRaw(w, s, verb, path, body, Some(scope), Default);
            g.rc == Ok && Usage(g.s.log).sends == Usage(s.log).sends + 101 + 2 * Polls(timeout, interval)
  {
    hide RequestRaw, Usage, Set, AnswerTo, Guarantees.Reached;
    var w := Worst(timeout, interval);
    AfterMobileLogin(w, scope);
    WholeRequest(w, Guarantees.Reached(w, [Runs.DoLoginMobile]), verb, path, body, scope);
  }

  /** One mobile acquisition can make all four of its recovery check-ins: three after a 403, one on drift. */
  lemma {:induction false} FourRecoveries(timeout: Millis, interval: Millis, scope: string)
    requires |scope| <= 1023
    ensures var w := Worst(timeout, interval);
            var s := Guarantees.Reached(w, [Runs.DoLoginMobile]);
            var s' := EnsureToken(w, s, scope).s;
            && Checkins(s'.log, ExtRecovery) == Checkins(s.log, ExtRecovery) + 3
            && Checkins(s'.log, BrokerDrift) == Checkins(s.log, BrokerDrift) + 1
            && Usage(s'.log).sends == Usage(s.log).sends + 49 + Polls(timeout, interval)
  {
    hide EnsureToken, Usage, Checkins, Ready, AnswerTo, Guarantees.Reached;
    var w := Worst(timeout, interval);
    AfterMobileLogin(w, scope);
    Acquires(w, Guarantees.Reached(w, [Runs.DoLoginMobile]), scope);
  }
}
