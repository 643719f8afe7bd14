/**
 A device that grants every login and every confirmation, never recovers anything, and rejects
 bearers: all of them, or only the first of each request. It reaches the send bounds that hold with
 automatic check-ins off, and shows what becomes of a token that was rejected twice.
 */
module Rejecting {
  import opened Options
  import opened Wire
  import opened Engine
  import opened Ledger
  import opened Acquisition
  import opened Confirmation
  import opened Requests
  import opened Devices
  import Runs
  import Guarantees

  /** `always`: no bearer is accepted at all; otherwise the one on a fresh connection is. */
  function AnswerTo(polls: nat, always: bool, seen: Seen, req: Request): Outcome {
    if req.bearer.Some? && (always || !req.renew) then Reply(401, NoBody)
    else if KindOf(req) == EventPoll && seen.polls + 1 < polls then Reply(202, NoBody)
    else Reply(200, Everything())
  }

  /** The clock moves on by this much between two readings. */
  function Patient(off: bool, always: bool, tick: nat, timeout: Millis, interval: Millis): Env {
    var polls := Polls(timeout, interval);
    Env(off, true, false, timeout, interval, CLOUD_URL, (log, req) => AnswerTo(polls, always, SeenIn(log), req),
        n => tick * n, bytes => ReadJson(bytes), (a, b, c) => Some(Derived("i", "k")))
  }

  function Waits(w: Env): nat {
    Polls(w.confirmTimeout, w.pollInterval)
  }

  ghost predicate Serves(w: Env, always: bool, tick: nat) {
    && w.checkinOnLogin && !w.noRetention && w.checkinUrl == CLOUD_URL
    && (forall log: History, req: Request :: w.device(log, req) == AnswerTo(Waits(w), always, SeenIn(log), req))
    && (forall n: nat :: w.clock(n) == tick * n)
    && (forall bytes :: w.json(bytes) == ReadJson(bytes))
    && (forall a, b, c :: w.derive(a, b, c).Some?)
  }

  lemma PatientServes(off: bool, always: bool, tick: nat, timeout: Millis, interval: Millis)
    ensures Serves(Patient(off, always, tick, timeout, interval), always, tick)
  {
    hide AnswerTo, SeenIn, Polls, ReadJson;
  }

  // ------------------------------------------------------- request by request

  /** A dispatch is answered at once. */
  lemma {:induction false} OneDispatch(w: Env, always: bool, tick: nat, s: State, req: Request, scope: Option<string>)
    requires Serves(w, always, tick)
    ensures var o := AnswerTo(Waits(w), always, SeenIn(s.log), req);
            var s' := Dispatch(w, s, req, scope);
            && o == Outgoing(w, s, req) && o.Reply?
            && DispatchRecovering(w, s, req, scope) == Attempt(Ok, o.status, o.body, s')
            && Step(s, s', Cost(1, 0, 0, 0), Saw(SeenIn(s.log), req))
  {
    hide Step, SeenIn, Saw, Everything, KindOf, CheckinRun;
    OneSend(w, s, req, scope);
  }

  lemma {:induction false} OneUnscoped(w: Env, always: bool, tick: nat, s: State, verb: Method, path: string,
        body: Body, tls: Tls)
    requires Serves(w, always, tick) && KindOf(Request(verb, path, body, None, tls, false)) == Plain
    ensures var g := RequestJson(w, s, verb, path, body, None, tls);
            && g == RequestRaw(w, s, verb, path, body, None, tls)
            && g.rc == Ok && g.body == Everything() && Step(s, g.s, Cost(1, 0, 0, 0), SeenIn(s.log))
  {
    hide Step, SeenIn, Everything, KindOf, DispatchRecovering, Serves;
    Members();
    OneDispatch(w, always, tick, s, Request(verb, path, body, None, tls, false), None);
  }

  lemma {:induction false} SessionStarted(w: Env, always: bool, tick: nat, s: State)
    requires Serves(w, always, tick) && !s.inCheckin
    ensures ProactiveCheckin(w, s).checkinDone
    ensures Step(s.(checkinDone := true), ProactiveCheckin(w, s), Cost(StartSends(s), 0, 0, 0), SeenIn(s.log))
  {
    hide CostOf, SeenIn, Everything, RequestRaw, RequestJson, CLOUD_URL, KindOf;
    var s0 := Note(s.(checkinDone := true, inCheckin := true), CheckinBegan(Proactive));
    OneMore(s.log, CheckinBegan(Proactive));
    PlainLegs(Everything());
    var leg1 := RequestRaw(w, s0, GET, CHECKIN_PATH, NoBody, None, Relax);
    OneUnscoped(w, always, tick, s0, GET, CHECKIN_PATH, NoBody, Relax);
    var leg2 := RequestRaw(w, leg1.s, POST, CLOUD_URL, leg1.body, None, Verify);
    OneUnscoped(w, always, tick, leg1.s, POST, CLOUD_URL, leg1.body, Verify);
    OneUnscoped(w, always, tick, leg2.s, POST, CHECKIN_PATH, leg2.body, Relax);
  }

  lemma PlainLegs(body: Body)
    ensures KindOf(Request(GET, CHECKIN_PATH, NoBody, None, Relax, false)) == Plain
    ensures KindOf(Request(POST, CLOUD_URL, body, None, Verify, false)) == Plain
    ensures KindOf(Request(POST, CHECKIN_PATH, body, None, Relax, false)) == Plain
  {
    Kinds(body);
    hide CLOUD_URL, CHECKIN_PATH;
  }

  lemma PlainDefault(verb: Method, path: string, body: Body)
    ensures KindOf(Request(verb, path, body, None, Default, false)) == Plain
  {
  }

  // ------------------------------------------------------ passphrase mode

  predicate CanLogIn(s: State) {
    s.auth.Some? && !s.auth.value.mobile && s.auth.value.passphrase.Some? && s.auth.value.retain
  }

  lemma {:induction false} LoggedInOnce(w: Env, always: bool, tick: nat, s: State, passphrase: string, scope: string,
        now: int)
    requires Serves(w, always, tick) && CanLogIn(s)
    ensures var a := AcquireToken(w, s, passphrase, scope, now, false);
            && a.rc == Ok && a.token == "t" && SameLogin(s, a.s)
            && Step(s, a.s.(auth := s.auth), Cost(2, 0, 0, 0), SeenIn(s.log))
            && Cached(a.s, scope) == Some(Bearer("t", now + 3540))
  {
    hide CostOf, SeenIn, Everything, KindOf, RequestJson, CheckinRun, LoginClaims, DriftEvident, Serves, CacheExpiry,
         Body.Text;
    Members();
    NoExpiry(w, always, tick, scope, now);
    PlainDefault(GET, TOKEN_PATH, NoBody);
    OneUnscoped(w, always, tick, s, GET, TOKEN_PATH, NoBody, Default);
    var c := FetchChallenge(w, s, false);
    assert c == Challenge(Ok, Everything(), false, c.s);
    Derives(w, always, tick, passphrase, scope, now);
    var claims := LoginClaims(w, Everything(), passphrase, scope, now);
    var body := Object(map["auth" := Signed(claims.value)]);
    PlainDefault(POST, TOKEN_PATH, body);
    OneUnscoped(w, always, tick, c.s, POST, TOKEN_PATH, body, Default);
    var g := RequestJson(w, c.s, POST, TOKEN_PATH, body, None, Default);
    OneMore(g.s.log, Stored(scope, "t", ByPost));
  }

  lemma Derives(w: Env, always: bool, tick: nat, passphrase: string, scope: string, now: int)
    requires Serves(w, always, tick)
    ensures LoginClaims(w, Everything(), passphrase, scope, now).Some?
  {
    ChallengeUsable(w, passphrase, scope, now);
  }

  lemma NoExpiry(w: Env, always: bool, tick: nat, scope: string, now: int)
    requires Serves(w, always, tick)
    ensures Claim(w, "t", "exp").None? && CacheExpiry(w, "t", now) == now + 3540
  {
    hide Claim;
    AuthreqClaims(w);
  }

  // ---------------------------------------------------------- mobile mode

  /** A broker exchange is one send, answered with everything unless it is an early poll. */
  lemma {:induction false} BrokerSend(w: Env, always: bool, tick: nat, s: State, verb: Method, subpath: string,
        body: Body)
    requires Serves(w, always, tick)
    ensures var a := NotifySend(w, s, verb, None, subpath, body);
            var req := Request(verb, NOTIFY_URL + subpath, body, None, Verify, false);
            && Step(s, a.s, Cost(1, 0, 0, 0), Saw(SeenIn(s.log), req))
            && a.rc == Ok
            && (if KindOf(req) == EventPoll && SeenIn(s.log).polls + 1 < Waits(w) then a.status == 202
                else a.status == 200 && a.body == Everything())
  {
    hide CostOf, SeenIn, Serves, Saw, KindOf, Everything;
    OneDispatch(w, always, tick, s, Request(verb, NOTIFY_URL + subpath, body, None, Verify, false), None);
  }

  lemma {:induction false} Pushed(w: Env, always: bool, tick: nat, s: State, scope: string)
    requires Serves(w, always, tick) && |scope| <= 1023
    ensures var p := PushRecovering(w, s, None, scope, None, None);
            && p.rc == Ok && p.eventid == "e"
            && CostOf(p.s.log) == Plus(CostOf(s.log), Cost(3, 0, 0, 0)) && SeenIn(p.s.log).polls == 0
            && p.s.ticks >= s.ticks
  {
    hide CostOf, SeenIn, Serves, NotifySend, ExtRequest, ExtLoginPost, Everything, KindOf, CheckinRun, IsB64Of32,
         IsKey32, ExtFields, DeviceKey, Authreq, Body.Text;
    Members();
    KeyDecodes();
    Kinds(NoBody);
    BrokerSend(w, always, tick, ClearError(s), GET, "/session", NoBody);
    var t := NotifySession(w, s, None);
    assert t.rc == Ok && t.token == DeviceKey();
    var fields := Object(ExtFields(t.token, scope, None, None));
    ExtServed(w, always, tick, ClearError(t.s), EXT_REQUEST_PATH, fields);
    AuthorizedBy(w, t.s, t.token, scope, ExtLoginPost(w, ClearError(t.s), EXT_REQUEST_PATH, fields));
    var r := ExtRequest(w, t.s, t.token, scope, None, None);
    var event := Object(map["authreq" := Str(r.authreq), "epk" := Str(r.epk)]);
    Kinds(event);
    BrokerSend(w, always, tick, ClearError(r.s), POST, "/event/new", event);
    assert FirePush(w, s, None, scope, None, None).rc == Ok;
  }

  lemma {:induction false} ExtServed(w: Env, always: bool, tick: nat, s: State, path: string, body: Body)
    requires Serves(w, always, tick)
    ensures var g := ExtLoginPost(w, s, path, body);
            g.rc == Ok && g.body == Everything() && Step(s, g.s, Cost(1, 0, 0, 0), SeenIn(s.log))
  {
    hide Step, SeenIn, Serves, Everything, KindOf, RequestJson, CheckinRun;
    PlainDefault(POST, path, body);
    OneUnscoped(w, always, tick, s, POST, path, body, Default);
  }

  predicate Asked(h: Handle, scope: string) {
    h.url == None && h.scope == scope && h.eventid == "e" && !h.terminal
  }

  lemma {:induction false} Checked(w: Env, always: bool, tick: nat, s: State)
    requires Serves(w, always, tick)
    ensures var c := EventCheck(w, s, None, "e");
            var seen := SeenIn(s.log);
            && c.rc == Ok && Step(s, c.s, Cost(1, 0, 0, 0), seen.(polls := seen.polls + 1))
            && c.verdict == if seen.polls + 1 < Waits(w) then Pending else Approved("r")
  {
    hide CostOf, SeenIn, Serves, NotifySend, EventCheck, Waits, Everything, KindOf;
    CheckReads(w, s);
    Kinds(NoBody);
    BrokerSend(w, always, tick, ClearError(s), GET, CheckPath("e"), NoBody);
  }

  /** A token got by a confirmation: this many sends, kept for an hour from the last reading. */
  predicate Granted(w: Env, s: State, s': State, scope: string, sends: nat) {
    && CostOf(s'.log) == Plus(CostOf(s.log), Cost(sends, 0, 0, 0))
    && SameLogin(s, s') && s'.checkinDone == s.checkinDone && s.ticks < s'.ticks
    && Cached(s', scope) == Some(Bearer("t", w.clock(s'.ticks - 1) + 3540))
  }

  lemma {:induction false} LastPoll(w: Env, always: bool, tick: nat, s: State, h: Handle, scope: string)
    requires Serves(w, always, tick) && Asked(h, scope) && s.auth.Some? && SeenIn(s.log).polls + 1 >= Waits(w)
    ensures var p := ConfirmPoll(w, s, h);
            p.approved && p.rc == Ok && Granted(w, s, p.s, scope, 2)
  {
    hide CostOf, SeenIn, Serves, EventCheck, ExtLoginPost, Everything, Claim, CacheExpiry, Body.Text;
    Members();
    var c := EventCheck(w, s, None, "e");
    Checked(w, always, tick, s);
    var e1, e2 := Answered(h.id, Some("r")), Redeemed(h.id);
    OneMore(c.s.log, e1);
    OneMore(c.s.log + [e1], e2);
    var s1 := Note(Note(c.s, e1), e2);
    ExtServed(w, always, tick, ClearError(s1), EXT_TOKEN_PATH, Object(map["authreply" := Str("r")]));
    var t := ExtToken(w, s1, "r");
    assert t.rc == Ok && t.token == "t";
    NoExpiry(w, always, tick, scope, w.clock(t.s.ticks));
    OneMore(t.s.log, Stored(scope, "t", ByConfirm(h.id)));
  }

  lemma {:induction false} WaitedOut(w: Env, always: bool, tick: nat, s: State, h: Handle, scope: string, elapsed: nat)
    requires Serves(w, always, tick) && Asked(h, scope) && s.auth.Some?
    requires SeenIn(s.log).polls + Polls(Left(w.confirmTimeout, elapsed), w.pollInterval) == Waits(w)
    ensures var p := WaitFrom(w, s, h, w.confirmTimeout, elapsed);
            && p.rc == Ok
            && Granted(w, s, p.s, scope, Polls(Left(w.confirmTimeout, elapsed), w.pollInterval) + 1)
    decreases Left(w.confirmTimeout, elapsed)
  {
    hide CostOf, SeenIn, Serves, EventCheck, ConfirmPoll, Waits;
    var left := Polls(Left(w.confirmTimeout, elapsed), w.pollInterval);
    var p := ConfirmPoll(w, s, h);
    if left == 1 {
      LastPoll(w, always, tick, s, h, scope);
    } else {
      Checked(w, always, tick, s);
      PendingPoll(w, s, h);
      var rest := w.confirmTimeout - elapsed;
      var step := if w.pollInterval > rest then rest else w.pollInterval;
      OneMore(p.s.log, Slept(step));
      WaitedOut(w, always, tick, Note(p.s, Slept(step)), h, scope, elapsed + step);
    }
  }

  // --------------------------------------------------------- acquisitions

  /** Something to acquire a token with. */
  predicate CanAcquire(s: State, scope: string) {
    && !s.inCheckin && s.auth.Some?
    && (if s.auth.value.mobile then |scope| <= 1023 else s.auth.value.passphrase.Some? && s.auth.value.retain)
  }

  function AcquisitionSends(w: Env, s: State): nat
    requires s.auth.Some?
  {
    if s.auth.value.mobile then 4 + Waits(w) else 2
  }

  /** A token kept for an hour from the first or the last reading of the clock since. */
  predicate Acquired(w: Env, s: State, s': State, scope: string) {
    && SameLogin(s, s') && s'.checkinDone && s.ticks < s'.ticks
    && CostOf(s'.log) == Plus(CostOf(s.log), Cost(StartSends(s) + AcquisitionSends(w, s), 0, 0, 0))
    && Cached(s', scope).Some? && Cached(s', scope).value.token == "t"
    && (Cached(s', scope).value.exp == w.clock(s.ticks) + 3540
        || Cached(s', scope).value.exp == w.clock(s'.ticks - 1) + 3540)
  }

  lemma {:induction false} ByPassphrase(w: Env, always: bool, tick: nat, s: State, scope: string)
    requires Serves(w, always, tick) && CanAcquire(s, scope) && !s.auth.value.mobile
    ensures var t := PassphraseToken(w, Tick(s), s.auth.value.passphrase.value, scope, w.clock(s.ticks));
            t.rc == Ok && t.token == "t" && Acquired(w, s, t.s, scope)
  {
    hide CostOf, SeenIn, Serves, ProactiveCheckin, AcquireToken, CheckinRun;
    var s1 := ProactiveCheckin(w, Tick(s));
    SessionStarted(w, always, tick, Tick(s));
    LoggedInOnce(w, always, tick, s1, s.auth.value.passphrase.value, scope, w.clock(s.ticks));
  }

  lemma {:induction false} ByConfirmation(w: Env, always: bool, tick: nat, s: State, scope: string)
    requires Serves(w, always, tick) && CanAcquire(s, scope) && s.auth.value.mobile
    ensures var t := MobileToken(w, Tick(s), scope);
            t.rc == Ok && t.token == "t" && Acquired(w, s, t.s, scope)
  {
    hide CostOf, SeenIn, Serves, ProactiveCheckin, PushRecovering, WaitFrom, Polls;
    var s1 := ProactiveCheckin(w, Tick(s));
    SessionStarted(w, always, tick, Tick(s));
    var p := PushRecovering(w, s1, None, scope, None, None);
    Pushed(w, always, tick, s1, scope);
    var h := Handle(|p.s.log|, None, scope, "e", false);
    var s2 := Note(p.s, Begun(h.id, scope, "e"));
    OneMore(p.s.log, Begun(h.id, scope, "e"));
    assert ConfirmBegin(w, s1, None, scope, None, None) == Begin(Ok, Some(h), s2);
    assert Waits(w) == Polls(Left(w.confirmTimeout, 0), w.pollInterval);
    WaitedOut(w, always, tick, s2, h, scope, 0);
  }

  lemma {:induction false} Acquires(w: Env, always: bool, tick: nat, s: State, scope: string)
    requires Serves(w, always, tick) && CanAcquire(s, scope) && !FreshHit(w, s, scope)
    ensures var t := EnsureToken(w, s, scope);
            t.rc == Ok && t.token == "t" && Acquired(w, s, t.s, scope)
  {
    hide CostOf, SeenIn, Serves, MobileToken, PassphraseToken, Acquired;
    if s.auth.value.mobile {
      ByConfirmation(w, always, tick, s, scope);
    } else {
      ByPassphrase(w, always, tick, s, scope);
    }
  }

  // --------------------------------------------------------- whole request

  predicate Set(w: Env, s: State, scope: string) {
    CanAcquire(s, scope) && !FreshHit(w, s, scope)
  }

  function RequestSends(w: Env, s: State): nat
    requires s.auth.Some?
  {
    StartSends(s) + 2 * AcquisitionSends(w, s) + 2
  }

  /** What a whole request comes to. */
  predicate Requested(w: Env, always: bool, s: State, g: Got, scope: string) {
    && s.auth.Some? && SameLogin(s, g.s) && g.s.checkinDone
    && Usage(g.s.log).sends == Usage(s.log).sends + RequestSends(w, s)
    && |g.s.log| > 0 && Last(g.s.log).Sent? && Last(g.s.log).scope == Some(scope)
    && Last(g.s.log).req.bearer == Some("t")
    && (if always then g.rc == AuthFailed && g.s.err.status == 401 && Last(g.s.log).out == Reply(401, NoBody)
        else g.rc == Ok && g.body == Everything())
    && Cached(g.s, scope).Some? && Cached(g.s, scope).value.token == "t"
  }

  /** Acquire, be rejected, acquire again, be rejected again or served. */
  lemma {:induction false} WholeRequest(w: Env, always: bool, tick: nat, s: State, verb: Method, path: string,
        body: Body, scope: string)
    requires Serves(w, always, tick) && Set(w, s, scope)
    ensures var g := RequestRaw(w, s, verb, path, body, Some(scope), Default);
            && Requested(w, always, s, g, scope)
            && (tick == 0 ==> FreshHit(w, g.s, scope))
            && (tick == 4000 ==> Set(w, g.s, scope))
  {
    hide Serves, EnsureToken, DispatchRecovering, RetryRejected, SeenIn, Everything, FreshHit, Step, Acquired, Usage,
         Checkins, AnswerTo, CostOf, Polls;
    Members();
    var t := EnsureToken(w, s, scope);
    Acquires(w, always, tick, s, scope);
    var req := Request(verb, path, body, Some("t"), Default, false);
    RejectedFirst(w, always, tick, s, t.s, req, scope);
    var a := DispatchRecovering(w, t.s, req, Some(scope));
    AnsweredLast(w, always, tick, a.s, req, scope);
    var b := RetryRejected(w, a.s, req, scope);
    var g := RequestRaw(w, s, verb, path, body, Some(scope), Default);
    assert g == Classify(b.s, b.status, b.body);
    NothingFresher(w, b.s, g.s, scope);
  }

  lemma {:induction false} RejectedFirst(w: Env, always: bool, tick: nat, s: State, s1: State, req: Request,
        scope: string)
    requires Serves(w, always, tick) && CanAcquire(s, scope) && Acquired(w, s, s1, scope)
    requires req.bearer.Some? && !req.renew
    ensures var a := DispatchRecovering(w, s1, req, Some(scope));
            && a == Attempt(Ok, 401, NoBody, a.s)
            && Usage(a.s.log).sends == Usage(s.log).sends + StartSends(s) + AcquisitionSends(w, s) + 1
            && SameLogin(s, a.s) && a.s.checkinDone
            && Set(w, Invalidate(a.s, Some(scope)), scope)
  {
    hide Serves, SeenIn, Everything, DispatchRecovering, KindOf, Usage, Checkins, Saw;
    OneDispatch(w, always, tick, s1, req, Some(scope));
    var a := DispatchRecovering(w, s1, req, Some(scope));
    DroppedIsNotFresh(w, a.s, scope);
  }

  lemma {:induction false} AnsweredLast(w: Env, always: bool, tick: nat, s: State, req: Request, scope: string)
    requires Serves(w, always, tick) && s.checkinDone && Set(w, Invalidate(s, Some(scope)), scope)
    ensures var a := RetryRejected(w, s, req, scope);
            && a.rc == Ok
            && (if always then a.status == 401 && a.body == NoBody else a.status == 200 && a.body == Everything())
            && Usage(a.s.log).sends == Usage(s.log).sends + AcquisitionSends(w, s) + 1
            && SameLogin(s, a.s) && a.s.checkinDone
            && |a.s.log| > 0 && Last(a.s.log).Sent? && Last(a.s.log).scope == Some(scope)
            && Last(a.s.log).req.bearer == Some("t") && Last(a.s.log).out == Reply(a.status, a.body)
            && Cached(a.s, scope).Some? && Cached(a.s, scope).value.token == "t"
            && (tick == 0 ==> FreshHit(w, a.s, scope))
            && (tick == 4000 ==> Set(w, a.s, scope))
  {
    hide Serves, SeenIn, Everything, EnsureToken, KindOf, Usage, Checkins, FreshHit, Saw;
    var s1 := Invalidate(s, Some(scope));
    Acquires(w, always, tick, s1, scope);
    var t := EnsureToken(w, s1, scope);
    var again := req.(bearer := Some("t"), renew := true);
    OwnIsNoPoll(again);
    OneDispatch(w, always, tick, t.s, again, Some(scope));
    var s2 := Dispatch(w, t.s, again, Some(scope));
    FreshOrStale(w, always, tick, s1, t.s, scope);
    NothingFresher(w, t.s, s2, scope);
  }

  lemma OwnIsNoPoll(req: Request)
    requires req.bearer.Some?
    ensures KindOf(req) != EventPoll
  {
  }

  /** Kept for an hour: still fresh if the clock stands still, stale at the next reading if it leaps. */
  lemma FreshOrStale(w: Env, always: bool, tick: nat, s: State, s': State, scope: string)
    requires Serves(w, always, tick) && Acquired(w, s, s', scope)
    ensures tick == 0 ==> FreshHit(w, s', scope)
    ensures tick == 4000 ==> !FreshHit(w, s', scope)
  {
    hide AnswerTo, CostOf, AcquisitionSends;
  }

  /** The request does get its second token. */
  lemma {:induction false} AcquiresTwice(w: Env, always: bool, tick: nat, s: State, first: Request, scope: string)
    requires Serves(w, always, tick) && Set(w, s, scope) && first.bearer.None? && !first.renew
    ensures var again := SecondToken(w, s, first, scope);
            again.Some? && again.value.rc == Ok
  {
    hide Serves, EnsureToken, DispatchRecovering, FreshHit, Acquired, Usage, CostOf, AcquisitionSends;
    var t := EnsureToken(w, s, scope);
    Acquires(w, always, tick, s, scope);
    var req := first.(bearer := Some(t.token));
    RejectedFirst(w, always, tick, s, t.s, req, scope);
    var a := DispatchRecovering(w, t.s, req, Some(scope));
    Acquires(w, always, tick, Invalidate(a.s, Some(scope)), scope);
  }

  // --------------------------------------------------------------- results

  lemma {:induction false} AfterLogin(w: Env, passphrase: string, scope: string)
    requires !w.noRetention
    ensures var s := Guarantees.Reached(w, [Runs.DoLogin(passphrase)]);
            Set(w, s, scope) && !s.checkinDone && !s.auth.value.mobile
  {
    hide Guarantees.Reached;
    AfterOneCall(w, Runs.DoLogin(passphrase));
  }

  lemma {:induction false} AfterMobileLogin(w: Env, scope: string)
    requires |scope| <= 1023
    ensures var s := Guarantees.Reached(w, [Runs.DoLoginMobile]);
            Set(w, s, scope) && !s.checkinDone && s.auth.value.mobile
  {
    hide Guarantees.Reached;
    AfterOneCall(w, Runs.DoLoginMobile);
  }

  /** With automatic check-ins off, one request after a login makes all nine sends: 5 + 1 + 2 + 1. */
  lemma {:induction false} NineSends(timeout: Millis, interval: Millis, passphrase: string, verb: Method, path: string,
        body: Body, scope: string)
    ensures var w := Patient(true, false, 4000, timeout, interval);
            var s := Guarantees.Reached(w, [Runs.DoLogin(passphrase)]);
            var g := RequestRaw(w, s, verb, path, body, Some(scope), Default);
            w.noAutoCheckin && g.rc == Ok && Usage(g.s.log).sends == Usage(s.log).sends + 9
  {
    hide RequestRaw, Usage, Set, AnswerTo, Guarantees.Reached, Serves, FreshHit;
    var w := Patient(true, false, 4000, timeout, interval);
    PatientServes(true, false, 4000, timeout, interval);
    AfterLogin(w, passphrase, scope);
    WholeRequest(w, false, 4000, Guarantees.Reached(w, [Runs.DoLogin(passphrase)]), verb, path, body, scope);
  }

  /** And after a mobile login all thirteen, and the polls of two waits. */
  lemma {:induction false} ThirteenSends(timeout: Millis, interval: Millis, verb: Method, path: string, body: Body,
        scope: string)
    requires |scope| <= 1023
    ensures var w := Patient(true, false, 4000, timeout, interval);
            var s := Guarantees.Reached(w, [Runs.DoLoginMobile]);
            var g := RequestRaw(w, s, verb, path, body, Some(scope), Default);
            && w.noAutoCheckin && g.rc == Ok
            && Usage(g.s.log).sends == Usage(s.log).sends + 13 + 2 * Polls(timeout, interval)
  {
    hide RequestRaw, Usage, Set, AnswerTo, Guarantees.Reached, Serves, FreshHit;
    var w := Patient(true, false, 4000, timeout, interval);
    PatientServes(true, false, 4000, timeout, interval);
    AfterMobileLogin(w, scope);
    WholeRequest(w, false, 4000, Guarantees.Reached(w, [Runs.DoLoginMobile]), verb, path, body, scope);
  }

  /**
   * A run in which a token is rejected twice over and handed out again: the device grants every login
   * and answers 401 to every bearer, and the clock stands still.
   */
  lemma {:induction false} RejectedTwice(off: bool, passphrase: string, verb: Method, path: string, body: Body,
        scope: string)
    ensures var w := Patient(off, true, 0, 1, 1);
            var s := Guarantees.Reached(w, [Runs.DoLogin(passphrase)]);
            var g := RequestRaw(w, s, verb, path, body, Some(scope), Default);
            var next := EnsureToken(w, ClearError(g.s), scope);
            && g.rc == AuthFailed && g.s.err.status == 401
            && |g.s.log| > 0 && Rejected(Last(g.s.log)) && Last(g.s.log).req.bearer == Some("t")
            && SecondToken(w, s, Request(verb, path, body, None, Default, false), scope).Some?
            && SecondToken(w, s, Request(verb, path, body, None, Default, false), scope).value.rc == Ok
            && FreshHit(w, g.s, scope)
            && next.rc == Ok && next.token == "t" && next.s.log == g.s.log
  {
    hide RequestRaw, Usage, Set, AnswerTo, Guarantees.Reached, Serves, FreshHit, EnsureToken;
    var w := Patient(off, true, 0, 1, 1);
    PatientServes(off, true, 0, 1, 1);
    AfterLogin(w, passphrase, scope);
    var s := Guarantees.Reached(w, [Runs.DoLogin(passphrase)]);
    WholeRequest(w, true, 0, s, verb, path, body, scope);
    AcquiresTwice(w, true, 0, s, Request(verb, path, body, None, Default, false), scope);
    var g := RequestRaw(w, s, verb, path, body, Some(scope), Default);
    NothingFresher(w, g.s, ClearError(g.s), scope);
    HitSendsNothing(w, ClearError(g.s), scope);
  }
}
