/**
 Whole runs: any sequence of calls a client can make on one context, against any device. What holds
 at every point between calls, and the main statements read off it.
 */
module Runs {
  import opened Options
  import opened Wire
  import opened Engine
  import opened Ledger
  import opened Exchange
  import opened Acquisition
  import opened Confirmation
  import opened Requests

  /** The calls of the library; `DoBroker` is a session with an identity and the registration triple. */
  datatype Call =
    | DoLogin(passphrase: string)
    | DoLoginMobile
    | DoLogout
    | DoRequest(verb: Method, path: string, body: Body, under: Option<string>)
    | DoVerify(body: Body, scope: string)
    | DoRestart(path: string, scope: string)
    | DoWipeout
    | DoCheckin
    | DoSeed(scope: string, token: string)
    | DoExtRequest(epk: string, scope: string, ctxStr: Option<string>, note: Option<string>)
    | DoExtToken(reply: string)
    | DoSession(url: Option<string>)
    | DoEventNew(url: Option<string>, authreq: string, epk: string)
    | DoEventCheck(url: Option<string>, eventid: string)
    | DoBroker(verb: Method, url: Option<string>, subpath: string, body: Body)
    | DoBegin(url: Option<string>, scope: string, ctxStr: Option<string>, note: Option<string>)
    | DoPoll(i: nat)
    | DoWait(i: nat, timeout: int)

  /** A context and the confirmation handles its client holds. */
  datatype World = World(s: State, handles: seq<Handle>)

  function Start(): World {
    World(State(None, false, false, false, Error(0, false), [], 0), [])
  }

  function Do(w: Env, x: World, c: Call): World {
    match c
    case DoLogin(passphrase) => x.(s := Login(w, x.s, passphrase))
    case DoLoginMobile => x.(s := LoginMobile(x.s))
    case DoLogout => x.(s := Logout(x.s))
    case DoRequest(verb, path, body, scope) =>
      x.(s := RequestJson(w, ClearError(x.s), verb, path, body, scope, Default).s)
    case DoVerify(body, scope) => x.(s := VerifySignature(w, x.s, body, scope).s)
    case DoRestart(path, scope) => x.(s := Restart(w, x.s, path, scope).s)
    case DoWipeout => x.(s := Wipeout(w, x.s).s)
    case DoCheckin => x.(s := CheckinRun(w, ClearError(x.s), Explicit).s)
    case DoSeed(scope, token) => x.(s := CacheSeed(w, x.s, scope, token, BySeed))
    case DoExtRequest(epk, scope, ctxStr, note) => x.(s := ExtRequest(w, x.s, epk, scope, ctxStr, note).s)
    case DoExtToken(reply) => x.(s := ExtToken(w, x.s, reply).s)
    case DoSession(url) => x.(s := NotifySession(w, x.s, url).s)
    case DoEventNew(url, authreq, epk) => x.(s := EventNew(w, x.s, url, authreq, epk).s)
    case DoEventCheck(url, eventid) => x.(s := EventCheck(w, x.s, url, eventid).s)
    case DoBroker(verb, url, subpath, body) => x.(s := NotifySend(w, ClearError(x.s), verb, url, subpath, body).s)
    case DoBegin(url, scope, ctxStr, note) =>
      var b := ConfirmBegin(w, x.s, url, scope, ctxStr, note);
      World(b.s, if b.handle.Some? then x.handles + [b.handle.value] else x.handles)
    case DoPoll(i) =>
      if i >= |x.handles| then x
      else
        var p := ConfirmPoll(w, x.s, x.handles[i]);
        World(p.s, x.handles[i := p.h])
    case DoWait(i, timeout) =>
      if i >= |x.handles| then x
      else
        var p := ConfirmWait(w, x.s, x.handles[i], timeout);
        World(p.s, x.handles[i := p.h])
  }

  function Run(w: Env, x: World, calls: seq<Call>): World {
    if |calls| == 0 then x else Do(w, Run(w, x, calls[..|calls| - 1]), calls[|calls| - 1])
  }

  // ---------------------------------------------------- between two calls

  ghost predicate HandlesSound(log: History, hs: seq<Handle>) {
    && (forall i :: 0 <= i < |hs| ==> Open(log, hs[i]))
    && (forall i, j :: 0 <= i < j < |hs| ==> hs[i].id != hs[j].id)
  }

  /** What holds of every context between calls. */
  ghost predicate Sound(w: Env, x: World) {
    Inv(w, x.s) && !x.s.inCheckin && HandlesSound(x.s.log, x.handles)
  }

  lemma StartSound(w: Env)
    ensures Sound(w, Start())
  {
  }

  /** A step that leaves other handles alone leaves a held handle open. */
  lemma {:induction false} OpenStays(a: History, b: History, h: Handle, except: nat)
    requires WellSourced(a) && a <= b && Open(a, h) && OthersKept(a, b, except) && h.id != except
    ensures Open(b, h) && h.id < |a|
  {
    BegunBelow(a, h.id, h.scope, h.eventid);
  }

  /** A step that concerns no held handle. */
  lemma {:induction false} HandlesStay(w: Env, s: State, s': State, hs: seq<Handle>)
    requires WellSourced(s.log) && HandlesSound(s.log, hs)
    requires Onward(s, s') && OthersKept(s.log, s'.log, |s.log|)
    ensures HandlesSound(s'.log, hs)
    ensures forall i :: 0 <= i < |hs| ==> hs[i].id < |s.log|
  {
    forall i | 0 <= i < |hs|
      ensures Open(s'.log, hs[i]) && hs[i].id < |s.log|
    {
      BegunBelow(s.log, hs[i].id, hs[i].scope, hs[i].eventid);
      OpenStays(s.log, s'.log, hs[i], |s.log|);
    }
  }

  /** A step of one held handle. */
  lemma {:induction false} HandleSteps(s: State, s': State, hs: seq<Handle>, i: nat, h: Handle)
    requires WellSourced(s.log) && HandlesSound(s.log, hs) && i < |hs|
    requires Onward(s, s') && OthersKept(s.log, s'.log, hs[i].id)
    requires h == hs[i].(terminal := h.terminal) && Open(s'.log, h)
    ensures HandlesSound(s'.log, hs[i := h])
  {
    var hs' := hs[i := h];
    forall j | 0 <= j < |hs'|
      ensures Open(s'.log, hs'[j])
    {
      if j != i {
        assert hs[j].id != hs[i].id;
        OpenStays(s.log, s'.log, hs[j], hs[i].id);
      }
    }
  }

  // -------------------------------------------------------- call by call

  lemma {:induction false} LoginSteps(w: Env, s: State, passphrase: string)
    requires Inv(w, s)
    ensures var s' := Login(w, s, passphrase);
            Inv(w, s') && Onward(s, s') && OthersKept(s.log, s'.log, |s.log|)
  {
    Append(s.log, LoggedIn);
  }

  lemma {:induction false} QuietCall(w: Env, s: State, s': State, n: nat, b: nat)
    requires Inv(w, s) && Quietly(s, s', n, b)
    ensures Inv(w, s') && Onward(s, s') && OthersKept(s.log, s'.log, |s.log|)
  {
    QuietInv(w, s, s', n, b);
    AnonymousKeeps(s.log, s'.log);
  }

  /** A binding's request, whatever its scope. */
  lemma {:induction false} RequestCall(w: Env, s: State, verb: Method, path: string, body: Body, scope: Option<string>)
    requires Inv(w, s)
    ensures var s' := RequestRaw(w, ClearError(s), verb, path, body, scope, Default).s;
            Inv(w, s') && Onward(s, s') && OthersKept(s.log, s'.log, |s.log|)
  {
    var s1 := ClearError(s);
    SameButErrorInv(w, s, s1);
    if scope.Some? {
      var own := RequestSteps(w, s1, verb, path, body, scope.value, Default);
    } else {
      RawQuiet(w, s1, verb, path, body, Default);
      QuietCall(w, s1, RequestRaw(w, s1, verb, path, body, scope, Default).s, RawCost(w, s1.inCheckin, Default), 0);
    }
  }

  lemma {:induction false} RequestJsonCall(w: Env, s: State, verb: Method, path: string, body: Body,
        scope: Option<string>)
    requires Inv(w, s)
    ensures var s' := RequestJson(w, ClearError(s), verb, path, body, scope, Default).s;
            Inv(w, s') && Onward(s, s') && OthersKept(s.log, s'.log, |s.log|)
  {
    RequestCall(w, s, verb, path, body, scope);
    var g := RequestRaw(w, ClearError(s), verb, path, body, scope, Default);
    SameButErrorInv(w, g.s, SetError(g.s, 0, false));
  }

  lemma {:induction false} VerifyCall(w: Env, s: State, body: Body, scope: string)
    requires Inv(w, s)
    ensures var s' := VerifySignature(w, s, body, scope).s;
            Inv(w, s') && Onward(s, s') && OthersKept(s.log, s'.log, |s.log|)
  {
    RequestCall(w, s, POST, "/api/crypto/exdsa/verify", body, Some(scope));
    var g := RequestRaw(w, ClearError(s), POST, "/api/crypto/exdsa/verify", body, Some(scope), Default);
    SameButErrorInv(w, g.s, ClearError(g.s));
  }

  lemma {:induction false} RestartCall(w: Env, s: State, path: string, scope: string)
    requires Inv(w, s)
    ensures var s' := Restart(w, s, path, scope).s;
            Inv(w, s') && Onward(s, s') && OthersKept(s.log, s'.log, |s.log|)
  {
    RequestCall(w, s, GET, path, NoBody, Some(scope));
    var g := RequestRaw(w, ClearError(s), GET, path, NoBody, Some(scope), Default);
    InvalidateInv(w, g.s, None);
    SameButErrorInv(w, Invalidate(g.s, None), ClearError(Invalidate(g.s, None)));
  }

  lemma LogoutInv(w: Env, s: State)
    requires Inv(w, s)
    ensures Inv(w, Logout(s)) && Inv(w, LoginMobile(s))
    ensures Onward(s, Logout(s)) && Onward(s, LoginMobile(s))
    ensures OthersKept(s.log, Logout(s).log, |s.log|) && OthersKept(s.log, LoginMobile(s).log, |s.log|)
  {
  }

  lemma {:induction false} SeedCall(w: Env, s: State, scope: string, token: string)
    requires Inv(w, s)
    ensures var s' := CacheSeed(w, s, scope, token, BySeed);
            Inv(w, s') && Onward(s, s') && OthersKept(s.log, s'.log, |s.log|)
  {
    SeedSteps(w, s, scope, token, BySeed);
  }

  lemma {:induction false} WipeoutCall(w: Env, s: State)
    requires Inv(w, s)
    ensures var s' := Wipeout(w, s).s;
            Inv(w, s') && Onward(s, s') && OthersKept(s.log, s'.log, |s.log|)
  {
    var body := Object(map["wipeout" := Other]);
    RequestCall(w, s, POST, "/api/system/config", body, Some("system:config"));
    var g := RequestRaw(w, ClearError(s), POST, "/api/system/config", body, Some("system:config"), Default);
    LogoutInv(w, g.s);
  }

  /** Calls that concern no handle the client holds. */
  predicate Handleless(c: Call) {
    !c.DoBegin? && !c.DoPoll? && !c.DoWait?
  }

  /** Calls that need no bearer and change no session. */
  predicate Unauthenticated(c: Call) {
    c.DoCheckin? || c.DoExtRequest? || c.DoExtToken? || c.DoSession? || c.DoEventNew? || c.DoEventCheck? || c.DoBroker?
  }

  lemma {:induction false} UnauthenticatedCall(w: Env, x: World, c: Call) returns (n: nat)
    requires !x.s.inCheckin && Unauthenticated(c)
    ensures Quietly(x.s, Do(w, x, c).s, n, 0) && Do(w, x, c).handles == x.handles
  {
    hide Quietly, CheckinRun, ExtRequest, ExtToken, NotifySession, EventNew, EventCheck, NotifySend, ExtCost;
    var s1 := ClearError(x.s);
    match c
    case DoCheckin =>
      CheckinQuiet(w, s1, Explicit);
      QuietlyWithError(x.s, s1, CheckinRun(w, s1, Explicit).s, 3);
      n := 3;
    case DoExtRequest(epk, scope, ctxStr, note) =>
      ExtRequestQuiet(w, x.s, epk, scope, ctxStr, note);
      n := ExtCost(w);
    case DoExtToken(reply) =>
      ExtTokenQuiet(w, x.s, reply);
      n := ExtCost(w);
    case DoSession(url) =>
      SessionQuiet(w, x.s, url);
      n := 1;
    case DoEventNew(url, authreq, epk) =>
      EventNewQuiet(w, x.s, url, authreq, epk);
      n := 1;
    case DoEventCheck(url, eventid) =>
      CheckQuiet(w, x.s, url, eventid);
      n := 1;
    case DoBroker(verb, url, subpath, body) =>
      NotifyQuiet(w, s1, verb, url, subpath, body);
      QuietlyWithError(x.s, s1, NotifySend(w, s1, verb, url, subpath, body).s, 1);
      n := 1;
  }

  lemma {:induction false} HandlelessSteps(w: Env, x: World, c: Call)
    requires Sound(w, x) && Handleless(c)
    ensures var x' := Do(w, x, c);
            && Inv(w, x'.s) && Onward(x.s, x'.s) && OthersKept(x.s.log, x'.s.log, |x.s.log|)
            && x'.handles == x.handles
  {
    if Unauthenticated(c) {
      var n := UnauthenticatedCall(w, x, c);
      QuietCall(w, x.s, Do(w, x, c).s, n, 0);
    } else {
      SessionCall(w, x, c);
    }
    hide Do;
  }

  /** Calls that need a bearer or change the session. */
  lemma {:induction false} SessionCall(w: Env, x: World, c: Call)
    requires Inv(w, x.s) && Handleless(c) && !Unauthenticated(c)
    ensures var x' := Do(w, x, c);
            && Inv(w, x'.s) && Onward(x.s, x'.s) && OthersKept(x.s.log, x'.s.log, |x.s.log|)
            && x'.handles == x.handles
  {
    hide Inv, Onward, OthersKept, Login, RequestJson, VerifySignature, Restart, Wipeout, CacheSeed;
    match c
    case DoLogin(passphrase) => LoginSteps(w, x.s, passphrase);
    case DoLoginMobile => LogoutInv(w, x.s);
    case DoLogout => LogoutInv(w, x.s);
    case DoRequest(verb, path, body, scope) => RequestJsonCall(w, x.s, verb, path, body, scope);
    case DoVerify(body, scope) => VerifyCall(w, x.s, body, scope);
    case DoRestart(path, scope) => RestartCall(w, x.s, path, scope);
    case DoWipeout => WipeoutCall(w, x.s);
    case DoSeed(scope, token) => SeedCall(w, x.s, scope, token);
  }

  lemma HandlesGrow(log: History, hs: seq<Handle>, h: Handle)
    requires HandlesSound(log, hs) && Open(log, h) && forall i :: 0 <= i < |hs| ==> hs[i].id != h.id
    ensures HandlesSound(log, hs + [h])
  {
    hide Open;
  }

  lemma {:induction false} BeginKeeps(
      w: Env, x: World, url: Option<string>, scope: string, ctxStr: Option<string>, note: Option<string>)
    requires Sound(w, x)
    ensures var x' := Do(w, x, DoBegin(url, scope, ctxStr, note)); Sound(w, x') && Onward(x.s, x'.s)
  {
    hide Inv, Open, WellSourced, ConfirmBegin, HandlesSound, OthersKept;
    InvSourced(w, x.s);
    var b := ConfirmBegin(w, x.s, url, scope, ctxStr, note);
    BeginSteps(w, x.s, url, scope, ctxStr, note);
    HandlesStay(w, x.s, b.s, x.handles);
    if b.handle.Some? {
      HandlesGrow(b.s.log, x.handles, b.handle.value);
    }
  }

  /** Every call keeps what every run keeps. */
  lemma {:induction false} DoKeeps(w: Env, x: World, c: Call)
    requires Sound(w, x)
    ensures Sound(w, Do(w, x, c)) && Onward(x.s, Do(w, x, c).s)
  {
    assert WellSourced(x.s.log);
    hide Inv, Open, ConfirmPoll, WaitFrom, WellSourced;
    if Handleless(c) {
      HandlelessSteps(w, x, c);
      HandlesStay(w, x.s, Do(w, x, c).s, x.handles);
    } else {
      match c
      case DoBegin(url, scope, ctxStr, note) =>
        BeginKeeps(w, x, url, scope, ctxStr, note);
      case DoPoll(i) =>
        if i < |x.handles| {
          PollSteps(w, x.s, x.handles[i]);
          HandleSteps(x.s, ConfirmPoll(w, x.s, x.handles[i]).s, x.handles, i, ConfirmPoll(w, x.s, x.handles[i]).h);
        }
      case DoWait(i, timeout) =>
        if i < |x.handles| && timeout > 0 {
          WaitSteps(w, x.s, x.handles[i], timeout, 0);
          HandleSteps(x.s, ConfirmWait(w, x.s, x.handles[i], timeout).s, x.handles, i,
                      ConfirmWait(w, x.s, x.handles[i], timeout).h);
        }
    }
  }

  /** Every run from a new context. */
  lemma {:induction false} RunKeeps(w: Env, calls: seq<Call>)
    ensures Sound(w, Run(w, Start(), calls))
  {
    if |calls| == 0 {
      StartSound(w);
    } else {
      RunKeeps(w, calls[..|calls| - 1]);
      DoKeeps(w, Run(w, Start(), calls[..|calls| - 1]), calls[|calls| - 1]);
    }
  }

  /** Longer runs only add to the history and never reset a latch. */
  lemma {:induction false} RunOnward(w: Env, calls: seq<Call>, n: nat)
    requires n <= |calls|
    ensures Onward(Run(w, Start(), calls[..n]).s, Run(w, Start(), calls).s)
  {
    if n == |calls| {
      assert calls[..n] == calls;
    } else {
      var before := calls[..|calls| - 1];
      RunOnward(w, before, n);
      assert before[..n] == calls[..n];
      RunKeeps(w, before);
      DoKeeps(w, Run(w, Start(), before), calls[|calls| - 1]);
    }
  }
}
