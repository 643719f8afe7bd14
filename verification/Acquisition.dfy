/**
 Token acquisition: what every context keeps, what one acquisition may cost, and what a success
 leaves behind.
 */
module Acquisition {
  import opened Options
  import opened Wire
  import opened Engine
  import opened Ledger
  import opened Exchange
  import CompactToken

  // -------------------------------------------------------- the invariant

  /** Every cached bearer was stored under its own scope. */
  ghost predicate CacheSourced(s: State) {
    s.auth.Some? ==>
      forall k :: k in s.auth.value.cache ==> HasStored(s.log, k, s.auth.value.cache[k].token)
  }

  /** A number a token claims, when its payload can be read and says so. */
  function ClaimOf(w: Env, token: string, name: string): Option<int> {
    match CompactToken.PeekPayload(token, CompactToken.PEEK_CAP)
    case None => None
    case Some(bytes) =>
      var payload := w.json(bytes);
      if payload.Object? && name in payload.fields && payload.fields[name].Num? then Some(payload.fields[name].n)
      else None
  }

  function ExpiryClaim(w: Env, token: string): Option<int> {
    ClaimOf(w, token, "exp")
  }

  /** A minute before the bearer's own expiry, or before an hour from this instant is over. */
  predicate ExpiresFrom(w: Env, b: Bearer, now: int) {
    match ExpiryClaim(w, b.token)
    case Some(exp) => b.exp == exp - 60
    case None => b.exp == now + 3600 - 60
  }

  /** The same, the instant being one of the first `ticks` readings of the clock. */
  ghost predicate Timed(w: Env, b: Bearer, ticks: nat) {
    match ExpiryClaim(w, b.token)
    case Some(exp) => b.exp == exp - 60
    case None => exists t: nat :: t < ticks && b.exp == w.clock(t) + 3600 - 60
  }

  lemma ExpiresTimed(w: Env, b: Bearer, t: nat, ticks: nat)
    requires ExpiresFrom(w, b, w.clock(t)) && (t < ticks || ExpiryClaim(w, b.token).Some?)
    ensures Timed(w, b, ticks)
  {
    hide ExpiryClaim;
  }

  lemma TimedLater(w: Env, b: Bearer, ticks: nat, later: nat)
    requires Timed(w, b, ticks) && ticks <= later
    ensures Timed(w, b, later)
  {
    hide ExpiryClaim;
  }

  /** Every cached bearer expires as it says itself, or an hour after it was had, less a minute. */
  ghost predicate CacheTimed(w: Env, s: State) {
    s.auth.Some? ==> forall k :: k in s.auth.value.cache ==> Timed(w, s.auth.value.cache[k], s.ticks)
  }

  /** Mobile mode holds no passphrase; a held passphrase remembers the retention option. */
  predicate SessionSound(w: Env, s: State) {
    s.auth.Some? ==>
      && (s.auth.value.mobile ==> s.auth.value.passphrase.None?)
      && (s.auth.value.passphrase.Some? ==> s.auth.value.retain == !w.noRetention)
  }

  predicate Mobile(s: State) {
    s.auth.Some? && s.auth.value.mobile
  }

  predicate HasPassphrase(s: State) {
    s.auth.Some? && s.auth.value.passphrase.Some?
  }

  /** Without retention, a held passphrase has not been used yet, and none was used twice. */
  predicate RetentionSound(w: Env, s: State) {
    w.noRetention ==> MintedOncePerLogin(s.log) && (HasPassphrase(s) ==> Mints(s.log) == 0)
  }

  /** What every step of the engine keeps, in every context, against every device. */
  ghost predicate Inv(w: Env, s: State) {
    && WellSourced(s.log)
    && CacheSourced(s)
    && CacheTimed(w, s)
    && SessionSound(w, s)
    && Usage(s.log).proactive <= Fired(s)
    && RetentionSound(w, s)
  }

  /** What no step undoes. */
  predicate Onward(s: State, s': State) {
    && s.log <= s'.log
    && (s.certRefreshed ==> s'.certRefreshed)
    && (s.checkinDone ==> s'.checkinDone)
    && s'.inCheckin == s.inCheckin
  }

  lemma {:induction false} QuietInv(w: Env, s: State, s': State, n: nat, b: nat)
    requires Inv(w, s) && Quietly(s, s', n, b)
    ensures Inv(w, s') && Onward(s, s')
  {
    AnonymousKeeps(s.log, s'.log);
    if s.auth.Some? {
      var cache := s.auth.value.cache;
      forall k | k in cache
        ensures HasStored(s'.log, k, cache[k].token) && Timed(w, cache[k], s'.ticks)
      {
        TimedLater(w, cache[k], s.ticks, s'.ticks);
        AnonymousUndisturbed(s.log, s'.log, k);
        StoredStays(s.log, s'.log, k, cache[k].token);
      }
    }
  }

  lemma StoredStays(a: History, b: History, scope: string, token: string)
    requires a <= b && HasStored(a, scope, token) && Undisturbed(b, |a|, scope)
    ensures HasStored(b, scope, token)
  {
    var j :| 0 <= j < |a| && StandsAt(a, j, scope, token);
    assert forall k :: j < k < |a| ==> b[k] == a[k];
    assert StandsAt(b, j, scope, token);
  }

  lemma AnonymousUndisturbed(a: History, b: History, scope: string)
    requires Anonymously(a, b)
    ensures Undisturbed(b, |a|, scope)
  {
  }

  /** A token just stored. */
  lemma NewestStored(log: History, scope: string, token: string, source: Source)
    ensures HasStored(log + [Stored(scope, token, source)], scope, token)
  {
    assert StandsAt(log + [Stored(scope, token, source)], |log|, scope, token);
  }

  // ------------------------------------------------------------ challenge

  function FetchCost(w: Env, before: bool, after: bool): nat {
    if before == after then RawCost(w, false, Default) else 13
  }

  function Spent(before: bool, after: bool): nat {
    if before == after then 0 else 1
  }

  lemma {:induction false} FetchQuiet(w: Env, s: State, spent: bool)
    ensures var c := FetchChallenge(w, s, spent);
            && (spent ==> c.spent)
            && (w.noAutoCheckin ==> c.spent == spent)
            && Quietly(s, c.s, FetchCost(w, spent, c.spent), Spent(spent, c.spent))
  {
    var g := RequestJson(w, s, GET, TOKEN_PATH, NoBody, None, Default);
    JsonQuiet(w, s, GET, TOKEN_PATH, NoBody, Default);
    if g.rc != Ok && g.s.err.status == 403 && !spent && !w.noAutoCheckin && !g.s.inCheckin {
      var c := CheckinRun(w, g.s, Budgeted);
      CheckinQuiet(w, g.s, Budgeted);
      QuietThen(s, g.s, c.s, 5, 0, 3, 1);
      var h := RequestJson(w, c.s, GET, TOKEN_PATH, NoBody, None, Default);
      JsonQuiet(w, c.s, GET, TOKEN_PATH, NoBody, Default);
      QuietThen(s, c.s, h.s, 8, 1, 5, 0);
      var r := FetchChallenge(w, s, spent);
      assert r.spent && (r.s == SetError(c.s, 403, false) || r.s == h.s);
    }
  }

  // ---------------------------------------------------------- acquisition

  /**
   * A token was stored by one login exchange: `m` is the state its reply arrived in. The POST named
   * the scope; the cache changed at that scope only, to an entry that expires in time; an unretained
   * passphrase is gone.
   */
  ghost predicate Minted(w: Env, m: State, s': State, scope: string, token: string, now: int) {
    && m.auth.Some?
    && |m.log| > 0 && IsLoginPost(Last(m.log), scope, token)
    && s'.log == m.log + [Stored(scope, token, ByPost)]
    && s'.auth.Some?
    && Cached(s', scope).Some? && Cached(s', scope).value.token == token
    && ExpiresFrom(w, Cached(s', scope).value, now)
    && s'.auth.value.cache - {scope} == m.auth.value.cache - {scope}
    && s'.auth.value == m.auth.value.(cache := s'.auth.value.cache,
                                      passphrase := if m.auth.value.retain then m.auth.value.passphrase else None)
    && s' == m.(auth := s'.auth, log := s'.log)
  }

  lemma {:induction false} MintedInv(w: Env, m: State, s': State, scope: string, token: string, t: nat)
    requires Inv(w, m) && HasPassphrase(m) && Minted(w, m, s', scope, token, w.clock(t)) && t < m.ticks
    ensures Inv(w, s') && Onward(m, s')
  {
    var e := Stored(scope, token, ByPost);
    Append(m.log, e);
    NewestStored(m.log, scope, token, ByPost);
    ExpiresTimed(w, Cached(s', scope).value, t, s'.ticks);
    CacheStays(w, m, s', scope, e);
  }

  /** Storing under one scope keeps every other cached bearer's provenance. */
  lemma CacheStays(w: Env, m: State, s': State, scope: string, e: Event)
    requires m.auth.Some? && s'.auth.Some? && CacheSourced(m) && CacheTimed(w, m) && m.ticks <= s'.ticks
    requires s'.log == m.log + [e] && e.Stored? && e.key == scope
    requires s'.auth.value.cache - {scope} == m.auth.value.cache - {scope}
    requires scope in s'.auth.value.cache ==> HasStored(s'.log, scope, s'.auth.value.cache[scope].token)
    requires scope in s'.auth.value.cache ==> Timed(w, s'.auth.value.cache[scope], s'.ticks)
    ensures CacheSourced(s') && CacheTimed(w, s')
  {
    hide Timed, HasStored;
    forall k | k in s'.auth.value.cache
      ensures HasStored(s'.log, k, s'.auth.value.cache[k].token) && Timed(w, s'.auth.value.cache[k], s'.ticks)
    {
      if k != scope {
        assert k in s'.auth.value.cache - {scope} && k in m.auth.value.cache - {scope};
        assert s'.auth.value.cache[k] == (s'.auth.value.cache - {scope})[k] == m.auth.value.cache[k];
        StoredStays(m.log, s'.log, k, m.auth.value.cache[k].token);
        TimedLater(w, m.auth.value.cache[k], m.ticks, s'.ticks);
      }
    }
  }

  function AcquireCost(w: Env, before: bool, after: bool): nat {
    FetchCost(w, before, after) + RawCost(w, false, Default)
  }

  lemma {:induction false} AcquireSteps(w: Env, s: State, passphrase: string, scope: string, now: int, spent: bool)
    returns (m: State)
    requires s.auth.Some?
    ensures var a := AcquireToken(w, s, passphrase, scope, now, spent);
            && (spent ==> a.spent)
            && (w.noAutoCheckin ==> a.spent == spent)
            && Quietly(s, m, AcquireCost(w, spent, a.spent), Spent(spent, a.spent))
            && (if a.rc == Ok then Minted(w, m, a.s, scope, a.token, now) else m == a.s)
  {
    hide FetchChallenge, RequestJson, IsKey32, DriftEvident, CacheExpiry, Anonymously, Usage, Minted, FetchCost;
    var c := FetchChallenge(w, s, spent);
    FetchQuiet(w, s, spent);
    var a := AcquireToken(w, s, passphrase, scope, now, spent);
    var claims := if c.rc == Ok then LoginClaims(w, c.body, passphrase, scope, now) else None;
    if claims.None? {
      m := a.s;
    } else {
      var body := Object(map["auth" := Signed(claims.value)]);
      var g := RequestJson(w, c.s, POST, TOKEN_PATH, body, None, Default);
      JsonQuiet(w, c.s, POST, TOKEN_PATH, body, Default);
      JsonReply(w, c.s, POST, TOKEN_PATH, body, Default);
      QuietThen(s, c.s, g.s, FetchCost(w, spent, c.spent), Spent(spent, c.spent), RawCost(w, false, Default), 0);
      if a.rc == Ok {
        m := g.s;
        assert IsLoginPost(Last(m.log), scope, a.token);
        StoreMints(w, m, a.s, scope, a.token, now);
      } else {
        m := a.s;
        assert m == g.s || m == SetError(g.s, 200, false);
      }
    }
  }

  lemma StoreMints(w: Env, m: State, s': State, scope: string, token: string, now: int)
    requires m.auth.Some? && |m.log| > 0 && IsLoginPost(Last(m.log), scope, token)
    requires var s1 := Store(m, scope, token, CacheExpiry(w, token, now), ByPost);
             s' == if s1.auth.value.retain then s1 else Scrub(s1)
    ensures Minted(w, m, s', scope, token, now)
  {
    var exp := CacheExpiry(w, token, now);
    StoredExpires(w, token, now);
    assert s'.auth.value.cache == m.auth.value.cache[scope := Bearer(token, exp)];
  }

  lemma StoredExpires(w: Env, token: string, now: int)
    ensures ExpiresFrom(w, Bearer(token, CacheExpiry(w, token, now)), now)
    ensures Claim(w, token, "exp") == ExpiryClaim(w, token)
  {
  }

  // -------------------------------------------------- the passphrase path

  function TokenCost(w: Env): nat {
    if w.noAutoCheckin then 2 else 23
  }

  /**
   * One passphrase acquisition, recoveries and session-start check-in included: its cost, at most
   * one budgeted check-in, and a success that ends in its own login exchange.
   */
  lemma {:induction false} PassphraseSteps(w: Env, s: State, passphrase: string, scope: string, read: nat)
    returns (m: State, at: nat)
    requires s.auth.Some? && read < s.ticks
    ensures var t := PassphraseToken(w, s, passphrase, scope, w.clock(read));
            && Quietly(s, m, TokenCost(w), 1) && at < m.ticks
            && (if t.rc == Ok then Minted(w, m, t.s, scope, t.token, w.clock(at)) else m == t.s)
  {
    hide Minted, ProactiveCheckin, AcquireToken, CheckinRun, Anonymously, Usage;
    var now := w.clock(read);
    at := read;
    var s1 := ProactiveCheckin(w, s);
    ProactiveQuiet(w, s);
    var a := AcquireToken(w, s1, passphrase, scope, now, false);
    m := AcquireSteps(w, s1, passphrase, scope, now, false);
    QuietThen(s, s1, m, 0, 0, AcquireCost(w, false, a.spent), Spent(false, a.spent));
    if a.rc == AuthFailed && a.drift && a.s.err.status == 401 && !a.spent && !w.noAutoCheckin && !a.s.inCheckin {
      m := DriftSteps(w, s, a.s, passphrase, scope);
      var t := PassphraseToken(w, s, passphrase, scope, now);
      at := if t.rc == Ok then CheckinRun(w, a.s, Budgeted).s.ticks else read;
    }
  }

  /** The drift recovery: one budgeted check-in, then a second exchange that may spend none. */
  lemma {:induction false} DriftSteps(w: Env, s: State, s1: State, passphrase: string, scope: string)
    returns (m: State)
    requires s.auth.Some? && Quietly(s, s1, 10, 0) && !w.noAutoCheckin && !s1.inCheckin
    ensures var c := CheckinRun(w, s1, Budgeted);
            var b := AcquireToken(w, Tick(c.s), passphrase, scope, w.clock(c.s.ticks), true);
            && Quietly(s, m, 23, 1)
            && (if c.rc != Ok then m == SetError(c.s, 401, false)
                else
                  && c.s.ticks < m.ticks
                  && if b.rc == Ok then Minted(w, m, b.s, scope, b.token, w.clock(c.s.ticks)) else m == b.s)
  {
    var c := CheckinRun(w, s1, Budgeted);
    CheckinQuiet(w, s1, Budgeted);
    QuietThen(s, s1, c.s, 10, 0, 3, 1);
    if c.rc == Ok {
      var s2 := Tick(c.s);
      assert Quietly(s, s2, 13, 1);
      m := AcquireSteps(w, s2, passphrase, scope, w.clock(c.s.ticks), true);
      QuietThen(s, s2, m, 13, 1, 10, 0);
    } else {
      m := SetError(c.s, 401, false);
    }
  }

  // ------------------------------------------- a token of this acquisition

  /** A token acquired was posted for and stored since, in that order. */
  lemma {:induction false} AcquireGrows(w: Env, s: State, passphrase: string, scope: string, now: int, spent: bool)
    ensures var a := AcquireToken(w, s, passphrase, scope, now, spent);
            && |s.log| <= |a.s.log|
            && (a.rc == Ok ==> |s.log| + 2 <= |a.s.log|)
  {
    hide FetchChallenge, RequestJson, LoginClaims, DriftEvident, CacheExpiry, Quietly, FetchCost;
    var c := FetchChallenge(w, s, spent);
    FetchQuiet(w, s, spent);
    QuietLonger(s, c.s, FetchCost(w, spent, c.spent), Spent(spent, c.spent));
    var claims := LoginClaims(w, c.body, passphrase, scope, now);
    if c.rc == Ok && claims.Some? {
      JsonGrows(w, c.s, POST, TOKEN_PATH, Object(map["auth" := Signed(claims.value)]), Default);
    }
  }

  lemma {:induction false} PassphraseGrows(w: Env, s: State, passphrase: string, scope: string, now: int)
    ensures var t := PassphraseToken(w, s, passphrase, scope, now);
            t.rc == Ok ==> |s.log| + 2 <= |t.s.log|
  {
    hide ProactiveCheckin, AcquireToken, CheckinRun, Quietly;
    var s1 := ProactiveCheckin(w, s);
    ProactiveQuiet(w, s);
    QuietLonger(s, s1, 0, 0);
    var a := AcquireToken(w, s1, passphrase, scope, now, false);
    AcquireGrows(w, s1, passphrase, scope, now, false);
    var c := CheckinRun(w, a.s, Budgeted);
    if !a.s.inCheckin {
      CheckinQuiet(w, a.s, Budgeted);
      QuietLonger(a.s, c.s, 3, 1);
    }
    AcquireGrows(w, Tick(c.s), passphrase, scope, w.clock(c.s.ticks), true);
  }
}
