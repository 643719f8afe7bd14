/**
 A search takes NOT_FOUND for "nothing matched". The device says so with a 404 to the search itself,
 but a token acquisition inside the call can end in NOT_FOUND too. When a search can be trusted.
 */
module SearchMiss {
  import opened Options
  import opened Wire
  import opened Engine
  import opened Ledger
  import opened Exchange
  import opened Acquisition
  import opened Confirmation
  import opened Requests
  import opened KeyWalk
  import opened Runs
  import Guarantees

  predicate HasCredential(s: State) {
    Mobile(s) || HasPassphrase(s)
  }

  function Page(descr: string, offset: nat): Body {
    SearchBody(descr, offset, WALK_PAGE)
  }

  // ------------------------------------------------- without a credential

  /** A call that acquires nothing ends in NOT_FOUND only by the device's own 404. */
  lemma {:induction false} OwnNotFound(w: Env, s: State, verb: Method, path: string, body: Body, scope: string)
    requires !HasCredential(s)
    ensures var g := RequestJson(w, s, verb, path, body, Some(scope), Default);
            && !HasCredential(g.s)
            && (g.rc == NotFound ==>
                  && |g.s.log| > 0 && Last(g.s.log).Sent?
                  && Last(g.s.log).req.verb == verb && Last(g.s.log).req.path == path && Last(g.s.log).req.body == body
                  && Last(g.s.log).out == w.device(Front(g.s.log), Last(g.s.log).req)
                  && Last(g.s.log).out.Reply? && Last(g.s.log).out.status == 404)
  {
    hide EnsureToken, DispatchRecovering, FreshHit;
    var g := RequestJson(w, s, verb, path, body, Some(scope), Default);
    if FreshHit(w, s, scope) {
      HitSendsNothing(w, s, scope);
      var t := EnsureToken(w, s, scope);
      var req := Request(verb, path, body, Some(t.token), Default, false);
      DispatchAnswered(w, t.s, req, scope);
      var a := DispatchRecovering(w, t.s, req, Some(scope));
      DroppedMiss(w, a.s, scope);
      NoCredentialSendsNothing(w, Invalidate(a.s, Some(scope)), scope);
      TransportFails(w, t.s, req, scope);
      assert !HasCredential(a.s);
      var b := if a.rc == Ok && a.status == 401 then RetryRejected(w, a.s, req, scope) else a;
      assert !HasCredential(b.s);
      assert RequestRaw(w, s, verb, path, body, Some(scope), Default)
          == if b.rc != Ok then Got(b.rc, NoBody, b.s) else Classify(b.s, b.status, b.body);
    } else {
      NoCredentialSendsNothing(w, s, scope);
    }
  }

  lemma DroppedMiss(w: Env, s: State, scope: string)
    ensures !FreshHit(w, Invalidate(s, Some(scope)), scope)
  {
  }

  lemma TransportFails(w: Env, s: State, req: Request, scope: string)
    ensures var a := DispatchRecovering(w, s, req, Some(scope));
            a.rc == Ok || TransportRc(a.rc)
  {
    hide CheckinRun;
  }

  /** So each page is a slice of the matches the device holds. */
  lemma {:induction false} PageIsSlice(w: Env, parse: Parser, descr: string, s: State, repo: seq<Entry>, offset: nat)
    requires !HasCredential(s) && Holds(w, parse, Matching(descr), repo) && (repo == [] ==> offset == 0)
    ensures var f := Fetch(w, parse, Matching(descr), s, offset);
            !HasCredential(f.s) && (f.rc == Ok ==> SliceOf(repo, offset, f.page))
  {
    hide RequestJson, SliceOf, HasCredential;
    var src := Matching(descr);
    var g := RequestJson(w, s, POST, SEARCH_PATH, Page(descr, offset), Some(SEARCH_SCOPE), Default);
    OwnNotFound(w, s, POST, SEARCH_PATH, Page(descr, offset), SEARCH_SCOPE);
    ScopedReply(w, s, POST, SEARCH_PATH, Page(descr, offset), SEARCH_SCOPE, Default);
    AuthOnly(g.s, Fetch(w, parse, src, s, offset).s);
    EmptySlice();
    if g.rc == Ok || g.rc == NotFound {
      assert Asked(src, Last(g.s.log).req) == Some((offset, 10));
      assert IsAnswer(parse, src, repo, offset, w.device(Front(g.s.log), Last(g.s.log).req));
    }
  }

  lemma EmptySlice()
    ensures SliceOf([], 0, EMPTY_PAGE)
  {
  }

  lemma AuthOnly(s: State, s': State)
    ensures s'.auth == s.auth ==> HasCredential(s') == HasCredential(s)
  {
  }

  lemma {:induction false} SearchIsWhole(w: Env, parse: Parser, descr: string, s: State, repo: seq<Entry>,
        got: seq<Entry>)
    requires !HasCredential(s) && Holds(w, parse, Matching(descr), repo) && got <= repo
    ensures var r := Walk(w, parse, Matching(descr), s, got);
            r.rc == Ok ==> r.page.entries == repo
    decreases |repo| - |got|
  {
    hide Fetch, HasCredential, Holds;
    var f := Fetch(w, parse, Matching(descr), s, |got|);
    PageIsSlice(w, parse, descr, s, repo, |got|);
    if f.rc == Ok {
      var got' := got + f.page.entries;
      assert got' <= repo by {
        assert repo == got + repo[|got|..];
      }
      if f.page.entries != [] && |got'| < f.page.total {
        SearchIsWhole(w, parse, descr, f.s, repo, got');
      } else {
        assert got' == repo;
      }
    }
  }

  // ------------------------------------------- a device that knows no login

  /** It rejects every bearer, does not answer a search without one, and has no login, broker or ext pages. */
  function Lost(descr: string, req: Request): Outcome {
    if req.bearer.Some? || Asked(Matching(descr), req).Some? then Reply(401, NoBody) else Reply(404, NoBody)
  }

  ghost predicate LosesLogins(w: Env, descr: string) {
    forall log: History, req: Request :: w.device(log, req) == Lost(descr, req)
  }

  lemma LostHolds(w: Env, parse: Parser, descr: string, repo: seq<Entry>)
    requires LosesLogins(w, descr)
    ensures Holds(w, parse, Matching(descr), repo)
  {
    hide Asked, SliceOf;
  }

  /** The login challenge is not there, so no token is. */
  lemma {:induction false} LostChallenge(w: Env, descr: string, s: State, passphrase: string, scope: string, now: int)
    requires LosesLogins(w, descr)
    ensures PassphraseToken(w, s, passphrase, scope, now).rc == NotFound
  {
    hide ProactiveCheckin, CheckinRun, LoginClaims, CacheExpiry, DriftEvident;
    var s1 := ProactiveCheckin(w, s);
    var req := Request(GET, TOKEN_PATH, NoBody, None, Default, false);
    assert DispatchRecovering(w, s1, req, None) == Attempt(Ok, 404, NoBody, Dispatch(w, s1, req, None));
    var raw := RequestRaw(w, s1, GET, TOKEN_PATH, NoBody, None, Default);
    assert raw == Classify(Dispatch(w, s1, req, None), 404, NoBody);
    var g := RequestJson(w, s1, GET, TOKEN_PATH, NoBody, None, Default);
    assert g.rc == NotFound && g.s.err.status == 404;
    hide RequestJson;
    assert AcquireToken(w, s1, passphrase, scope, now, false).rc == NotFound;
  }

  /** Nor is the broker's session. */
  lemma {:induction false} LostSession(w: Env, descr: string, s: State, scope: string)
    requires LosesLogins(w, descr)
    ensures MobileToken(w, s, scope).rc == NotFound
  {
    hide ProactiveCheckin, CheckinRun, ExtRequest, EventNew, ConfirmWait;
    var s1 := ProactiveCheckin(w, s);
    var t := NotifySession(w, s1, None);
    assert t.rc == NotFound && t.s.err.status == 404;
    hide NotifySession;
    assert FirePush(w, s1, None, scope, None, None) == Push(t.rc, None, "", t.s);
    hide FirePush;
    assert ConfirmBegin(w, s1, None, scope, None, None).rc == NotFound;
  }

  lemma {:induction false} LostAcquisition(w: Env, descr: string, s: State, scope: string)
    requires LosesLogins(w, descr) && HasCredential(s) && !FreshHit(w, s, scope)
    ensures EnsureToken(w, s, scope).rc == NotFound
  {
    hide MobileToken, PassphraseToken, LosesLogins;
    if Mobile(s) {
      LostSession(w, descr, Tick(s), scope);
    } else {
      LostChallenge(w, descr, Tick(s), s.auth.value.passphrase.value, scope, w.clock(s.ticks));
    }
  }

  /** Any request of a session with a credential is NOT_FOUND, its own dispatch, if any, a 401. */
  lemma {:induction false} LostRequest(w: Env, descr: string, s: State, verb: Method, path: string, body: Body,
        scope: string)
    requires LosesLogins(w, descr) && HasCredential(s)
    ensures RequestJson(w, s, verb, path, body, Some(scope), Default).rc == NotFound
  {
    hide EnsureToken, DispatchRecovering, FreshHit;
    if FreshHit(w, s, scope) {
      HitSendsNothing(w, s, scope);
      var t := EnsureToken(w, s, scope);
      var req := Request(verb, path, body, Some(t.token), Default, false);
      LostDispatch(w, descr, t.s, req, scope);
      var a := DispatchRecovering(w, t.s, req, Some(scope));
      DroppedMiss(w, a.s, scope);
      StillCredential(s, Invalidate(a.s, Some(scope)));
      LostAcquisition(w, descr, Invalidate(a.s, Some(scope)), scope);
      assert RetryRejected(w, a.s, req, scope).rc == NotFound;
    } else {
      LostAcquisition(w, descr, s, scope);
    }
  }

  lemma StillCredential(s: State, s': State)
    requires HasCredential(s) && s'.auth.Some? && s'.auth.value.(cache := map[]) == s.auth.value.(cache := map[])
    ensures HasCredential(s')
  {
  }

  lemma LostDispatch(w: Env, descr: string, s: State, req: Request, scope: string)
    requires LosesLogins(w, descr) && req.bearer.Some?
    ensures DispatchRecovering(w, s, req, Some(scope)) == Attempt(Ok, 401, NoBody, Dispatch(w, s, req, Some(scope)))
  {
    hide CheckinRun, Asked;
  }

  // ------------------------------------------------------- exactly when

  /** What a search that succeeds brings back is all the matches the device holds. */
  predicate Trusted(w: Env, parse: Parser, descr: string, s: State, repo: seq<Entry>) {
    var r := Walk(w, parse, Matching(descr), s, []);
    r.rc == Ok ==> r.page.entries == repo
  }

  lemma {:induction false} NotTrusted(w: Env, parse: Parser, descr: string, s: State, repo: seq<Entry>)
    requires LosesLogins(w, descr) && HasCredential(s) && repo != []
    ensures !Trusted(w, parse, descr, s, repo)
  {
    hide RequestJson, LosesLogins, HasCredential;
    LostRequest(w, descr, s, POST, SEARCH_PATH, Page(descr, 0), SEARCH_SCOPE);
    assert Fetch(w, parse, Matching(descr), s, 0).page == EMPTY_PAGE;
  }

  /**
   * A search for something the device holds can be trusted, whatever else the device does, exactly when
   * the session has no credential to acquire a token with.
   */
  lemma {:induction false} SearchTrustedExactly(w: Env, parse: Parser, descr: string, s: State, repo: seq<Entry>)
    requires repo != []
    ensures (forall device: (History, Request) -> Outcome ::
               Holds(w.(device := device), parse, Matching(descr), repo) ==>
                 Trusted(w.(device := device), parse, descr, s, repo))
            <==> !Mobile(s) && !HasPassphrase(s)
  {
    hide Trusted, Holds, Lost;
    if HasCredential(s) {
      var w' := w.(device := (log, req) => Lost(descr, req));
      LostHolds(w', parse, descr, repo);
      NotTrusted(w', parse, descr, s, repo);
      assert !(Holds(w.(device := w'.device), parse, Matching(descr), repo) ==>
                 Trusted(w.(device := w'.device), parse, descr, s, repo));
    } else {
      forall device: (History, Request) -> Outcome | Holds(w.(device := device), parse, Matching(descr), repo)
        ensures Trusted(w.(device := device), parse, descr, s, repo)
      {
        TrustedWithout(w.(device := device), parse, descr, s, repo);
      }
    }
  }

  lemma {:induction false} TrustedWithout(w: Env, parse: Parser, descr: string, s: State, repo: seq<Entry>)
    requires !HasCredential(s) && Holds(w, parse, Matching(descr), repo)
    ensures Trusted(w, parse, descr, s, repo)
  {
    hide Walk, Holds;
    SearchIsWhole(w, parse, descr, s, repo, []);
  }

  /** After a login, a search for keys the device holds succeeds with none, and was never dispatched. */
  lemma {:induction false} SearchWithoutDispatch(passphrase: string, parse: Parser, descr: string, repo: seq<Entry>)
    requires repo != []
    ensures var w := Env(false, true, false, 1, 1, "", (log, req) => Lost(descr, req), n => 0, bytes => NoBody,
                         (a, b, c) => None);
            var s := Guarantees.Reached(w, [DoLogin(passphrase)]);
            var r := Walk(w, parse, Matching(descr), s, []);
            && Holds(w, parse, Matching(descr), repo)
            && r.rc == Ok && r.page.entries == [] && Owns(r.s.log) == Owns(s.log)
  {
    hide Lost, Holds, Inv, RequestJson, LosesLogins;
    var w := Env(false, true, false, 1, 1, "", (log, req) => Lost(descr, req), n => 0, bytes => NoBody,
                 (a, b, c) => None);
    LosesThem(w, descr);
    LostHolds(w, parse, descr, repo);
    RunKeeps(w, [DoLogin(passphrase)]);
    AfterLogin(w, passphrase);
    hide Guarantees.Reached;
    var s := Guarantees.Reached(w, [DoLogin(passphrase)]);
    LostRequest(w, descr, s, POST, SEARCH_PATH, Page(descr, 0), SEARCH_SCOPE);
    NothingOwned(w, descr, s, Page(descr, 0));
  }

  lemma LosesThem(w: Env, descr: string)
    requires forall log: History, req: Request :: w.device(log, req) == Lost(descr, req)
    ensures LosesLogins(w, descr)
  {
  }

  lemma {:induction false} AfterLogin(w: Env, passphrase: string)
    ensures var s := Guarantees.Reached(w, [DoLogin(passphrase)]);
            HasCredential(s) && s.auth.value.cache == map[]
  {
    assert [DoLogin(passphrase)][..0] == [];
    assert Run(w, Start(), [DoLogin(passphrase)][..0]) == Start();
  }

  lemma {:induction false} NothingOwned(w: Env, descr: string, s: State, body: Body)
    requires LosesLogins(w, descr) && Inv(w, s) && HasCredential(s) && !FreshHit(w, s, SEARCH_SCOPE)
    ensures Owns(RequestJson(w, s, POST, SEARCH_PATH, body, Some(SEARCH_SCOPE), Default).s.log) == Owns(s.log)
  {
    hide EnsureToken, Inv, LosesLogins;
    LostAcquisition(w, descr, s, SEARCH_SCOPE);
    EnsureSteps(w, s, SEARCH_SCOPE);
  }
}
