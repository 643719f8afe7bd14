/**
 What a history says: how much was sent and why, which dispatches were made for a scope, where every
 bearer came from, what each confirmation handle was used for. All of it reads the history alone.
 */
module Ledger {
  import opened Options
  import opened Wire
  import opened Engine

  datatype Use = Use(sends: nat, proactive: nat, budgeted: nat, slept: nat)

  function Last(log: History): Event
    requires |log| > 0
  {
    log[|log| - 1]
  }

  function Front(log: History): History
    requires |log| > 0
  {
    log[..|log| - 1]
  }

  function Charge(e: Event): Use {
    match e
    case Sent(_, _, _) => Use(1, 0, 0, 0)
    case CheckinBegan(why) => Use(0, if why.Proactive? then 1 else 0, if why.Budgeted? then 1 else 0, 0)
    case Slept(ms) => Use(0, 0, 0, ms)
    case _ => Use(0, 0, 0, 0)
  }

  /** Totals over a history. */
  function Usage(log: History): Use {
    if |log| == 0 then Use(0, 0, 0, 0)
    else
      var u, c := Usage(Front(log)), Charge(Last(log));
      Use(u.sends + c.sends, u.proactive + c.proactive, u.budgeted + c.budgeted, u.slept + c.slept)
  }

  /** Check-ins begun for this reason. */
  function Checkins(log: History, why: Reason): nat {
    if |log| == 0 then 0
    else Checkins(Front(log), why) + (if Last(log) == CheckinBegan(why) then 1 else 0)
  }

  /** Dispatches made under a bearer, that is, the bindings' own requests. */
  function Owns(log: History): History {
    if |log| == 0 then []
    else Owns(Front(log)) + (if Last(log).Sent? && Last(log).scope.Some? then [Last(log)] else [])
  }

  /** Acquisitions completed since the last passphrase login. */
  function Mints(log: History): nat {
    if |log| == 0 then 0
    else if Last(log).LoggedIn? then 0
    else Mints(Front(log)) + (if Last(log).Stored? && Last(log).source.ByPost? then 1 else 0)
  }

  /** At no point had two acquisitions completed since a login. */
  predicate MintedOncePerLogin(log: History) {
    |log| == 0 || (MintedOncePerLogin(Front(log)) && Mints(log) <= 1)
  }

  /** Conclusive answers a confirmation handle got. */
  function Answers(log: History, h: nat): nat {
    if |log| == 0 then 0
    else Answers(Front(log), h) + (if Last(log).Answered? && Last(log).handle == h then 1 else 0)
  }

  /** Times a confirmation's authreply was redeemed. */
  function Redemptions(log: History, h: nat): nat {
    if |log| == 0 then 0
    else Redemptions(Front(log), h) + (if Last(log) == Redeemed(h) then 1 else 0)
  }

  // ------------------------------------------------------------ provenance

  /** No login since this point, and nothing stored under the scope. */
  predicate Undisturbed(log: History, from: nat, scope: string) {
    forall k :: from <= k < |log| ==> !log[k].LoggedIn? && !(log[k].Stored? && log[k].key == scope)
  }

  /** The token stored under the scope here is the newest there, and younger than the last login. */
  predicate StandsAt(log: History, j: nat, scope: string, token: string)
    requires j < |log|
  {
    log[j].Stored? && log[j].key == scope && log[j].token == token && Undisturbed(log, j + 1, scope)
  }

  ghost predicate HasStored(log: History, scope: string, token: string) {
    exists j :: 0 <= j < |log| && StandsAt(log, j, scope, token)
  }

  /** A token POST for `scope`, answered with `token`. */
  predicate IsLoginPost(e: Event, scope: string, token: string) {
    && e.Sent? && e.scope.None?
    && e.req.verb == POST && e.req.path == TOKEN_PATH
    && e.req.body.Object? && "auth" in e.req.body.fields
    && e.req.body.fields["auth"].Signed? && e.req.body.fields["auth"].claims.scope == scope
    && e.out.Success() && e.out.body.Text("token") == Some(token)
  }

  /** A redemption of `reply`, answered with `token`. */
  predicate IsRedemption(e: Event, reply: string, token: string) {
    && e.Sent? && e.scope.None?
    && e.req.verb == POST && e.req.path == EXT_TOKEN_PATH
    && e.req.body.Text("authreply") == Some(reply)
    && e.out.Success() && e.out.body.Text("token") == Some(token)
  }

  predicate EndsWith(s: string, suffix: string) {
    |s| >= |suffix| && s[|s| - |suffix|..] == suffix
  }

  /** A broker poll for `eventid` that carried this conclusive answer. */
  predicate IsConclusivePoll(e: Event, eventid: string, reply: Option<string>) {
    && e.Sent? && e.scope.None? && e.req.verb == GET && e.req.tls == Verify
    && EndsWith(e.req.path, CheckPath(eventid))
    && e.out.Success() && e.out.status != 202 && e.out.body.Object?
    && (reply.None? <==> "deny" in e.out.body.fields)
    && (reply.Some? ==> e.out.body.Text("authreply") == reply)
  }

  ghost predicate AnsweredWith(log: History, h: nat, scope: string, token: string) {
    exists reply, eventid ::
      && Begun(h, scope, eventid) in log
      && Answered(h, Some(reply)) in log
      && Redeemed(h) in log
      && IsRedemption(Last(log), reply, token)
  }

  ghost predicate BegunWith(log: History, h: nat, reply: Option<string>) {
    exists scope, eventid :: Begun(h, scope, eventid) in log && IsConclusivePoll(Last(log), eventid, reply)
  }

  /** What must have happened before an event. */
  ghost predicate Justified(before: History, e: Event) {
    match e
    case Sent(req, None, _) => req.bearer.None?
    case Sent(req, Some(scope), _) => req.bearer.Some? && HasStored(before, scope, req.bearer.value)
    case Stored(scope, token, ByPost) => |before| > 0 && IsLoginPost(Last(before), scope, token)
    case Stored(scope, token, ByConfirm(h)) => |before| > 0 && AnsweredWith(before, h, scope, token)
    case Begun(h, _, _) => h == |before|
    case Answered(h, reply) => |before| > 0 && BegunWith(before, h, reply) && Answers(before, h) == 0
    case Redeemed(h) => |before| > 0 && Last(before).Answered? && Last(before).handle == h && Last(before).reply.Some?
    case _ => true
  }

  ghost predicate WellSourced(log: History) {
    |log| == 0 || (WellSourced(Front(log)) && Justified(Front(log), Last(log)))
  }

  // ------------------------------------------------------ one event more

  lemma FrontOfAppend(log: History, e: Event)
    ensures Front(log + [e]) == log && Last(log + [e]) == e
  {
  }

  /** The tallies after one more event. */
  lemma {:induction false} Append(log: History, e: Event)
    ensures Usage(log + [e]) == Use(Usage(log).sends + Charge(e).sends, Usage(log).proactive + Charge(e).proactive,
                                    Usage(log).budgeted + Charge(e).budgeted, Usage(log).slept + Charge(e).slept)
    ensures Owns(log + [e]) == Owns(log) + (if e.Sent? && e.scope.Some? then [e] else [])
    ensures Mints(log + [e])
         == if e.LoggedIn? then 0 else Mints(log) + (if e.Stored? && e.source.ByPost? then 1 else 0)
    ensures MintedOncePerLogin(log + [e]) <==> MintedOncePerLogin(log) && Mints(log + [e]) <= 1
    ensures WellSourced(log + [e]) <==> WellSourced(log) && Justified(log, e)
    ensures forall h: nat ::
              Answers(log + [e], h) == Answers(log, h) + (if e.Answered? && e.handle == h then 1 else 0)
  {
    FrontOfAppend(log, e);
  }

  // -------------------------------------------------- unauthenticated runs

  /** An unauthenticated exchange or the mark of a check-in. */
  predicate Anonymous(e: Event) {
    (e.Sent? && e.scope.None? && e.req.bearer.None?) || e.CheckinBegan?
  }

  /** `b` continues `a` with unauthenticated events only. */
  predicate Anonymously(a: History, b: History) {
    a <= b && forall i :: |a| <= i < |b| ==> Anonymous(b[i])
  }

  lemma AnonymousStep(a: History, b: History, e: Event)
    requires Anonymously(a, b) && Anonymous(e)
    ensures Anonymously(a, b + [e])
  {
  }

  lemma AnonymousTrans(a: History, b: History, c: History)
    requires Anonymously(a, b) && Anonymously(b, c)
    ensures Anonymously(a, c)
  {
    forall i | |a| <= i < |c|
      ensures Anonymous(c[i])
    {
      if i < |b| {
        assert c[i] == b[i];
      }
    }
  }

  /** Unauthenticated traffic touches no bearer, no login and no confirmation. */
  lemma {:induction false} AnonymousKeeps(a: History, b: History)
    requires Anonymously(a, b)
    ensures Owns(b) == Owns(a)
    ensures Mints(b) == Mints(a)
    ensures MintedOncePerLogin(a) && Mints(a) <= 1 ==> MintedOncePerLogin(b)
    ensures WellSourced(a) ==> WellSourced(b)
    ensures Usage(b).slept == Usage(a).slept
    ensures forall h: nat :: Answers(b, h) == Answers(a, h)
    decreases |b|
  {
    if |b| > |a| {
      var front, e := Front(b), Last(b);
      assert b == front + [e];
      assert a <= front;
      AnonymousKeeps(a, front);
      Append(front, e);
    } else {
      assert a == b;
    }
  }
}
