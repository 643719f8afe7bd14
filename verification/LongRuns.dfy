/**
 The send bounds of a walk over the key repository and of a random-byte harvest are exact too: a
 device against which every single request costs its maximum, and every single one succeeds.
 */
module LongRuns {
  import opened Options
  import opened Bits
  import opened Wire
  import opened Engine
  import opened Ledger
  import opened Requests
  import opened Devices
  import opened KeyWalk
  import Base64
  import Guarantees
  import RandomBytes
  import Rejecting
  import Runs
  import WorstCase

  /** While `ok`, a request for the scope costs exactly so many sends, is served everything, and stays ok. */
  ghost predicate Steady(w: Env, scope: string, ok: State -> bool, cost: nat) {
    && (forall s: State, verb: Method, path: string, body: Body :: ok(s) ==>
          Served(s, RequestRaw(w, s, verb, path, body, Some(scope), Default), ok, cost))
    && (forall s: State :: ok(s) ==> ok(ClearError(s)))
  }

  predicate Served(s: State, g: Got, ok: State -> bool, cost: nat) {
    && g.rc == Ok && g.body == Everything() && g.s.checkinDone && ok(g.s)
    && Usage(g.s.log).sends == Usage(s.log).sends + StartSends(s) + cost
  }

  /** The device that makes every request cost 52 sends. */
  lemma {:induction false} WorstIsSteady(timeout: Millis, interval: Millis, scope: string) returns (ok: State -> bool)
    ensures Steady(WorstCase.Worst(timeout, interval), scope, ok, 52)
    ensures forall passphrase: string ::
              ok(Guarantees.Reached(WorstCase.Worst(timeout, interval), [Runs.DoLogin(passphrase)]))
  {
    hide WorstCase.Set, Everything, RequestRaw, Guarantees.Reached, WorstCase.AnswerTo, Usage;
    var w := WorstCase.Worst(timeout, interval);
    ok := s => WorstCase.Set(w, s, scope) && s.auth.Some? && !s.auth.value.mobile;
    forall s: State, verb: Method, path: string, body: Body | ok(s)
      ensures Served(s, RequestRaw(w, s, verb, path, body, Some(scope), Default), ok, 52)
    {
      WorstCase.WholeRequest(w, s, verb, path, body, scope);
      WorstHasSession(w, RequestRaw(w, s, verb, path, body, Some(scope), Default).s, scope);
    }
    forall s: State | ok(s)
      ensures ok(ClearError(s))
    {
      WorstStays(w, s, scope);
    }
    forall passphrase: string
      ensures ok(Guarantees.Reached(w, [Runs.DoLogin(passphrase)]))
    {
      WorstCase.AfterLogin(w, passphrase, scope);
      WorstHasSession(w, Guarantees.Reached(w, [Runs.DoLogin(passphrase)]), scope);
    }
  }

  lemma WorstHasSession(w: Env, s: State, scope: string)
    requires WorstCase.Set(w, s, scope)
    ensures s.auth.Some?
  {
  }

  lemma WorstStays(w: Env, s: State, scope: string)
    ensures WorstCase.Set(w, ClearError(s), scope) == WorstCase.Set(w, s, scope)
  {
    NothingFresher(w, s, ClearError(s), scope);
    hide FreshHit;
  }

  /** And with automatic check-ins off, the one that makes it cost 6. */
  lemma {:induction false} PatientIsSteady(timeout: Millis, interval: Millis, scope: string) returns (ok: State -> bool)
    ensures var w := Rejecting.Patient(true, false, 4000, timeout, interval);
            && Steady(w, scope, ok, 6)
            && forall passphrase: string :: ok(Guarantees.Reached(w, [Runs.DoLogin(passphrase)]))
  {
    hide Rejecting.Set, Rejecting.Serves, Everything, RequestRaw, Guarantees.Reached, Rejecting.AnswerTo, Usage,
         FreshHit;
    var w := Rejecting.Patient(true, false, 4000, timeout, interval);
    Rejecting.PatientServes(true, false, 4000, timeout, interval);
    ok := s => Rejecting.Set(w, s, scope) && s.auth.Some? && !s.auth.value.mobile;
    forall s: State, verb: Method, path: string, body: Body | ok(s)
      ensures Served(s, RequestRaw(w, s, verb, path, body, Some(scope), Default), ok, 6)
    {
      Rejecting.WholeRequest(w, false, 4000, s, verb, path, body, scope);
    }
    forall s: State | ok(s)
      ensures ok(ClearError(s))
    {
      PatientStays(w, s, scope);
    }
    forall passphrase: string
      ensures ok(Guarantees.Reached(w, [Runs.DoLogin(passphrase)]))
    {
      Rejecting.AfterLogin(w, passphrase, scope);
      PatientHasSession(w, Guarantees.Reached(w, [Runs.DoLogin(passphrase)]), scope);
    }
  }

  lemma PatientHasSession(w: Env, s: State, scope: string)
    requires Rejecting.Set(w, s, scope)
    ensures s.auth.Some?
  {
  }

  lemma PatientStays(w: Env, s: State, scope: string)
    ensures Rejecting.Set(w, ClearError(s), scope) == Rejecting.Set(w, s, scope)
  {
    NothingFresher(w, s, ClearError(s), scope);
    hide FreshHit;
  }

  lemma {:induction false} JsonServed(w: Env, scope: string, ok: State -> bool, cost: nat, s: State, verb: Method,
        path: string, body: Body)
    requires Steady(w, scope, ok, cost) && ok(s)
    ensures Served(s, RequestJson(w, s, verb, path, body, Some(scope), Default), ok, cost)
  {
    hide RequestRaw, Everything, Usage;
    Members();
    assert Served(s, RequestRaw(w, s, verb, path, body, Some(scope), Default), ok, cost);
  }

  // ------------------------------------------------------------------- walk

  /** One entry a page, of so many reported. */
  function OneEntry(total: Int64): Parser {
    body => Some(Page(total, [Entry("k", [], "t")]))
  }

  lemma {:induction false} WalkCosts(w: Env, ok: State -> bool, cost: nat, total: Int64, s: State, got: seq<Entry>)
    requires Steady(w, LIST_SCOPE, ok, cost) && ok(s)
    ensures var r := Walk(w, OneEntry(total), Listing, s, got);
            && r.rc == Ok && r.requests == Most(1, total - |got|)
            && Usage(r.s.log).sends == Usage(s.log).sends + StartSends(s) + cost * r.requests
    decreases total - |got|
  {
    hide RequestJson, Usage, Steady, Everything;
    SteadyClears(w, LIST_SCOPE, ok, cost, s);
    JsonServed(w, LIST_SCOPE, ok, cost, ClearError(s), GET, ListPath(|got|, WALK_PAGE), NoBody);
    var f := Fetch(w, OneEntry(total), Listing, s, |got|);
    var got' := got + f.page.entries;
    assert f.rc == Ok && f.page == Page(total, [Entry("k", [], "t")]);
    if |got'| < total {
      WalkCosts(w, ok, cost, total, f.s, got');
      var r := Walk(w, OneEntry(total), Listing, f.s, got');
      assert cost * (r.requests + 1) == cost * r.requests + cost;
    } else {
      assert cost * 1 == cost;
    }
  }

  /** Whatever the device, as far as pages parsed this way go. */
  lemma {:induction false} OneEntryIsOneByOne(w: Env, total: Int64)
    requires total >= 0
    ensures OneByOne(w, OneEntry(total), Listing, total)
  {
    hide RequestJson;
  }

  lemma SteadyClears(w: Env, scope: string, ok: State -> bool, cost: nat, s: State)
    requires Steady(w, scope, ok, cost) && ok(s)
    ensures ok(ClearError(s))
  {
  }

  /** A walk over so many keys, one a page: 52 sends for each, and three for the session start. */
  lemma {:induction false} WalkBoundIsReached(timeout: Millis, interval: Millis, passphrase: string, total: Int64)
    ensures var w := WorstCase.Worst(timeout, interval);
            var s := Guarantees.Reached(w, [Runs.DoLogin(passphrase)]);
            var r := Walk(w, OneEntry(total), Listing, s, []);
            && r.rc == Ok && Usage(r.s.log).sends == Usage(s.log).sends + 3 + 52 * Most(1, total)
            && (total >= 0 ==> OneByOne(w, OneEntry(total), Listing, total))
    ensures var w := Rejecting.Patient(true, false, 4000, timeout, interval);
            var s := Guarantees.Reached(w, [Runs.DoLogin(passphrase)]);
            var r := Walk(w, OneEntry(total), Listing, s, []);
            r.rc == Ok && Usage(r.s.log).sends == Usage(s.log).sends + 3 + 6 * Most(1, total)
  {
    hide Steady, Walk, Usage, Guarantees.Reached, WorstCase.AnswerTo, Rejecting.AnswerTo, Rejecting.Set, WorstCase.Set,
         OneByOne;
    if total >= 0 {
      OneEntryIsOneByOne(WorstCase.Worst(timeout, interval), total);
    }
    var w := WorstCase.Worst(timeout, interval);
    var ok := WorstIsSteady(timeout, interval, LIST_SCOPE);
    WorstCase.AfterLogin(w, passphrase, LIST_SCOPE);
    WalkCosts(w, ok, 52, total, Guarantees.Reached(w, [Runs.DoLogin(passphrase)]), []);
    var w' := Rejecting.Patient(true, false, 4000, timeout, interval);
    var ok' := PatientIsSteady(timeout, interval, LIST_SCOPE);
    Rejecting.AfterLogin(w', passphrase, LIST_SCOPE);
    WalkCosts(w', ok', 6, total, Guarantees.Reached(w', [Runs.DoLogin(passphrase)]), []);
  }

  // ----------------------------------------------------------- random bytes

  lemma CipherFields()
    ensures Ciphertext(Everything())
    ensures FixedField(Everything(), "iv", IV_LEN) == Some(Some(seq(16, _ => 0)))
    ensures FixedField(Everything(), "tag", 16) == Some(Some(seq(16, _ => 0)))
  {
    hide Everything, Block, OneByte, Base64.Decode;
    Members();
    BlockDecodes();
    OneByteDecodes();
  }

  lemma {:induction false} EncryptCosts(w: Env, ok: State -> bool, cost: nat, s: State, kid: string)
    requires Steady(w, "keymgmt:use:" + kid, ok, cost) && ok(s)
    ensures var c := Encrypt(w, s, kid);
            && c.iv == Some(seq(16, _ => 0)) && c.s.checkinDone && ok(c.s)
            && Usage(c.s.log).sends == Usage(s.log).sends + StartSends(s) + cost
  {
    hide RequestJson, Usage, Steady, Everything, FixedField, Ciphertext;
    CipherFields();
    var body := Object(map["kid" := Str(kid), "alg" := Str("AES128-CBC"), "msg" := Str("AA==")]);
    SteadyClears(w, "keymgmt:use:" + kid, ok, cost, s);
    JsonServed(w, "keymgmt:use:" + kid, ok, cost, ClearError(s), POST, "/api/crypto/cipher/encrypt", body);
  }

  lemma {:induction false} AfterCosts(w: Env, ok: State -> bool, cost: nat, s: State, kid: string, calls: nat)
    requires Steady(w, "keymgmt:use:" + kid, ok, cost) && ok(s)
    ensures var s' := RandomBytes.After(w, s, kid, calls);
            && ok(s') && (calls > 0 ==> s'.checkinDone)
            && Usage(s'.log).sends == Usage(s.log).sends + (if calls > 0 then StartSends(s) + cost * calls else 0)
  {
    hide Steady, Encrypt, Usage;
    if calls > 0 {
      AfterCosts(w, ok, cost, s, kid, calls - 1);
      EncryptCosts(w, ok, cost, RandomBytes.After(w, s, kid, calls - 1), kid);
      assert cost * calls == cost * (calls - 1) + cost;
    }
  }

  /** Against such a device a harvest succeeds, at its full cost. */
  lemma {:induction false} HarvestCosts(w: Env, ok: State -> bool, cost: nat, s: State, kid: string, len: nat,
        before: seq<byte>, rc: Rc, s': State, after: seq<byte>)
    requires Steady(w, "keymgmt:use:" + kid, ok, cost) && ok(s) && RandomBytes.IsKidHex(kid) && 0 < len <= |before|
    requires RandomBytes.Filled(w, s, kid, len, before, rc, s', after)
    ensures rc == Ok
    ensures Usage(s'.log).sends == Usage(s.log).sends + StartSends(s) + cost * ((len + 15) / 16)
  {
    hide Steady, Encrypt, Usage, RandomBytes.Harvested, RandomBytes.After;
    var s1 := ClearError(s);
    SteadyClears(w, "keymgmt:use:" + kid, ok, cost, s);
    var ivs: seq<seq<byte>> :| RandomBytes.Harvested(w, s1, kid, len, before, rc, s', after, ivs);
    NeverFails(w, ok, cost, s1, kid, len, before, rc, s', after, ivs);
    AfterCosts(w, ok, cost, s1, kid, |ivs|);
  }

  lemma {:induction false} NeverFails(w: Env, ok: State -> bool, cost: nat, s: State, kid: string, len: nat,
        before: seq<byte>, rc: Rc, s': State, after: seq<byte>, ivs: seq<seq<byte>>)
    requires Steady(w, "keymgmt:use:" + kid, ok, cost) && ok(s) && 0 < len <= |before|
    requires RandomBytes.Harvested(w, s, kid, len, before, rc, s', after, ivs)
    ensures rc == Ok && s' == RandomBytes.After(w, s, kid, |ivs|) && |ivs| == (len + 15) / 16
  {
    hide Steady, Encrypt, Usage, RandomBytes.After, RandomBytes.Concat, RandomBytes.Served;
    AfterCosts(w, ok, cost, s, kid, |ivs|);
    EncryptCosts(w, ok, cost, RandomBytes.After(w, s, kid, |ivs|), kid);
  }

  /** So many bytes: 52 sends for each 16 begun, and three for the session start. */
  lemma {:induction false} RandomBoundIsReached(timeout: Millis, interval: Millis, passphrase: string, kid: string,
        len: nat, before: seq<byte>, rc: Rc, s': State, after: seq<byte>, off: bool)
    requires RandomBytes.IsKidHex(kid) && 0 < len <= |before|
    requires var w := if off then Rejecting.Patient(true, false, 4000, timeout, interval)
                      else WorstCase.Worst(timeout, interval);
             RandomBytes.Filled(w, Guarantees.Reached(w, [Runs.DoLogin(passphrase)]), kid, len, before, rc, s', after)
    ensures var w := if off then Rejecting.Patient(true, false, 4000, timeout, interval)
                     else WorstCase.Worst(timeout, interval);
            var s := Guarantees.Reached(w, [Runs.DoLogin(passphrase)]);
            && rc == Ok
            && Usage(s'.log).sends == Usage(s.log).sends + 3 + (if off then 6 else 52) * ((len + 15) / 16)
  {
    hide Steady, Usage, Guarantees.Reached, WorstCase.AnswerTo, Rejecting.AnswerTo, Rejecting.Set, WorstCase.Set,
         RandomBytes.Filled, RandomBytes.IsKidHex;
    var scope := "keymgmt:use:" + kid;
    if off {
      var w := Rejecting.Patient(true, false, 4000, timeout, interval);
      var ok := PatientIsSteady(timeout, interval, scope);
      Rejecting.AfterLogin(w, passphrase, scope);
      HarvestCosts(w, ok, 6, Guarantees.Reached(w, [Runs.DoLogin(passphrase)]), kid, len, before, rc, s', after);
    } else {
      var w := WorstCase.Worst(timeout, interval);
      var ok := WorstIsSteady(timeout, interval, scope);
      WorstCase.AfterLogin(w, passphrase, scope);
      HarvestCosts(w, ok, 52, Guarantees.Reached(w, [Runs.DoLogin(passphrase)]), kid, len, before, rc, s', after);
    }
  }
}
