/**
 Random bytes from the device: one encrypt call per 16 bytes, keeping only the initialisation vector
 each call returns (src/proto_crypto.c).
 */
module RandomBytes {
  import opened Options
  import opened Bits
  import opened Sequences
  import opened Wire
  import opened Engine
  import opened Ledger
  import opened Acquisition
  import opened Confirmation
  import opened Requests
  import Base64
  import C = Context

  const KID_LEN: nat := 32

  predicate IsKidHex(kid: string) {
    && |kid| == KID_LEN
    && forall i :: 0 <= i < |kid| ==>
         '0' <= kid[i] <= '9' || 'a' <= kid[i] <= 'f' || 'A' <= kid[i] <= 'F'
  }

  // --------------------------------------------------------- specification

  function Concat(chunks: seq<seq<byte>>): seq<byte> {
    if |chunks| == 0 then [] else Concat(chunks[..|chunks| - 1]) + chunks[|chunks| - 1]
  }

  /** The context after this many encrypt calls. */
  function After(w: Env, s: State, kid: string, calls: nat): State {
    if calls == 0 then s else Encrypt(w, After(w, s, kid, calls - 1), kid).s
  }

  /** The outcome of the encrypt call with this number, counting from nought. */
  function Nth(w: Env, s: State, kid: string, i: nat): Cipher {
    Encrypt(w, After(w, s, kid, i), kid)
  }

  /** The first `calls` encrypt calls each returned an IV, and these are the IVs. */
  predicate Served(w: Env, s: State, kid: string, ivs: seq<seq<byte>>) {
    forall i :: 0 <= i < |ivs| ==> Nth(w, s, kid, i).iv == Some(ivs[i])
  }

  /** What the caller sees of the encrypt call that ended the harvest. */
  function Failure(c: Cipher): (Rc, State)
    requires c.iv.None?
  {
    if c.rc != Ok then (c.rc, c.s) else (Protocol, SetError(c.s, 200, false))
  }

  /** As many calls as it takes for 16 bytes each to cover the request. */
  predicate JustEnough(calls: nat, len: nat) {
    IV_LEN * calls >= len && IV_LEN * (calls - 1) < len
  }

  /**
   * What a request for `len` bytes does to a buffer: bad arguments leave it alone; a failed call
   * leaves zeroes where it had been filled; success fills it from the IVs of just enough calls.
   */
  ghost predicate Filled(w: Env, s: State, kid: string, len: nat, before: seq<byte>,
                         rc: Rc, s': State, after: seq<byte>)
    requires len <= |before|
  {
    var s1 := ClearError(s);
    if !IsKidHex(kid) || len < 1 then
      rc == Arg && s' == SetError(s1, 0, false) && after == before
    else
      exists ivs: seq<seq<byte>> :: Harvested(w, s1, kid, len, before, rc, s', after, ivs)
  }

  ghost predicate Harvested(w: Env, s: State, kid: string, len: nat, before: seq<byte>,
                            rc: Rc, s': State, after: seq<byte>, ivs: seq<seq<byte>>)
    requires len <= |before|
  {
    && Served(w, s, kid, ivs)
    && if rc == Ok then
         && JustEnough(|ivs|, len) && s' == After(w, s, kid, |ivs|)
         && |Concat(ivs)| >= len && after == Concat(ivs)[..len] + before[len..]
       else
         && IV_LEN * |ivs| < len
         && Nth(w, s, kid, |ivs|).iv.None? && (rc, s') == Failure(Nth(w, s, kid, |ivs|))
         && after == Repeat<byte>(0, IV_LEN * |ivs|) + before[IV_LEN * |ivs|..]
  }

  // -------------------------------------------------------- implementation

  method Copy(buf: array<byte>, at: nat, src: seq<byte>)
    requires at + |src| <= buf.Length
    modifies buf
    ensures buf[..] == old(buf[..])[..at] + src + old(buf[..])[at + |src|..]
  {
    for i := 0 to |src|
      invariant forall k :: 0 <= k < buf.Length ==>
                  buf[k] == if at <= k < at + i then src[k - at] else old(buf[k])
    {
      buf[at + i] := src[i];
    }
  }

  method Wipe(buf: array<byte>, n: nat)
    requires n <= buf.Length
    modifies buf
    ensures buf[..] == Repeat<byte>(0, n) + old(buf[..])[n..]
  {
    for i := 0 to n
      invariant forall k :: 0 <= k < buf.Length ==> buf[k] == if k < i then 0 else old(buf[k])
    {
      buf[i] := 0;
    }
  }

  lemma NthEncrypts(w: Env, s: State, kid: string, i: nat)
    ensures Nth(w, s, kid, i) == Encrypt(w, After(w, s, kid, i), kid)
    ensures After(w, s, kid, i + 1) == Nth(w, s, kid, i).s
  {
  }

  lemma NoneYet(w: Env, s: State, kid: string)
    ensures Served(w, s, kid, []) && Concat([]) == [] && After(w, s, kid, 0) == s
  {
  }

  lemma OneMore(w: Env, s: State, kid: string, ivs: seq<seq<byte>>, iv: seq<byte>)
    requires Served(w, s, kid, ivs) && Nth(w, s, kid, |ivs|).iv == Some(iv)
    ensures Served(w, s, kid, ivs + [iv])
  {
    hide Encrypt, After, Nth;
  }

  /** Fill the first `len` bytes of the buffer. */
  method Random(ctx: C.Context, kid: string, buf: array<byte>, len: nat) returns (rc: Rc)
    requires ctx.Valid() && buf !in ctx.repr && len <= buf.Length
    modifies ctx.repr, buf
    ensures ctx.Valid() && fresh(ctx.repr - old(ctx.repr)) && buf !in ctx.repr
    ensures Filled(ctx.w, old(ctx.Model()), kid, len, old(buf[..]), rc, ctx.Model(), buf[..])
  {
    ctx.ClearError();
    if !IsKidHex(kid) || len < 1 {
      rc := ctx.Fail(Arg, 0);
      return;
    }
    ghost var ivs;
    rc, ivs := Harvest(ctx, kid, buf, len);
  }

  method Harvest(ctx: C.Context, kid: string, buf: array<byte>, len: nat) returns (rc: Rc, ghost ivs: seq<seq<byte>>)
    requires ctx.Valid() && buf !in ctx.repr && 0 < len <= buf.Length
    modifies ctx.repr, buf
    ensures ctx.Valid() && fresh(ctx.repr - old(ctx.repr)) && buf !in ctx.repr
    ensures Harvested(ctx.w, old(ctx.Model()), kid, len, old(buf[..]), rc, ctx.Model(), buf[..], ivs)
  {
    hide Encrypt, Concat, Repeat, Served, Nth, After, Holding, Harvested;
    var filled: nat := 0;
    ghost var before, s1 := buf[..], ctx.Model();
    ivs := [];
    NoneYet(ctx.w, s1, kid);
    HeldNone(len, before);
    while filled < len
      invariant ctx.Valid() && fresh(ctx.repr - old(ctx.repr)) && buf !in ctx.repr
      invariant Holding(ivs, filled, len, before, buf[..])
      invariant Served(ctx.w, s1, kid, ivs) && ctx.Model() == After(ctx.w, s1, kid, |ivs|)
      decreases len - filled
    {
      var iv;
      rc, iv := NextIv(ctx, kid, buf, s1, |ivs|);
      if rc != Ok {
        Discard(buf, ivs, filled, len, before);
        HarvestFailed(ctx.w, s1, kid, len, before, rc, ctx.Model(), buf[..], ivs);
        return;
      }
      if iv.None? {
        Discard(buf, ivs, filled, len, before);
        rc := ctx.Fail(Protocol, 200);
        HarvestFailed(ctx.w, s1, kid, len, before, rc, ctx.Model(), buf[..], ivs);
        return;
      }
      OneMore(ctx.w, s1, kid, ivs, iv.value);
      filled := Take(buf, ivs, filled, len, before, iv.value);
      ivs := ivs + [iv.value];
    }
    rc := Ok;
    HarvestDone(ctx.w, s1, kid, filled, len, before, ctx.Model(), buf[..], ivs);
  }

  /** The next encrypt call; the buffer is not touched. */
  method NextIv(ctx: C.Context, kid: string, buf: array<byte>, ghost s: State, ghost i: nat)
    returns (rc: Rc, iv: Option<seq<byte>>)
    requires ctx.Valid() && buf !in ctx.repr && ctx.Model() == After(ctx.w, s, kid, i)
    modifies ctx.repr
    ensures ctx.Valid() && fresh(ctx.repr - old(ctx.repr)) && buf !in ctx.repr && buf[..] == old(buf[..])
    ensures Cipher(rc, iv, ctx.Model()) == Nth(ctx.w, s, kid, i) && ctx.Model() == After(ctx.w, s, kid, i + 1)
    ensures iv.Some? ==> rc == Ok && |iv.value| == IV_LEN
  {
    rc, iv := ctx.Encrypt(kid);
    NthEncrypts(ctx.w, s, kid, i);
    hide Encrypt;
  }

  /** Copy as much of an IV as is still wanted. */
  method Take(buf: array<byte>, ghost ivs: seq<seq<byte>>, filled: nat, len: nat, ghost before: seq<byte>,
        iv: seq<byte>)
    returns (filled': nat)
    requires Holding(ivs, filled, len, before, buf[..]) && filled < len && |iv| == IV_LEN
    modifies buf
    ensures Holding(ivs + [iv], filled', len, before, buf[..]) && filled < filled'
  {
    var take := if len - filled > IV_LEN then IV_LEN else len - filled;
    HeldMore(ivs, filled, len, before, buf[..], iv, take);
    Copy(buf, filled, iv[..take]);
    hide Holding;
    filled' := filled + take;
  }

  lemma HarvestFailed(w: Env, s: State, kid: string, len: nat, before: seq<byte>, rc: Rc, s': State, after: seq<byte>,
                      ivs: seq<seq<byte>>)
    requires len <= |before| && Served(w, s, kid, ivs) && IV_LEN * |ivs| < len
    requires Nth(w, s, kid, |ivs|).iv.None? && (rc, s') == Failure(Nth(w, s, kid, |ivs|))
    requires after == Repeat<byte>(0, IV_LEN * |ivs|) + before[IV_LEN * |ivs|..]
    ensures Harvested(w, s, kid, len, before, rc, s', after, ivs)
  {
    hide Encrypt, After;
  }

  /** No partial entropy on failure. */
  method Discard(buf: array<byte>, ghost ivs: seq<seq<byte>>, filled: nat, ghost len: nat, ghost before: seq<byte>)
    requires Holding(ivs, filled, len, before, buf[..]) && filled < len
    modifies buf
    ensures IV_LEN * |ivs| < len
    ensures buf[..] == Repeat<byte>(0, IV_LEN * |ivs|) + before[IV_LEN * |ivs|..]
  {
    HeldWiped(ivs, filled, len, before, buf[..]);
    Wipe(buf, filled);
  }

  /** A buffer filled so far from these IVs. */
  predicate Holding(ivs: seq<seq<byte>>, filled: nat, len: nat, before: seq<byte>, now: seq<byte>) {
    && filled <= len <= |before| == |now|
    && filled == (if IV_LEN * |ivs| > len then len else IV_LEN * |ivs|) && IV_LEN * (|ivs| - 1) < len
    && |Concat(ivs)| == IV_LEN * |ivs| && now == Concat(ivs)[..filled] + before[filled..]
  }

  lemma HeldNone(len: nat, before: seq<byte>)
    requires 0 < len <= |before|
    ensures Holding([], 0, len, before, before)
  {
  }

  lemma HeldMore(ivs: seq<seq<byte>>, filled: nat, len: nat, before: seq<byte>, now: seq<byte>, iv: seq<byte>,
        take: nat)
    requires Holding(ivs, filled, len, before, now) && filled < len && |iv| == IV_LEN
    requires take == if len - filled > IV_LEN then IV_LEN else len - filled
    ensures Holding(ivs + [iv], filled + take, len, before, now[..filled] + iv[..take] + now[filled + take..])
  {
    assert (ivs + [iv])[..|ivs|] == ivs;
    assert Concat(ivs + [iv]) == Concat(ivs) + iv;
    hide Concat;
  }

  lemma HeldWiped(ivs: seq<seq<byte>>, filled: nat, len: nat, before: seq<byte>, now: seq<byte>)
    requires Holding(ivs, filled, len, before, now) && filled < len
    ensures filled == IV_LEN * |ivs| && now[filled..] == before[filled..]
  {
  }

  lemma HarvestDone(w: Env, s: State, kid: string, filled: nat, len: nat, before: seq<byte>, s': State,
        after: seq<byte>,
                    ivs: seq<seq<byte>>)
    requires Holding(ivs, filled, len, before, after) && filled >= len
    requires Served(w, s, kid, ivs) && s' == After(w, s, kid, |ivs|)
    ensures Harvested(w, s, kid, len, before, Ok, s', after, ivs)
  {
    hide Encrypt, After, Concat, Served;
  }

  // --------------------------------------------------------------- results

  const HEX_DIGITS := "0123456789abcdefABCDEF"

  /**
   * A harvest is made exactly for a key id of 32 hexadecimal digits and at least one byte; otherwise
   * nothing is sent or written.
   */
  lemma {:induction false} HarvestedExactly(w: Env, s: State, kid: string, len: nat, before: seq<byte>,
                                            rc: Rc, s': State, after: seq<byte>)
    requires len <= |before| && Filled(w, s, kid, len, before, rc, s', after)
    ensures if |kid| == 32 && (forall i :: 0 <= i < 32 ==> kid[i] in HEX_DIGITS) && len > 0 then
              exists ivs: seq<seq<byte>> ::
                Harvested(w, s.(err := Error(0, false)), kid, len, before, rc, s', after, ivs)
            else rc == Arg && s' == s.(err := Error(0, false)) && after == before
  {
    hide Harvested;
    forall i | 0 <= i < |kid|
      ensures kid[i] in HEX_DIGITS
         <==> '0' <= kid[i] <= '9' || 'a' <= kid[i] <= 'f' || 'A' <= kid[i] <= 'F'
    {
      HexDigit(kid[i]);
    }
    hide HEX_DIGITS;
  }

  lemma HexDigit(c: char)
    ensures c in HEX_DIGITS <==> '0' <= c <= '9' || 'a' <= c <= 'f' || 'A' <= c <= 'F'
  {
    assert HEX_DIGITS[0] == '0' && HEX_DIGITS[1] == '1' && HEX_DIGITS[2] == '2' && HEX_DIGITS[3] == '3';
    assert HEX_DIGITS[4] == '4' && HEX_DIGITS[5] == '5' && HEX_DIGITS[6] == '6' && HEX_DIGITS[7] == '7';
    assert HEX_DIGITS[8] == '8' && HEX_DIGITS[9] == '9' && HEX_DIGITS[10] == 'a' && HEX_DIGITS[11] == 'b';
    assert HEX_DIGITS[12] == 'c' && HEX_DIGITS[13] == 'd' && HEX_DIGITS[14] == 'e' && HEX_DIGITS[15] == 'f';
    assert HEX_DIGITS[16] == 'A' && HEX_DIGITS[17] == 'B' && HEX_DIGITS[18] == 'C' && HEX_DIGITS[19] == 'D';
    assert HEX_DIGITS[20] == 'E' && HEX_DIGITS[21] == 'F';
  }

  /** A call's cost against the device, the session-start check-in apart. */
  lemma {:induction false} EncryptSteps(w: Env, s: State, kid: string)
    requires Inv(w, s)
    ensures var c := Encrypt(w, s, kid);
            && Inv(w, c.s) && Costs(s, c.s, RequestCost(w, Mobile(s), Default), 2)
            && Mobile(c.s) == Mobile(s)
  {
    var s1 := ClearError(s);
    SameButErrorInv(w, s, s1);
    var body := Object(map["kid" := Str(kid), "alg" := Str("AES128-CBC"), "msg" := Str("AA==")]);
    var path, scope := "/api/crypto/cipher/encrypt", "keymgmt:use:" + kid;
    var g := RequestRaw(w, s1, POST, path, body, Some(scope), Default);
    var own := RequestSteps(w, s1, POST, path, body, scope, Default);
    var c := Encrypt(w, s, kid);
    assert c.s == g.s || c.s == SetError(g.s, 0, false) || c.s == SetError(g.s, 200, false);
    SameButErrorInv(w, g.s, c.s);
  }

  lemma {:induction false} AfterSteps(w: Env, s: State, kid: string, calls: nat, cost: nat)
    requires Inv(w, s) && cost == RequestCost(w, Mobile(s), Default)
    ensures var s' := After(w, s, kid, calls);
            && Inv(w, s') && Costs(s, s', calls * cost, 2 * calls)
            && Mobile(s') == Mobile(s)
  {
    hide Inv, Encrypt, RequestCost;
    if calls > 0 {
      var s1 := After(w, s, kid, calls - 1);
      AfterSteps(w, s, kid, calls - 1, cost);
      EncryptSteps(w, s1, kid);
      CostsThen(s, s1, After(w, s, kid, calls), (calls - 1) * cost, 2 * (calls - 1), cost, 2);
      assert (calls - 1) * cost + cost == calls * cost;
      hide Costs, Mobile;
    }
  }

  /** A harvest makes just enough calls to succeed, and never more than that. */
  lemma {:induction false} HarvestCalls(w: Env, s: State, kid: string, len: nat, before: seq<byte>,
                                        rc: Rc, s': State, after: seq<byte>, ivs: seq<seq<byte>>)
    returns (calls: nat)
    requires 0 < len <= |before| && Harvested(w, s, kid, len, before, rc, s', after, ivs)
    ensures 1 <= calls <= (len + 15) / 16
    ensures rc == Ok ==> calls == (len + 15) / 16
    ensures var s2 := After(w, s, kid, calls); s' == s2 || s' == SetError(s2, 200, false)
  {
    hide Encrypt, Concat, Served, Repeat;
    calls := if rc == Ok then |ivs| else |ivs| + 1;
  }

  lemma {:induction false} HarvestSteps(w: Env, s: State, kid: string, calls: nat, s': State)
    requires Inv(w, s)
    requires var s2 := After(w, s, kid, calls); s' == s2 || s' == SetError(s2, 200, false)
    ensures Inv(w, s') && Costs(s, s', calls * RequestCost(w, Mobile(s), Default), 2 * calls)
  {
    hide After, Inv, Encrypt, RequestCost, Usage;
    AfterSteps(w, s, kid, calls, RequestCost(w, Mobile(s), Default));
    SameButErrorInv(w, After(w, s, kid, calls), s');
  }

  /** On failure no byte the device sent stays in the buffer. */
  lemma {:induction false} NoPartialEntropy(w: Env, s: State, kid: string, len: nat, before: seq<byte>,
                                            rc: Rc, s': State, after: seq<byte>)
    requires len <= |before| && Filled(w, s, kid, len, before, rc, s', after)
    ensures |after| == |before| && after[len..] == before[len..]
    ensures rc != Ok ==> exists n: nat :: n <= len && after == Repeat<byte>(0, n) + before[n..]
  {
    hide Encrypt, After, Failure;
    if IsKidHex(kid) && len >= 1 {
      var ivs: seq<seq<byte>> :| Harvested(w, ClearError(s), kid, len, before, rc, s', after, ivs);
    } else {
      assert after == Repeat<byte>(0, 0) + before[0..];
    }
  }

  lemma Scaled(a: nat, b: nat, c: nat)
    requires a <= b
    ensures a * c <= b * c
  {
  }

  /**
   * Whatever the device does, `len` bytes cost at most 52 sends for each 16 begun, and three more
   * if the session-start check-in falls due (6 each, with automatic check-ins off).
   */
  lemma {:induction false} RandomBound(w: Env, s: State, kid: string, len: nat, before: seq<byte>,
                                       rc: Rc, s': State, after: seq<byte>)
    requires Inv(w, s) && !Mobile(s) && len <= |before| && Filled(w, s, kid, len, before, rc, s', after)
    ensures Inv(w, s')
    ensures Usage(s'.log).sends
              <= Usage(s.log).sends + 3 + (if w.noAutoCheckin then 6 else 52) * ((len + 15) / 16)
  {
    hide Inv, Usage, Harvested, RequestCost;
    var s1 := ClearError(s);
    SameButErrorInv(w, s, s1);
    CallCost(w);
    if IsKidHex(kid) && len >= 1 {
      var ivs: seq<seq<byte>> :| Harvested(w, s1, kid, len, before, rc, s', after, ivs);
      var calls := HarvestCalls(w, s1, kid, len, before, rc, s', after, ivs);
      HarvestSteps(w, s1, kid, calls, s');
      Scaled(calls, (len + 15) / 16, RequestCost(w, false, Default));
    } else {
      SameButErrorInv(w, s, s');
    }
  }

  // --------------------------------------------- what the device answered

  const ENCRYPT_PATH := "/api/crypto/cipher/encrypt"

  /** An encrypt call for this key over one nought byte, as it goes out. */
  predicate IsEncryptCall(e: Event, kid: string) {
    && e.Sent? && e.scope == Some("keymgmt:use:" + kid)
    && e.req.verb == POST && e.req.path == ENCRYPT_PATH
    && e.req.body.Text("kid") == Some(kid) && e.req.body.Text("alg") == Some("AES128-CBC")
    && e.req.body.Text("msg") == Some("AA==")
  }

  /** The newest event is an encrypt call the device answered with this object. */
  ghost predicate EndsInReply(w: Env, log: History, kid: string, reply: Body) {
    && |log| > 0 && IsEncryptCall(Last(log), kid)
    && Last(log).out == w.device(Front(log), Last(log).req)
    && Last(log).out.Success() && Last(log).out.body == reply && reply.Object?
  }

  /** This member of a reply is the base64 of these sixteen bytes. */
  predicate Carries(reply: Body, key: string, bytes: seq<byte>) {
    && reply.Text(key).Some? && reply.Text(key).value != ""
    && |bytes| == 16 && Base64.Decode(Base64.Standard, reply.Text(key).value, 32) == Some(bytes)
  }

  /** Not there: no such text, or an empty one. */
  predicate Lacks(reply: Body, key: string) {
    reply.Text(key) == None || reply.Text(key) == Some("")
  }

  /** A ciphertext, and no broken iv or tag beside it. */
  ghost predicate WellFormed(reply: Body) {
    && !Lacks(reply, "ciphertext")
    && (var text := reply.Text("ciphertext").value;
        exists bytes: seq<byte> :: bytes != [] && Base64.Decode(Base64.Standard, text, |text|) == Some(bytes))
    && (Lacks(reply, "iv") || exists bytes: seq<byte> :: Carries(reply, "iv", bytes))
    && (Lacks(reply, "tag") || exists bytes: seq<byte> :: Carries(reply, "tag", bytes))
  }

  /**
   * An encrypt call against what the device answered: the IV is the reply's "iv" member, there is none
   * exactly when that is lacking, and a reply that is not well formed is PROTOCOL.
   */
  lemma {:induction false} EncryptReads(w: Env, s: State, kid: string)
    ensures var c := Encrypt(w, s, kid);
            var g := RequestJson(w, ClearError(s), POST, ENCRYPT_PATH, EncryptBody(kid),
                                 Some("keymgmt:use:" + kid), Default);
            if g.rc != Ok then c == Cipher(g.rc, None, g.s)
            else
              && EndsInReply(w, c.s.log, kid, g.body)
              && (c.rc == Ok <==> WellFormed(g.body))
              && (c.rc != Ok ==> c.rc == Protocol && c.s.err.status == 200 && c.iv == None)
              && (c.rc == Ok ==> (c.iv == None <==> Lacks(g.body, "iv")))
              && (c.iv.Some? ==> Carries(g.body, "iv", c.iv.value))
  {
    hide RequestJson, Base64.Decode, Body.Text;
    var g := RequestJson(w, ClearError(s), POST, ENCRYPT_PATH, EncryptBody(kid), Some("keymgmt:use:" + kid), Default);
    ScopedReply(w, ClearError(s), POST, ENCRYPT_PATH, EncryptBody(kid), "keymgmt:use:" + kid, Default);
    if g.rc == Ok {
      SixteenBytes(g.body, "iv");
      SixteenBytes(g.body, "tag");
      CiphertextBytes(g.body);
      BodyMembers(kid);
    }
    hide FixedField, Ciphertext, Carries, Lacks;
  }

  function EncryptBody(kid: string): Body {
    Object(map["kid" := Str(kid), "alg" := Str("AES128-CBC"), "msg" := Str("AA==")])
  }

  lemma BodyMembers(kid: string)
    ensures var b := EncryptBody(kid);
            b.Text("kid") == Some(kid) && b.Text("alg") == Some("AES128-CBC") && b.Text("msg") == Some("AA==")
  {
  }

  lemma SixteenBytes(reply: Body, key: string)
    ensures FixedField(reply, key, 16) == Some(None) <==> Lacks(reply, key)
    ensures FixedField(reply, key, 16) == None
       <==> !Lacks(reply, key) && !exists bytes: seq<byte> :: Carries(reply, key, bytes)
    ensures forall bytes: seq<byte> :: FixedField(reply, key, 16) == Some(Some(bytes)) <==> Carries(reply, key, bytes)
  {
    hide Base64.Decode, Body.Text;
    var text := reply.Text(key);
    if text.Some? && text.value != "" {
      var d := Base64.Decode(Base64.Standard, text.value, 32);
      if d.Some? && |d.value| == 16 {
        assert Carries(reply, key, d.value);
      }
    }
  }

  lemma CiphertextBytes(reply: Body)
    ensures Ciphertext(reply) <==>
              && !Lacks(reply, "ciphertext")
              && var text := reply.Text("ciphertext").value;
                 exists bytes: seq<byte> :: bytes != [] && Base64.Decode(Base64.Standard, text, |text|) == Some(bytes)
  {
    hide Base64.Decode, Body.Text;
  }

  // --------------------------------------------------------- from the history

  /** Where in a history the replies are that these IVs came from. */
  ghost predicate CameFrom(w: Env, before: History, log: History, kid: string, ivs: seq<seq<byte>>, at: seq<nat>) {
    && |at| == |ivs|
    && (forall k :: 0 <= k < |at| ==> |before| <= at[k] < |log|)
    && (forall j, k :: 0 <= j < k < |at| ==> at[j] < at[k])
    && (forall k :: 0 <= k < |at| ==> IsIvReply(w, log[..at[k] + 1], kid, ivs[k]))
  }

  /** The history ends in an encrypt call whose reply carries this IV. */
  ghost predicate IsIvReply(w: Env, log: History, kid: string, iv: seq<byte>) {
    exists reply: Body :: EndsInReply(w, log, kid, reply) && WellFormed(reply) && Carries(reply, "iv", iv)
  }

  /**
   * A successful harvest, told from the history alone: just enough encrypt calls were answered with
   * well-formed replies, and the buffer starts with the first `len` bytes of their "iv" members, in
   * the order of the replies.
   */
  lemma {:induction false} HarvestedFromReplies(w: Env, s: State, kid: string, len: nat, before: seq<byte>,
                                                s': State, after: seq<byte>)
    returns (ivs: seq<seq<byte>>, at: seq<nat>)
    requires Inv(w, s) && 0 < len <= |before| && IsKidHex(kid) && Filled(w, s, kid, len, before, Ok, s', after)
    ensures CameFrom(w, s.log, s'.log, kid, ivs, at)
    ensures |ivs| == (len + 15) / 16
    ensures |Concat(ivs)| >= len && after == Concat(ivs)[..len] + before[len..]
  {
    hide Encrypt, Inv, After, Concat, IsIvReply, Nth;
    var s1 := ClearError(s);
    SameButErrorInv(w, s, s1);
    ivs :| Harvested(w, s1, kid, len, before, Ok, s', after, ivs);
    at := RepliesAt(w, s1, kid, ivs);
  }

  lemma {:induction false} RepliesAt(w: Env, s: State, kid: string, ivs: seq<seq<byte>>) returns (at: seq<nat>)
    requires Inv(w, s) && Served(w, s, kid, ivs)
    ensures CameFrom(w, s.log, After(w, s, kid, |ivs|).log, kid, ivs, at)
    decreases |ivs|
  {
    hide Encrypt, Inv, IsIvReply, RequestCost;
    if |ivs| == 0 {
      at := [];
    } else {
      var n := |ivs| - 1;
      var init, s1, s2 := ivs[..n], After(w, s, kid, n), After(w, s, kid, n + 1);
      assert Served(w, s, kid, init) by {
        hide Nth;
      }
      at := RepliesAt(w, s, kid, init);
      AfterSteps(w, s, kid, n, RequestCost(w, Mobile(s), Default));
      EncryptSteps(w, s1, kid);
      assert Nth(w, s, kid, n) == Encrypt(w, s1, kid);
      IvReplied(w, s1, kid, ivs[n]);
      HarvestMore(w, s.log, s1.log, s2.log, kid, init, at, ivs[n]);
      assert init + [ivs[n]] == ivs;
      at := at + [|s2.log| - 1];
    }
  }

  lemma {:induction false} IvReplied(w: Env, s: State, kid: string, iv: seq<byte>)
    requires Inv(w, s) && Encrypt(w, s, kid).iv == Some(iv)
    ensures var s' := Encrypt(w, s, kid).s;
            IsIvReply(w, s'.log, kid, iv) && |s.log| < |s'.log| && s.log <= s'.log
  {
    hide Inv, RequestJson, WellFormed, Carries;
    EncryptReads(w, s, kid);
    EncryptSteps(w, s, kid);
    EncryptGrows(w, s, kid);
  }

  /** A call that yields anything was sent. */
  lemma {:induction false} EncryptGrows(w: Env, s: State, kid: string)
    requires Inv(w, s)
    ensures var c := Encrypt(w, s, kid); c.rc == Ok ==> |s.log| < |c.s.log|
  {
    hide Inv;
    var s1 := ClearError(s);
    SameButErrorInv(w, s, s1);
    var g := RequestRaw(w, s1, POST, ENCRYPT_PATH, EncryptBody(kid), Some("keymgmt:use:" + kid), Default);
    var own := RequestSteps(w, s1, POST, ENCRYPT_PATH, EncryptBody(kid), "keymgmt:use:" + kid, Default);
    hide RequestRaw, FixedField, Ciphertext, Usage;
    if own != [] {
      var at: seq<nat> :| Placed(w, s1.log, g.s.log, own, at, "keymgmt:use:" + kid);
      assert at[0] < |g.s.log|;
    }
  }

  lemma HarvestMore(w: Env, before: History, middle: History, log: History, kid: string, ivs: seq<seq<byte>>,
        at: seq<nat>, iv: seq<byte>)
    requires CameFrom(w, before, middle, kid, ivs, at) && before <= middle && middle <= log && |middle| < |log|
    requires IsIvReply(w, log, kid, iv)
    ensures CameFrom(w, before, log, kid, ivs + [iv], at + [|log| - 1])
  {
    hide IsIvReply;
    forall k | 0 <= k < |at|
      ensures log[..at[k] + 1] == middle[..at[k] + 1]
    {
    }
    assert log[..|log| - 1 + 1] == log;
  }
}
