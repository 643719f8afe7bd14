/**
 Key types: a device's comma-separated type string as a family, mode and role flags and wire sizes
 (src/keytype.c).
 */
module KeyType {
  import opened Sequences
  import opened Options

  datatype Family =
    | Unknown
    | Secp256R1 | Secp384R1 | Secp521R1 | Secp256K1
    | Ed25519 | Ed448 | Curve25519 | Curve448
    | Aes128 | Aes192 | Aes256
    | HmacSha2_256 | HmacSha2_384 | HmacSha2_512 | HmacSha3_256 | HmacSha3_384 | HmacSha3_512
    | MlKem512 | MlKem768 | MlKem1024 | MlDsa44 | MlDsa65 | MlDsa87
    | Cert | DerPkey

  /** The flag bits, each with a bit of its own. */
  datatype Mode = ExDsaMode | EcdhMode
  datatype Role = AttRole | PkeyRole | CertRole | GenericDerRole

  datatype FamilyInfo = FamilyInfo(token: string, family: Family, pubkeyLen: nat, sigMaxLen: nat, sigDer: bool)

  const FAMILIES: seq<FamilyInfo> := [
    FamilyInfo("SECP256R1", Secp256R1, 33, 72, true),
    FamilyInfo("SECP384R1", Secp384R1, 49, 104, true),
    FamilyInfo("SECP521R1", Secp521R1, 67, 141, true),
    FamilyInfo("SECP256K1", Secp256K1, 33, 72, true),
    FamilyInfo("ED25519", Ed25519, 32, 64, false),
    FamilyInfo("ED448", Ed448, 57, 114, false),
    FamilyInfo("CURVE25519", Curve25519, 32, 0, false),
    FamilyInfo("CURVE448", Curve448, 56, 0, false),
    FamilyInfo("AES128", Aes128, 0, 0, false),
    FamilyInfo("AES192", Aes192, 0, 0, false),
    FamilyInfo("AES256", Aes256, 0, 0, false),
    FamilyInfo("SHA2-256", HmacSha2_256, 0, 0, false),
    FamilyInfo("SHA2-384", HmacSha2_384, 0, 0, false),
    FamilyInfo("SHA2-512", HmacSha2_512, 0, 0, false),
    FamilyInfo("SHA3-256", HmacSha3_256, 0, 0, false),
    FamilyInfo("SHA3-384", HmacSha3_384, 0, 0, false),
    FamilyInfo("SHA3-512", HmacSha3_512, 0, 0, false),
    FamilyInfo("MLKEM512", MlKem512, 800, 0, false),
    FamilyInfo("MLKEM768", MlKem768, 1184, 0, false),
    FamilyInfo("MLKEM1024", MlKem1024, 1568, 0, false),
    FamilyInfo("MLDSA44", MlDsa44, 1312, 2420, false),
    FamilyInfo("MLDSA65", MlDsa65, 1952, 3309, false),
    FamilyInfo("MLDSA87", MlDsa87, 2592, 4627, false),
    FamilyInfo("CERT", Cert, 0, 0, false),
    FamilyInfo("DER_PKEY", DerPkey, 0, 0, false)
  ]

  function ModeToken(m: Mode): string {
    match m
    case ExDsaMode => "ExDSA"
    case EcdhMode => "ECDH"
  }

  function RoleToken(r: Role): string {
    match r
    case AttRole => "ATT"
    case PkeyRole => "PKEY"
    case CertRole => "CERT"
    case GenericDerRole => "GENERIC_DER"
  }

  /** What a type string says of a key. */
  datatype KeyTypeInfo = KeyTypeInfo(
    family: Family, modes: set<Mode>, roles: set<Role>, pubkeyLen: nat, sigMaxLen: nat, sigDer: bool)

  // --------------------------------------------------------- specification

  /** First comma at or after `i`, or the end. */
  function NextComma(text: string, i: nat): (j: nat)
    requires i <= |text|
    ensures i <= j <= |text| && (j < |text| ==> text[j] == ',')
    ensures forall k :: i <= k < j ==> text[k] != ','
    decreases |text| - i
  {
    if i < |text| && text[i] != ',' then NextComma(text, i + 1) else i
  }

  /** The comma-separated tokens from `i` on; nothing follows a last comma. */
  function Tokens(text: string, i: nat): seq<string>
    requires i <= |text|
    decreases |text| - i
  {
    if i == |text| then []
    else
      var comma := NextComma(text, i);
      [text[i..comma]] + if comma < |text| then Tokens(text, comma + 1) else []
  }

  predicate IsFlag(t: string) {
    t == "ExDSA" || t == "ECDH" || t == "ATT" || t == "PKEY" || t == "CERT" || t == "GENERIC_DER"
  }

  /** The table row with this token, from row `i` on. */
  function NamedFrom(t: string, i: nat): Family
    requires i <= |FAMILIES|
    decreases |FAMILIES| - i
  {
    if i == |FAMILIES| then Unknown
    else if FAMILIES[i].token == t then FAMILIES[i].family
    else NamedFrom(t, i + 1)
  }

  /** The family a token names, if the token gets as far as the table. */
  function TokenFamily(t: string): Family {
    if IsFlag(t) then Unknown else NamedFrom(t, 0)
  }

  predicate IsFamilyToken(t: string) {
    TokenFamily(t) != Unknown
  }

  function FirstFamily(ts: seq<string>): Family {
    if |ts| == 0 then Unknown
    else
      var f := FirstFamily(ts[..|ts| - 1]);
      if f != Unknown then f else TokenFamily(ts[|ts| - 1])
  }

  function Modes(ts: seq<string>): set<Mode> {
    set m: Mode | ModeToken(m) in ts
  }

  function Roles(ts: seq<string>): set<Role> {
    set r: Role | RoleToken(r) in ts
  }

  function Lookup(f: Family, i: nat): Option<FamilyInfo>
    requires i <= |FAMILIES|
    decreases |FAMILIES| - i
  {
    if i == |FAMILIES| then None
    else if FAMILIES[i].family == f then Some(FAMILIES[i])
    else Lookup(f, i + 1)
  }

  /** DER containers go by their role tokens. */
  function Resolved(named: Family, roles: set<Role>): Family {
    if named != Unknown then named
    else if CertRole in roles then Cert
    else if GenericDerRole in roles then DerPkey
    else Unknown
  }

  function WithSizes(f: Family, modes: set<Mode>, roles: set<Role>): KeyTypeInfo {
    match Lookup(f, 0)
    case None => KeyTypeInfo(f, modes, roles, 0, 0, false)
    case Some(fi) => KeyTypeInfo(f, modes, roles, fi.pubkeyLen, fi.sigMaxLen, fi.sigDer)
  }

  /** A key's classification, from its set of flags and the first family named. */
  function Classify(ts: seq<string>): KeyTypeInfo {
    WithSizes(Resolved(FirstFamily(ts), Roles(ts)), Modes(ts), Roles(ts))
  }

  function FamilyStr(f: Family): string {
    match Lookup(f, 0)
    case None => "unknown"
    case Some(fi) => fi.token
  }

  // --------------------------------------------------------- implementation

  /** What these tokens come to, before the family is resolved. */
  ghost predicate Collected(ts: seq<string>, family: Family, modes: set<Mode>, roles: set<Role>) {
    family == FirstFamily(ts) && modes == Modes(ts) && roles == Roles(ts)
  }

  /** Walk the tokens, collecting flags and the first family. */
  method Parse(text: CString) returns (out: KeyTypeInfo)
    ensures out == Classify(Tokens(text, 0))
  {
    hide *;
    var family, modes, roles := Unknown, {}, {};
    var p: nat := 0;
    ghost var done: seq<string> := [];
    NothingCollected(text);
    while p < |text|
      invariant p <= |text| && Walked(text, done, p) && Collected(done, family, modes, roles)
    {
      var comma := NextComma(text, p);
      var token := text[p..comma];
      TokensFrom(text, p, done);
      family, modes, roles := TakeToken(token, family, modes, roles, done);
      done := done + [token];
      p := if comma < |text| then comma + 1 else comma;
    }
    AllWalked(text, done);
    out := Resolve(family, modes, roles, done);
  }

  method TakeToken(token: string, family: Family, modes: set<Mode>, roles: set<Role>, ghost done: seq<string>)
    returns (family': Family, modes': set<Mode>, roles': set<Role>)
    requires Collected(done, family, modes, roles)
    ensures Collected(done + [token], family', modes', roles')
  {
    OneMoreToken(done, token);
    family', modes', roles' := family, modes, roles;
    if token == "ExDSA" {
      modes' := modes' + {ExDsaMode};
    } else if token == "ECDH" {
      modes' := modes' + {EcdhMode};
    } else if token == "ATT" {
      roles' := roles' + {AttRole};
    } else if token == "PKEY" {
      roles' := roles' + {PkeyRole};
    } else if token == "CERT" {
      roles' := roles' + {CertRole};
    } else if token == "GENERIC_DER" {
      roles' := roles' + {GenericDerRole};
    } else if family == Unknown {
      family' := Named(token);
    }
  }

  lemma NothingCollected(text: string)
    ensures Collected([], Unknown, {}, {})
    ensures Walked(text, [], 0)
  {
  }

  /** These tokens come before position `p`. */
  ghost predicate Walked(text: string, done: seq<string>, p: nat) {
    p <= |text| && Tokens(text, 0) == done + Tokens(text, p)
  }

  lemma AllWalked(text: string, done: seq<string>)
    requires Walked(text, done, |text|)
    ensures done == Tokens(text, 0)
  {
  }

  method Resolve(named: Family, modes: set<Mode>, roles: set<Role>, ghost done: seq<string>)
    returns (out: KeyTypeInfo)
    requires Collected(done, named, modes, roles)
    ensures out == Classify(done)
  {
    var family := named;
    if family == Unknown {
      if CertRole in roles {
        family := Cert;
      } else if GenericDerRole in roles {
        family := DerPkey;
      }
    }
    out := KeyTypeInfo(family, modes, roles, 0, 0, false);
    var fi := Lookup(family, 0);
    if fi.Some? {
      out := out.(pubkeyLen := fi.value.pubkeyLen, sigMaxLen := fi.value.sigMaxLen, sigDer := fi.value.sigDer);
    }
  }

  method Named(token: string) returns (family: Family)
    ensures family == NamedFrom(token, 0)
  {
    for i := 0 to |FAMILIES|
      invariant NamedFrom(token, 0) == NamedFrom(token, i)
    {
      if token == FAMILIES[i].token {
        return FAMILIES[i].family;
      }
    }
    family := Unknown;
  }

  lemma TokensFrom(text: string, p: nat, done: seq<string>)
    requires p < |text| && Walked(text, done, p)
    ensures var comma := NextComma(text, p);
            Walked(text, done + [text[p..comma]], if comma < |text| then comma + 1 else comma)
  {
    hide NextComma;
    var comma := NextComma(text, p);
    var token, next := text[p..comma], if comma < |text| then comma + 1 else comma;
    Regrouped(done, token, Tokens(text, next), Tokens(text, p));
  }

  function ModesOf(t: string): set<Mode> {
    if t == "ExDSA" then {ExDsaMode} else if t == "ECDH" then {EcdhMode} else {}
  }

  function RolesOf(t: string): set<Role> {
    if t == "ATT" then {AttRole}
    else if t == "PKEY" then {PkeyRole}
    else if t == "CERT" then {CertRole}
    else if t == "GENERIC_DER" then {GenericDerRole}
    else {}
  }

  lemma OneFlag(t: string, m: Mode, r: Role)
    ensures m in ModesOf(t) <==> ModeToken(m) == t
    ensures r in RolesOf(t) <==> RoleToken(r) == t
  {
  }

  lemma OneMoreToken(done: seq<string>, t: string)
    ensures FirstFamily(done + [t]) == if FirstFamily(done) != Unknown then FirstFamily(done) else TokenFamily(t)
    ensures Modes(done + [t]) == Modes(done) + ModesOf(t)
    ensures Roles(done + [t]) == Roles(done) + RolesOf(t)
  {
    assert (done + [t])[..|done|] == done;
    forall m: Mode, r: Role
      ensures m in Modes(done + [t]) <==> m in Modes(done) + ModesOf(t)
      ensures r in Roles(done + [t]) <==> r in Roles(done) + RolesOf(t)
    {
      OneFlag(t, m, r);
    }
  }

  // ---------------------------------------------------------------- the table

  function Row(f: Family): nat
    requires f != Unknown
  {
    match f
    case Secp256R1 => 0
    case Secp384R1 => 1
    case Secp521R1 => 2
    case Secp256K1 => 3
    case Ed25519 => 4
    case Ed448 => 5
    case Curve25519 => 6
    case Curve448 => 7
    case Aes128 => 8
    case Aes192 => 9
    case Aes256 => 10
    case HmacSha2_256 => 11
    case HmacSha2_384 => 12
    case HmacSha2_512 => 13
    case HmacSha3_256 => 14
    case HmacSha3_384 => 15
    case HmacSha3_512 => 16
    case MlKem512 => 17
    case MlKem768 => 18
    case MlKem1024 => 19
    case MlDsa44 => 20
    case MlDsa65 => 21
    case MlDsa87 => 22
    case Cert => 23
    case DerPkey => 24
  }

  lemma FirstRows(i: nat)
    requires 0 <= i < 9
    ensures FAMILIES[i].family != Unknown && Row(FAMILIES[i].family) == i
  {
    match i
    case 0 =>
    case 1 =>
    case 2 =>
    case 3 =>
    case 4 =>
    case 5 =>
    case 6 =>
    case 7 =>
    case _ =>
  }

  lemma MiddleRows(i: nat)
    requires 9 <= i < 17
    ensures FAMILIES[i].family != Unknown && Row(FAMILIES[i].family) == i
  {
    match i
    case 9 =>
    case 10 =>
    case 11 =>
    case 12 =>
    case 13 =>
    case 14 =>
    case 15 =>
    case _ =>
  }

  lemma LastRows(i: nat)
    requires 17 <= i < 25
    ensures FAMILIES[i].family != Unknown && Row(FAMILIES[i].family) == i
  {
    match i
    case 17 =>
    case 18 =>
    case 19 =>
    case 20 =>
    case 21 =>
    case 22 =>
    case 23 =>
    case _ =>
  }

  lemma RowOf(i: nat)
    requires i < |FAMILIES|
    ensures FAMILIES[i].family != Unknown && Row(FAMILIES[i].family) == i
  {
    hide Row;
    if i < 9 {
      FirstRows(i);
    } else if i < 17 {
      MiddleRows(i);
    } else {
      LastRows(i);
    }
  }

  lemma TableTokens(i: nat)
    requires i < |FAMILIES|
    ensures FAMILIES[i].token != "" && ',' !in FAMILIES[i].token
  {
    NoCommas(i);
  }

  lemma NoCommas(i: nat)
    requires i < |FAMILIES|
    ensures ',' !in FAMILIES[i].token
  {
    hide FAMILIES;
    if i < 9 {
      NoCommasFirst(i);
    } else if i < 17 {
      NoCommasMiddle(i);
    } else {
      TableSize();
      NoCommasLast(i);
    }
  }

  lemma TableSize()
    ensures |FAMILIES| == 25
  {
  }

  lemma NoCommasFirst(i: nat)
    requires i < 9
    ensures ',' !in FAMILIES[i].token
  {
  }

  lemma NoCommasMiddle(i: nat)
    requires 9 <= i < 17
    ensures ',' !in FAMILIES[i].token
  {
  }

  lemma NoCommasLast(i: nat)
    requires 17 <= i < 25
    ensures ',' !in FAMILIES[i].token
  {
  }

  lemma TableFlags(i: nat)
    requires i < |FAMILIES|
    ensures IsFlag(FAMILIES[i].token) <==> i == 23
  {
  }

  lemma FamilyRow(f: Family)
    requires f != Unknown
    ensures Row(f) < |FAMILIES| && FAMILIES[Row(f)].family == f
  {
    match f
    case Secp256R1 => assert FAMILIES[0].family == f;
    case Secp384R1 => assert FAMILIES[1].family == f;
    case Secp521R1 => assert FAMILIES[2].family == f;
    case Secp256K1 => assert FAMILIES[3].family == f;
    case Ed25519 => assert FAMILIES[4].family == f;
    case Ed448 => assert FAMILIES[5].family == f;
    case Curve25519 => assert FAMILIES[6].family == f;
    case Curve448 => assert FAMILIES[7].family == f;
    case Aes128 => assert FAMILIES[8].family == f;
    case Aes192 => assert FAMILIES[9].family == f;
    case Aes256 => assert FAMILIES[10].family == f;
    case HmacSha2_256 => assert FAMILIES[11].family == f;
    case HmacSha2_384 => assert FAMILIES[12].family == f;
    case HmacSha2_512 => assert FAMILIES[13].family == f;
    case HmacSha3_256 => assert FAMILIES[14].family == f;
    case HmacSha3_384 => assert FAMILIES[15].family == f;
    case HmacSha3_512 => assert FAMILIES[16].family == f;
    case MlKem512 => assert FAMILIES[17].family == f;
    case MlKem768 => assert FAMILIES[18].family == f;
    case MlKem1024 => assert FAMILIES[19].family == f;
    case MlDsa44 => assert FAMILIES[20].family == f;
    case MlDsa65 => assert FAMILIES[21].family == f;
    case MlDsa87 => assert FAMILIES[22].family == f;
    case Cert => assert FAMILIES[23].family == f;
    case DerPkey => assert FAMILIES[24].family == f;
  }

  lemma TokensDiffer(i: nat, j: nat)
    requires i < j < |FAMILIES|
    ensures FAMILIES[i].token != FAMILIES[j].token
  {
  }

  /** A table token is found at its own row. */
  lemma {:induction false} NamedAt(i: nat, k: nat)
    requires i <= k < |FAMILIES|
    ensures NamedFrom(FAMILIES[k].token, i) == FAMILIES[k].family
    decreases k - i
  {
    if i < k {
      TokensDiffer(i, k);
      NamedAt(i + 1, k);
    }
  }

  lemma {:induction false} LookupAt(i: nat, k: nat)
    requires i <= k < |FAMILIES|
    ensures Lookup(FAMILIES[k].family, i) == Some(FAMILIES[k])
    decreases k - i
  {
    hide Row, FAMILIES;
    RowOf(k);
    if i < k {
      RowOf(i);
      LookupAt(i + 1, k);
    }
  }

  /** A named family determines the token that named it. */
  lemma {:induction false} NamedBy(t: string, i: nat)
    requires i <= |FAMILIES| && NamedFrom(t, i) != Unknown
    ensures var f := NamedFrom(t, i); Row(f) < |FAMILIES| && t == FAMILIES[Row(f)].token
    decreases |FAMILIES| - i
  {
    if FAMILIES[i].token == t {
      RowOf(i);
    } else {
      NamedBy(t, i + 1);
    }
  }

  // ---------------------------------------------------------------- results

  /** Either no token names a family, or one of them names the one reported. */
  lemma {:induction false} FirstFamilyIs(ts: seq<string>)
    ensures FirstFamily(ts) == Unknown <==> forall t :: t in ts ==> !IsFamilyToken(t)
    ensures FirstFamily(ts) != Unknown ==> exists t :: t in ts && IsFamilyToken(t) && FirstFamily(ts) == TokenFamily(t)
  {
    if |ts| > 0 {
      var init, last := ts[..|ts| - 1], ts[|ts| - 1];
      FirstFamilyIs(init);
      assert ts == init + [last];
      if FirstFamily(init) == Unknown {
        assert last in ts;
      } else {
        var t :| t in init && IsFamilyToken(t) && FirstFamily(init) == TokenFamily(t);
        assert t in ts;
      }
    }
  }

  /** At most one distinct token that names a family. */
  ghost predicate OneFamily(ts: seq<string>) {
    forall t, u :: t in ts && u in ts && IsFamilyToken(t) && IsFamilyToken(u) ==> t == u
  }

  /** The same tokens as far as the classifier knows any. */
  ghost predicate SameKnown(a: seq<string>, b: seq<string>) {
    forall t :: IsFlag(t) || IsFamilyToken(t) ==> (t in a <==> t in b)
  }

  lemma FlagTokens()
    ensures forall m: Mode :: IsFlag(ModeToken(m))
    ensures forall r: Role :: IsFlag(RoleToken(r))
  {
    forall m: Mode
      ensures IsFlag(ModeToken(m))
    {
      match m
      case ExDsaMode =>
      case EcdhMode =>
    }
    forall r: Role
      ensures IsFlag(RoleToken(r))
    {
      match r
      case AttRole =>
      case PkeyRole =>
      case CertRole =>
      case GenericDerRole =>
    }
  }

  /** Order, repetition and unknown tokens do not matter where at most one family is named. */
  lemma {:induction false} OrderIrrelevant(a: seq<string>, b: seq<string>)
    requires OneFamily(a) && SameKnown(a, b)
    ensures Classify(a) == Classify(b)
  {
    FlagTokens();
    FirstFamilyIs(a);
    FirstFamilyIs(b);
    assert Modes(a) == Modes(b) && Roles(a) == Roles(b);
    assert FirstFamily(a) == FirstFamily(b);
  }

  lemma {:induction false} FirstWins(t: string, rest: seq<string>)
    requires IsFamilyToken(t)
    ensures FirstFamily([t] + rest) == TokenFamily(t)
  {
    if |rest| == 0 {
      assert [t] + rest == [t] && [t][..0] == [];
      assert FirstFamily([t][..0]) == Unknown;
    } else {
      FirstWins(t, rest[..|rest| - 1]);
      assert ([t] + rest)[..|rest|] == [t] + rest[..|rest| - 1];
    }
  }

  /** The same tokens with the one at `i` in front. */
  function InFront(ts: seq<string>, i: nat): seq<string>
    requires i < |ts|
  {
    [ts[i]] + (ts[..i] + ts[i + 1..])
  }

  lemma InFrontPermutes(ts: seq<string>, i: nat)
    requires i < |ts|
    ensures multiset(InFront(ts, i)) == multiset(ts)
  {
    assert ts == ts[..i] + [ts[i]] + ts[i + 1..];
  }

  lemma {:induction false} SameTokens(a: seq<string>, b: seq<string>, t: string)
    requires multiset(a) == multiset(b)
    ensures t in a <==> t in b
  {
    assert t in multiset(a) <==> t in multiset(b);
  }

  /** Two family tokens, either of which may come first. */
  lemma {:induction false} FrontDecides(ts: seq<string>, i: nat, j: nat)
    requires i < |ts| && j < |ts| && IsFamilyToken(ts[i]) && IsFamilyToken(ts[j]) && ts[i] != ts[j]
    ensures Classify(InFront(ts, i)).family != Classify(InFront(ts, j)).family
  {
    FirstDecides(ts[i], ts[..i] + ts[i + 1..]);
    FirstDecides(ts[j], ts[..j] + ts[j + 1..]);
    hide Classify;
    NamedBy(ts[i], 0);
    NamedBy(ts[j], 0);
  }

  /**
   * Exactly when: every reordering of the tokens classifies alike if and only if at most one
   * distinct family token is among them.
   */
  lemma {:induction false} OrderIrrelevantExactly(ts: seq<string>)
    ensures OneFamily(ts) <==> forall us: seq<string> :: multiset(us) == multiset(ts) ==> Classify(us) == Classify(ts)
  {
    hide Classify, IsFlag, TokenFamily;
    if OneFamily(ts) {
      forall us: seq<string> | multiset(us) == multiset(ts)
        ensures Classify(us) == Classify(ts)
      {
        forall t: string
          ensures t in ts <==> t in us
        {
          SameTokens(ts, us, t);
        }
        OrderIrrelevant(ts, us);
      }
    } else {
      var t, u :| t in ts && u in ts && IsFamilyToken(t) && IsFamilyToken(u) && t != u;
      var i :| 0 <= i < |ts| && ts[i] == t;
      var j :| 0 <= j < |ts| && ts[j] == u;
      InFrontPermutes(ts, i);
      InFrontPermutes(ts, j);
      FrontDecides(ts, i, j);
    }
  }

  function Join(ts: seq<string>): string {
    if |ts| == 0 then "" else if |ts| == 1 then ts[0] else ts[0] + "," + Join(ts[1..])
  }

  lemma {:induction false} NextCommaAt(t: string, rest: string, i: nat)
    requires i <= |t| && ',' !in t && (rest == "" || rest[0] == ',')
    ensures NextComma(t + rest, i) == |t|
    decreases |t| - i
  {
    if i < |t| {
      assert (t + rest)[i] == t[i];
      NextCommaAt(t, rest, i + 1);
    }
  }

  lemma {:induction false} CommaShifts(pre: string, text: string, i: nat)
    requires i <= |text|
    ensures NextComma(pre + text, |pre| + i) == |pre| + NextComma(text, i)
    decreases |text| - i
  {
    if i < |text| {
      assert (pre + text)[|pre| + i] == text[i];
      CommaShifts(pre, text, i + 1);
    }
  }

  lemma TokensStep(text: string, i: nat)
    requires i < |text|
    ensures var comma := NextComma(text, i);
            Tokens(text, i) == [text[i..comma]] + (if comma < |text| then Tokens(text, comma + 1) else [])
  {
  }

  lemma NoMoreTokens(text: string)
    ensures Tokens(text, |text|) == []
  {
  }

  lemma {:induction false} TokensShift(pre: string, text: string, i: nat)
    requires i <= |text|
    ensures Tokens(pre + text, |pre| + i) == Tokens(text, i)
    decreases |text| - i
  {
    hide Tokens, NextComma;
    if i == |text| {
      assert |pre| + i == |pre + text|;
      NoMoreTokens(text);
      NoMoreTokens(pre + text);
    } else {
      var comma := NextComma(text, i);
      CommaShifts(pre, text, i);
      ShiftedSlice(pre, text, i, comma);
      TokensStep(text, i);
      TokensStep(pre + text, |pre| + i);
      if comma < |text| {
        TokensShift(pre, text, comma + 1);
        assert |pre| + (comma + 1) == |pre| + comma + 1;
      }
    }
  }

  /** One token in front of a comma, or alone. */
  lemma {:induction false} FirstToken(t: string, rest: string)
    requires ',' !in t
    ensures Tokens(t + "," + rest, 0) == [t] + Tokens(rest, 0)
    ensures t != "" ==> Tokens(t, 0) == [t]
  {
    NextCommaAt(t, "," + rest, 0);
    assert t + "," + rest == t + ("," + rest);
    TokensShift(t + ",", rest, 0);
    assert (t + "," + rest)[0..|t|] == t;
    NextCommaAt(t, "", 0);
    assert t + "" == t && t[0..|t|] == t;
  }

  /** Splitting a joined list gives it back, but for an empty token at the end. */
  lemma {:induction false} TokensJoin(ts: seq<string>)
    requires forall t :: t in ts ==> ',' !in t
    ensures Tokens(Join(ts), 0) == if |ts| > 0 && ts[|ts| - 1] == "" then ts[..|ts| - 1] else ts
  {
    if |ts| == 1 {
      FirstToken(ts[0], "");
    } else if |ts| > 1 {
      TokensJoin(ts[1..]);
      FirstToken(ts[0], Join(ts[1..]));
      assert ts == [ts[0]] + ts[1..];
    }
  }

  /** Of whole type strings: reordering, and slipping in unknown tokens, changes nothing. */
  lemma {:induction false} TypeStringsAgree(a: seq<string>, b: seq<string>)
    requires forall t :: t in a || t in b ==> ',' !in t
    requires OneFamily(a) && SameKnown(a, b)
    ensures Classify(Tokens(Join(a), 0)) == Classify(Tokens(Join(b), 0)) == Classify(a)
  {
    TokensJoin(a);
    TokensJoin(b);
    NothingNamedEmpty();
    OrderIrrelevant(a, Tokens(Join(a), 0));
    OrderIrrelevant(a, Tokens(Join(b), 0));
  }

  lemma NothingNamedEmpty()
    ensures !IsFlag("") && !IsFamilyToken("")
  {
    if IsFamilyToken("") {
      NamedBy("", 0);
      TableTokens(Row(NamedFrom("", 0)));
    }
  }

  lemma FirstDecides(t: string, rest: seq<string>)
    requires IsFamilyToken(t)
    ensures Classify([t] + rest).family == TokenFamily(t)
  {
    FirstWins(t, rest);
  }

  /** The string "t,u". */
  function Comma(t: string, u: string): string {
    t + "," + u
  }

  lemma {:induction false} CommaTokens(t: string, u: string)
    requires IsFamilyToken(t) && IsFamilyToken(u)
    ensures Tokens(Comma(t, u), 0) == [t, u]
  {
    FamilyTokenIsListed(t);
    FamilyTokenIsListed(u);
    FirstToken(t, u);
    FirstToken(u, "");
    hide Tokens, IsFamilyToken;
  }

  lemma FamilyTokenIsListed(t: string)
    requires IsFamilyToken(t)
    ensures t != "" && ',' !in t && Row(TokenFamily(t)) < |FAMILIES| && t == FAMILIES[Row(TokenFamily(t))].token
  {
    hide FAMILIES, Row;
    NamedBy(t, 0);
    TableTokens(Row(NamedFrom(t, 0)));
  }

  /** A string that names two families is classified by the first, so swapping them changes the family. */
  lemma {:induction false} TwoFamiliesDiffer(t: string, u: string)
    requires IsFamilyToken(t) && IsFamilyToken(u) && t != u
    ensures Classify(Tokens(Comma(t, u), 0)).family == TokenFamily(t)
    ensures Classify(Tokens(Comma(u, t), 0)).family == TokenFamily(u)
    ensures TokenFamily(t) != TokenFamily(u)
  {
    hide Classify, Tokens, FAMILIES, Row;
    CommaTokens(t, u);
    CommaTokens(u, t);
    FirstDecides(t, [u]);
    FirstDecides(u, [t]);
    FamilyTokenIsListed(t);
    FamilyTokenIsListed(u);
    assert [t] + [u] == [t, u] && [u] + [t] == [u, t];
  }

  /** A family's own name is classified as that family. */
  lemma {:induction false} FamilyRoundTrip(f: Family)
    requires f != Unknown
    ensures Classify(Tokens(FamilyStr(f), 0)).family == f
  {
    var k, t := Row(f), FamilyStr(f);
    FamilyRow(f);
    TableTokens(k);
    TableFlags(k);
    LookupAt(0, k);
    NamedAt(0, k);
    FirstToken(t, "");
    assert [t][..0] == [] && FirstFamily([t]) == TokenFamily(t);
    if f == Cert {
      assert t == "CERT" && RoleToken(CertRole) in [t];
    }
  }

  // ------------------------------------------------------- field by field

  /** The tokens name this row's family and no other. */
  ghost predicate NamesOnly(ts: seq<string>, i: nat)
    requires i < |FAMILIES|
  {
    && FAMILIES[i].token in ts && IsFamilyToken(FAMILIES[i].token)
    && forall t :: t in ts && IsFamilyToken(t) ==> t == FAMILIES[i].token
  }

  /**
   * A type string that names one family is of that family, with the public key length, the longest
   * signature and the signature encoding of its row.
   */
  lemma {:induction false} SizesOfFamily(text: CString, i: nat)
    requires i < |FAMILIES| && NamesOnly(Tokens(text, 0), i)
    ensures var r := Classify(Tokens(text, 0));
            && r.family == FAMILIES[i].family
            && r.pubkeyLen == FAMILIES[i].pubkeyLen
            && r.sigMaxLen == FAMILIES[i].sigMaxLen
            && r.sigDer == FAMILIES[i].sigDer
  {
    hide FAMILIES, IsFlag, Row, Tokens, Lookup;
    var ts := Tokens(text, 0);
    FirstFamilyIs(ts);
    NamedAt(0, i);
    RowOf(i);
    LookupAt(0, i);
    assert FirstFamily(ts) == TokenFamily(FAMILIES[i].token);
  }

  /** A string that names none is of the family its container role stands for, if any, and has no sizes. */
  lemma {:induction false} SizesWithoutFamily(text: CString)
    requires forall t :: t in Tokens(text, 0) ==> !IsFamilyToken(t)
    ensures var ts := Tokens(text, 0);
            var r := Classify(ts);
            && r.family == (if "CERT" in ts then Cert else if "GENERIC_DER" in ts then DerPkey else Unknown)
            && r.pubkeyLen == 0 && r.sigMaxLen == 0 && !r.sigDer
  {
    hide Tokens, IsFamilyToken, FirstFamily, FAMILIES, Lookup;
    FirstFamilyIs(Tokens(text, 0));
    RolesByName(Tokens(text, 0));
    ContainerRows();
  }

  lemma ContainerRows()
    ensures |FAMILIES| == 25 && Lookup(Unknown, 0).None?
    ensures Lookup(Cert, 0) == Some(FamilyInfo("CERT", Cert, 0, 0, false))
    ensures Lookup(DerPkey, 0) == Some(FamilyInfo("DER_PKEY", DerPkey, 0, 0, false))
  {
    LookupAt(0, 23);
    LookupAt(0, 24);
    NoRow(0);
    hide Lookup;
  }

  lemma {:induction false} NoRow(i: nat)
    requires i <= |FAMILIES|
    ensures Lookup(Unknown, i).None?
    decreases |FAMILIES| - i
  {
    hide FAMILIES, Row;
    if i < |FAMILIES| {
      RowOf(i);
      NoRow(i + 1);
    }
  }

  lemma RolesByName(ts: seq<string>)
    ensures CertRole in Roles(ts) <==> "CERT" in ts
    ensures GenericDerRole in Roles(ts) <==> "GENERIC_DER" in ts
    ensures AttRole in Roles(ts) <==> "ATT" in ts
    ensures PkeyRole in Roles(ts) <==> "PKEY" in ts
  {
  }

  /** Each flag is set exactly when its token is there. */
  lemma {:induction false} FlagsByName(text: CString)
    ensures var ts := Tokens(text, 0);
            var r := Classify(ts);
            && (ExDsaMode in r.modes <==> "ExDSA" in ts)
            && (EcdhMode in r.modes <==> "ECDH" in ts)
            && (AttRole in r.roles <==> "ATT" in ts)
            && (PkeyRole in r.roles <==> "PKEY" in ts)
            && (CertRole in r.roles <==> "CERT" in ts)
            && (GenericDerRole in r.roles <==> "GENERIC_DER" in ts)
  {
    hide Tokens, Lookup, FirstFamily;
    RolesByName(Tokens(text, 0));
  }

  // ------------------------------------------------ the table's numbers

  /** The longest DER encoding of a pair of integers of so many bytes. */
  function DerPair(bytes: nat): nat {
    var pair := 2 * (2 + 1 + bytes);
    pair + (if pair < 128 then 2 else 3)
  }

  /** An ECDSA key is a compressed point, its signature a DER pair of integers of the field's length. */
  predicate IsEcdsaRow(fi: FamilyInfo, token: string, bytes: nat) {
    fi.token == token && fi.pubkeyLen == 1 + bytes && fi.sigMaxLen == DerPair(bytes) && fi.sigDer
  }

  predicate IsRawRow(fi: FamilyInfo, token: string, pubkeyLen: nat, sigMaxLen: nat) {
    fi.token == token && fi.pubkeyLen == pubkeyLen && fi.sigMaxLen == sigMaxLen && !fi.sigDer
  }

  /** Public key length of FIPS 203, section 8, for rank `k`. */
  function MlKemKey(k: nat): nat {
    384 * k + 32
  }

  /** Public key length of FIPS 204, section 4, for `k` rows. */
  function MlDsaKey(k: nat): nat {
    32 + 320 * k
  }

  /** Signature length of FIPS 204, section 4: hash, `l` responses of `bits` bits a coefficient, and the hints. */
  function MlDsaSignature(lambda: nat, k: nat, l: nat, bits: nat, omega: nat): nat {
    lambda / 4 + l * 32 * bits + omega + k
  }

  /** The table's rows by token, their sizes from the parameters of the family: curves, lattices, and the rest. */
  lemma CurveSizes()
    ensures IsEcdsaRow(FAMILIES[0], "SECP256R1", 32) && IsEcdsaRow(FAMILIES[1], "SECP384R1", 48)
    ensures IsEcdsaRow(FAMILIES[2], "SECP521R1", 66) && IsEcdsaRow(FAMILIES[3], "SECP256K1", 32)
    ensures IsRawRow(FAMILIES[4], "ED25519", 32, 64) && IsRawRow(FAMILIES[5], "ED448", 57, 114)
    ensures IsRawRow(FAMILIES[6], "CURVE25519", 32, 0) && IsRawRow(FAMILIES[7], "CURVE448", 56, 0)
  {
  }

  lemma LatticeSizes()
    ensures IsRawRow(FAMILIES[17], "MLKEM512", MlKemKey(2), 0) && IsRawRow(FAMILIES[18], "MLKEM768", MlKemKey(3), 0)
    ensures IsRawRow(FAMILIES[19], "MLKEM1024", MlKemKey(4), 0)
    ensures IsRawRow(FAMILIES[20], "MLDSA44", MlDsaKey(4), MlDsaSignature(128, 4, 4, 18, 80))
    ensures IsRawRow(FAMILIES[21], "MLDSA65", MlDsaKey(6), MlDsaSignature(192, 6, 5, 20, 55))
    ensures IsRawRow(FAMILIES[22], "MLDSA87", MlDsaKey(8), MlDsaSignature(256, 8, 7, 20, 75))
  {
    LongSignatures();
    hide MlDsaSignature;
  }

  lemma OtherSizes()
    ensures IsRawRow(FAMILIES[8], "AES128", 0, 0) && IsRawRow(FAMILIES[9], "AES192", 0, 0)
    ensures IsRawRow(FAMILIES[10], "AES256", 0, 0) && IsRawRow(FAMILIES[11], "SHA2-256", 0, 0)
    ensures IsRawRow(FAMILIES[12], "SHA2-384", 0, 0) && IsRawRow(FAMILIES[13], "SHA2-512", 0, 0)
    ensures IsRawRow(FAMILIES[14], "SHA3-256", 0, 0) && IsRawRow(FAMILIES[15], "SHA3-384", 0, 0)
    ensures IsRawRow(FAMILIES[16], "SHA3-512", 0, 0)
    ensures IsRawRow(FAMILIES[23], "CERT", 0, 0) && IsRawRow(FAMILIES[24], "DER_PKEY", 0, 0)
  {
  }

  lemma LongSignatures()
    ensures MlDsaSignature(128, 4, 4, 18, 80) == 2420 && MlDsaSignature(192, 6, 5, 20, 55) == 3309
    ensures MlDsaSignature(256, 8, 7, 20, 75) == 4627
  {
  }
}
