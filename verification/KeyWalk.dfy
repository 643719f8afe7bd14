/**
 Listing and searching the key repository: one page a request, walked until the reported total is
 reached or a page is empty (src/proto_keymgmt.c).
 */
module KeyWalk {
  import opened Options
  import opened Bits
  import opened Wire
  import opened Engine
  import opened Ledger
  import opened Acquisition
  import opened Confirmation
  import opened Requests
  import opened Sessions
  import Base64
  import C = Context

  const WALK_PAGE: nat := 10
  const LIST_SCOPE := "keymgmt:list"
  const SEARCH_SCOPE := "keymgmt:search"
  const SEARCH_PATH := "/api/keymgmt/search"

  type Int64 = n: int | -0x8000_0000_0000_0000 <= n <= 0x7FFF_FFFF_FFFF_FFFF

  datatype Entry = Entry(kid: string, name: seq<byte>, kind: string)

  /** One page as parsed from a reply; the device's total is what it claims, not what it holds. */
  datatype Page = Page(total: Int64, entries: seq<Entry>)

  /** How a reply parses, or None when an entry lacks a required field. */
  type Parser = Body -> Option<Page>

  const EMPTY_PAGE := Page(0, [])

  // --------------------------------------------------------- search pattern

  datatype SearchMode = Substring | Prefix | Suffix

  /** The pattern in base64, anchored as the mode asks. */
  function Descr(mode: SearchMode, pattern: seq<byte>): string {
    var b64 := Base64.Encode(Base64.Standard, pattern);
    match mode
    case Substring => b64
    case Prefix => "^" + b64
    case Suffix => b64 + "$"
  }

  lemma {:induction false} NoAnchors(pattern: seq<byte>)
    ensures var b64 := Base64.Encode(Base64.Standard, pattern); '^' !in b64 && '$' !in b64 && '\0' !in b64
  {
    var letters := Base64.Letters(Base64.Standard, Base64.Sextets(pattern));
    forall i | 0 <= i < |letters|
      ensures letters[i] != '^' && letters[i] != '$' && letters[i] != '\0'
    {
      assert letters[i] == Base64.Letter(Base64.Standard, Base64.Sextets(pattern)[i]);
    }
  }

  /** The wire text tells mode and pattern apart, whatever bytes the pattern holds. */
  lemma {:induction false} DescrIsInjective(m: SearchMode, p: seq<byte>, m': SearchMode, p': seq<byte>)
    requires Descr(m, p) == Descr(m', p')
    ensures m == m' && p == p'
  {
    var a, b := Base64.Encode(Base64.Standard, p), Base64.Encode(Base64.Standard, p');
    NoAnchors(p);
    NoAnchors(p');
    assert m.Prefix? <==> '^' in Descr(m, p) by {
      assert m.Prefix? ==> Descr(m, p)[0] == '^';
    }
    assert m'.Prefix? <==> '^' in Descr(m', p') by {
      assert m'.Prefix? ==> Descr(m', p')[0] == '^';
    }
    assert m.Suffix? <==> '$' in Descr(m, p) by {
      assert m.Suffix? ==> Descr(m, p)[|a|] == '$';
    }
    assert m'.Suffix? <==> '$' in Descr(m', p') by {
      assert m'.Suffix? ==> Descr(m', p')[|b|] == '$';
    }
    assert a == b by {
      if m.Prefix? {
        assert a == Descr(m, p)[1..] && b == Descr(m', p')[1..];
      } else if m.Suffix? {
        assert a == Descr(m, p)[..|Descr(m, p)| - 1] && b == Descr(m', p')[..|Descr(m', p')| - 1];
      }
    }
    Base64.RoundTrip(Base64.Standard, p, |p| + |p'|);
    Base64.RoundTrip(Base64.Standard, p', |p| + |p'|);
  }

  /** How a wire text selects names: `^` asks for a beginning, `$` for an end, neither for any place. */
  ghost predicate Selects(descr: string, name: seq<byte>) {
    if |descr| > 0 && descr[0] == '^' then
      exists p: seq<byte> :: Spells(descr[1..], p) && p <= name
    else if |descr| > 0 && descr[|descr| - 1] == '$' then
      exists p: seq<byte> :: Spells(descr[..|descr| - 1], p) && EndsIn(name, p)
    else
      exists p: seq<byte> :: Spells(descr, p) && Within(name, p)
  }

  predicate Spells(b64: string, p: seq<byte>) {
    Base64.Decode(Base64.Standard, b64, |b64|) == Some(p)
  }

  predicate EndsIn(name: seq<byte>, p: seq<byte>) {
    |p| <= |name| && name[|name| - |p|..] == p
  }

  predicate Within(name: seq<byte>, p: seq<byte>) {
    exists i :: 0 <= i <= |name| - |p| && p <= name[i..]
  }

  /** The text sent selects the names the mode and the pattern ask for, and no others. */
  lemma {:induction false} DescrSelects(mode: SearchMode, pattern: seq<byte>, name: seq<byte>)
    ensures Selects(Descr(mode, pattern), name)
       <==> match mode
            case Prefix => pattern <= name
            case Suffix => EndsIn(name, pattern)
            case Substring => Within(name, pattern)
  {
    hide Base64.Encode, Base64.Decode, EndsIn, Within;
    var b64, descr := Base64.Encode(Base64.Standard, pattern), Descr(mode, pattern);
    NoAnchors(pattern);
    Base64.EncodedLength(Base64.Standard, pattern);
    Base64.RoundTrip(Base64.Standard, pattern, |b64|);
    match mode
    case Prefix =>
      assert descr[1..] == b64 && Spells(descr[1..], pattern);
    case Suffix =>
      assert descr[..|descr| - 1] == b64 && Spells(descr[..|descr| - 1], pattern);
      assert |b64| > 0 ==> descr[0] == b64[0];
    case Substring =>
      assert |b64| > 0 ==> descr[0] in b64 && descr[|descr| - 1] in b64;
      assert Spells(descr, pattern);
  }

  /** Built in a buffer with room for one anchor and the terminator. */
  method BuildSearchDescr(mode: SearchMode, pattern: seq<byte>) returns (descr: array<char>)
    ensures fresh(descr) && |Descr(mode, pattern)| < descr.Length
    ensures descr[..|Descr(mode, pattern)| + 1] == Descr(mode, pattern) + ['\0']
  {
    hide Base64.Encode;
    var enc := Base64.EncodedLen(Base64.Standard, |pattern|);
    descr := new char[enc + 2];
    Base64.EncodedLength(Base64.Standard, pattern);
    if mode == Prefix {
      descr[0] := '^';
      assert descr[..1] == "^";
      var w := Base64.B64Encode(Base64.Standard, pattern, descr, 1, enc + 1);
    } else {
      assert descr[..0] == "";
      var w := Base64.B64Encode(Base64.Standard, pattern, descr, 0, enc + 1);
      if mode == Suffix {
        PutAnchor(descr, w.value, Base64.Encode(Base64.Standard, pattern));
      }
    }
  }

  method StrLen(buf: array<char>, ghost text: string) returns (n: nat)
    requires |text| < buf.Length && buf[..|text| + 1] == text + ['\0'] && '\0' !in text
    ensures n == |text|
  {
    n := 0;
    assert forall k :: 0 <= k < |text| ==> buf[k] == buf[..|text| + 1][k] == text[k];
    assert buf[|text|] == buf[..|text| + 1][|text|];
    while buf[n] != '\0'
      invariant n <= |text|
      decreases |text| - n
    {
      n := n + 1;
    }
  }

  method PutAnchor(descr: array<char>, w: nat, ghost text: string)
    requires w == |text| && descr.Length == w + 2 && descr[..w + 1] == text + ['\0']
    modifies descr
    ensures descr[..] == text + "$" + ['\0']
  {
    assert descr[..w] == descr[..w + 1][..w];
    descr[w] := '$';
    descr[w + 1] := '\0';
  }

  // --------------------------------------------------------------- one page

  function Decimal(n: nat): string {
    var digit := ['0' + (n % 10) as char];
    if n < 10 then digit else Decimal(n / 10) + digit
  }

  function ListPath(offset: nat, limit: nat): string {
    if limit > 0 then "/api/keymgmt/list/" + Decimal(offset) + "/" + Decimal(limit)
    else if offset > 0 then "/api/keymgmt/list/" + Decimal(offset)
    else "/api/keymgmt/list"
  }

  function SearchBody(descr: string, offset: nat, limit: nat): Body {
    Object(map["descr" := Str(descr), "offset" := Num(offset), "limit" := Num(limit)])
  }

  datatype Fetched = Fetched(rc: Rc, page: Page, s: State)

  function Parsed(parse: Parser, g: Got): Fetched {
    if g.rc != Ok then Fetched(g.rc, EMPTY_PAGE, g.s)
    else
      match parse(g.body)
      case None => Fetched(Protocol, EMPTY_PAGE, SetError(g.s, 200, false))
      case Some(page) => Fetched(Ok, page, g.s)
  }

  function KeyList(w: Env, parse: Parser, s: State, offset: nat, limit: nat): Fetched {
    Parsed(parse, RequestJson(w, ClearError(s), GET, ListPath(offset, limit), NoBody, Some(LIST_SCOPE), Default))
  }

  /** A 404 is a search that matched nothing. */
  function SearchOnePage(w: Env, parse: Parser, s: State, descr: string, offset: nat, limit: nat): Fetched {
    var g := RequestJson(w, s, POST, SEARCH_PATH, SearchBody(descr, offset, limit), Some(SEARCH_SCOPE), Default);
    if g.rc == NotFound then Fetched(Ok, EMPTY_PAGE, ClearError(g.s)) else Parsed(parse, g)
  }

  /** What is walked: the whole repository, or the matches of a search. */
  datatype Source = Listing | Matching(descr: string)

  function Fetch(w: Env, parse: Parser, src: Source, s: State, offset: nat): Fetched {
    match src
    case Listing => KeyList(w, parse, s, offset, WALK_PAGE)
    case Matching(descr) => SearchOnePage(w, parse, s, descr, offset, WALK_PAGE)
  }

  // ------------------------------------------------------------------- walk

  datatype Walked = Walked(rc: Rc, page: Page, requests: nat, s: State)

  /** The walk from `|got|` on; it goes on while pages come and the latest total is not reached. */
  function Walk(w: Env, parse: Parser, src: Source, s: State, got: seq<Entry>): Walked
    decreases 0x7FFF_FFFF_FFFF_FFFF - |got|
  {
    var f := Fetch(w, parse, src, s, |got|);
    var got' := got + f.page.entries;
    if f.rc != Ok then Walked(f.rc, EMPTY_PAGE, 1, f.s)
    else if f.page.entries == [] || |got'| >= f.page.total then Walked(Ok, Page(f.page.total, got'), 1, f.s)
    else
      var r := Walk(w, parse, src, f.s, got');
      r.(requests := r.requests + 1)
  }

  // --------------------------------------------------------- implementation

  /** A page under construction: entries are moved in from other pages. */
  class KeyPage {
    var total: Int64
    var entries: seq<Entry>

    constructor (total: Int64, entries: seq<Entry>)
      ensures this.total == total && this.entries == entries
    {
      this.total, this.entries := total, entries;
    }

    ghost function Value(): Page
      reads this
    {
      Page(total, entries)
    }

    /** Take over the entries of `src`, which is left empty. */
    method Append(src: KeyPage)
      requires src != this
      modifies this, src
      ensures entries == old(entries) + old(src.entries) && src.entries == []
      ensures total == old(total) && src.total == old(src.total)
    {
      if |src.entries| == 0 {
        return;
      }
      entries := entries + src.entries;
      src.entries := [];
    }
  }

  method ParsePage(ctx: C.Context, parse: Parser, body: Body) returns (rc: Rc, page: KeyPage)
    requires ctx.Valid()
    modifies ctx
    ensures ctx.Valid() && ctx.repr == old(ctx.repr) && fresh(page)
    ensures Fetched(rc, page.Value(), ctx.Model()) == Parsed(parse, Got(Ok, body, old(ctx.Model())))
  {
    var p := parse(body);
    if p.None? {
      page := new KeyPage(0, []);
      rc := ctx.Fail(Protocol, 200);
      return;
    }
    page := new KeyPage(p.value.total, p.value.entries);
    rc := Ok;
  }

  method List(ctx: C.Context, parse: Parser, offset: nat, limit: nat) returns (rc: Rc, page: KeyPage)
    requires ctx.Valid()
    modifies ctx.repr
    ensures ctx.Valid() && fresh(ctx.repr - old(ctx.repr)) && fresh(page) && page !in ctx.repr
    ensures Fetched(rc, page.Value(), ctx.Model()) == KeyList(ctx.w, parse, old(ctx.Model()), offset, limit)
  {
    hide RequestJson, ListPath;
    ctx.ClearError();
    var root;
    rc, root := ctx.RequestJson(GET, ListPath(offset, limit), NoBody, Some(LIST_SCOPE), Default);
    if rc == Ok {
      rc, page := ParsePage(ctx, parse, root);
    } else {
      page := new KeyPage(0, []);
    }
  }

  method SearchPage(ctx: C.Context, parse: Parser, descr: string, offset: nat, limit: nat)
    returns (rc: Rc, page: KeyPage)
    requires ctx.Valid()
    modifies ctx.repr
    ensures ctx.Valid() && fresh(ctx.repr - old(ctx.repr)) && fresh(page) && page !in ctx.repr
    ensures Fetched(rc, page.Value(), ctx.Model())
         == SearchOnePage(ctx.w, parse, old(ctx.Model()), descr, offset, limit)
  {
    hide RequestJson;
    var root;
    rc, root := ctx.RequestJson(POST, SEARCH_PATH, SearchBody(descr, offset, limit), Some(SEARCH_SCOPE), Default);
    if rc == NotFound {
      ctx.ClearError();
      rc := Ok;
      page := new KeyPage(0, []);
    } else if rc == Ok {
      rc, page := ParsePage(ctx, parse, root);
    } else {
      page := new KeyPage(0, []);
    }
  }

  method FetchPage(ctx: C.Context, parse: Parser, src: Source, offset: nat) returns (rc: Rc, page: KeyPage)
    requires ctx.Valid()
    modifies ctx.repr
    ensures ctx.Valid() && fresh(ctx.repr - old(ctx.repr)) && fresh(page) && page !in ctx.repr
    ensures Fetched(rc, page.Value(), ctx.Model()) == Fetch(ctx.w, parse, src, old(ctx.Model()), offset)
  {
    if src.Listing? {
      rc, page := List(ctx, parse, offset, WALK_PAGE);
    } else {
      rc, page := SearchPage(ctx, parse, src.descr, offset, WALK_PAGE);
    }
  }

  /** The loop shared by the two walks. */
  method WalkPages(ctx: C.Context, parse: Parser, src: Source) returns (rc: Rc, acc: KeyPage)
    requires ctx.Valid()
    modifies ctx.repr
    ensures ctx.Valid() && fresh(ctx.repr - old(ctx.repr)) && fresh(acc)
    ensures var r := Walk(ctx.w, parse, src, old(ctx.Model()), []);
            rc == r.rc && ctx.Model() == r.s && (rc == Ok ==> acc.Value() == r.page)
  {
    hide Fetch, C.Context.Model;
    acc := new KeyPage(0, []);
    var offset: nat := 0;
    ghost var goal := Walk(ctx.w, parse, src, ctx.Model(), []);
    while true
      invariant ctx.Valid() && fresh(ctx.repr - old(ctx.repr)) && fresh(acc) && acc !in ctx.repr
      invariant offset == |acc.entries|
      invariant var r := Walk(ctx.w, parse, src, ctx.Model(), acc.entries);
                r.rc == goal.rc && r.page == goal.page && r.s == goal.s
      decreases 0x7FFF_FFFF_FFFF_FFFF - offset
    {
      var page;
      rc, page := FetchPage(ctx, parse, src, offset);
      if rc != Ok {
        return;
      }
      acc.total := page.total;
      var listed := |page.entries|;
      acc.Append(page);
      offset := offset + listed;
      if listed == 0 || offset >= acc.total {
        return;
      }
    }
  }

  method ListAll(ctx: C.Context, parse: Parser) returns (rc: Rc, acc: KeyPage)
    requires ctx.Valid()
    modifies ctx.repr
    ensures ctx.Valid() && fresh(ctx.repr - old(ctx.repr)) && fresh(acc)
    ensures var r := Walk(ctx.w, parse, Listing, ClearError(old(ctx.Model())), []);
            rc == r.rc && ctx.Model() == r.s && (rc == Ok ==> acc.Value() == r.page)
  {
    ctx.ClearError();
    rc, acc := WalkPages(ctx, parse, Listing);
  }

  method SearchAll(ctx: C.Context, parse: Parser, mode: SearchMode, pattern: seq<byte>) returns (rc: Rc, acc: KeyPage)
    requires ctx.Valid()
    modifies ctx.repr
    ensures ctx.Valid() && fresh(ctx.repr - old(ctx.repr)) && fresh(acc)
    ensures var r := Walk(ctx.w, parse, Matching(Descr(mode, pattern)), ClearError(old(ctx.Model())), []);
            rc == r.rc && ctx.Model() == r.s && (rc == Ok ==> acc.Value() == r.page)
  {
    hide Walk, C.Context.Model, Base64.Encode;
    ctx.ClearError();
    var buf := BuildSearchDescr(mode, pattern);
    NoAnchors(pattern);
    var n := StrLen(buf, Descr(mode, pattern));
    assert buf[..n] == buf[..n + 1][..n] == Descr(mode, pattern);
    rc, acc := WalkPages(ctx, parse, Matching(buf[..n]));
  }

  // ---------------------------------------------------------------- results

  /**
   * A page of a repository from `offset` on: the true total, and a non-empty slice if anything is
   * left, of whatever length the device likes.
   */
  predicate SliceOf(repo: seq<Entry>, offset: nat, page: Page) {
    && page.total == |repo|
    && (offset <= |repo| ==> page.entries <= repo[offset..])
    && (offset < |repo| ==> page.entries != [])
  }

  /** Every page the device does deliver is a slice of this repository. */
  ghost predicate Stable(w: Env, parse: Parser, src: Source, repo: seq<Entry>) {
    forall s: State, offset: nat ::
      Fetch(w, parse, src, s, offset).rc == Ok ==> SliceOf(repo, offset, Fetch(w, parse, src, s, offset).page)
  }

  /** Page request number `n` of a walk, counting from nought. */
  function PageAt(w: Env, parse: Parser, src: Source, s: State, got: seq<Entry>, n: nat): Fetched
    decreases n
  {
    var f := Fetch(w, parse, src, s, |got|);
    if n == 0 then f else PageAt(w, parse, src, f.s, got + f.page.entries, n - 1)
  }

  /** A walk ends as its last page request did, and every one before that succeeded. */
  lemma {:induction false} WalkEnds(w: Env, parse: Parser, src: Source, s: State, got: seq<Entry>)
    ensures var r := Walk(w, parse, src, s, got);
            && r.requests > 0
            && r.rc == PageAt(w, parse, src, s, got, r.requests - 1).rc
            && r.s == PageAt(w, parse, src, s, got, r.requests - 1).s
            && forall i: nat :: i < r.requests - 1 ==> PageAt(w, parse, src, s, got, i).rc == Ok
    decreases 0x7FFF_FFFF_FFFF_FFFF - |got|
  {
    hide Fetch;
    var f := Fetch(w, parse, src, s, |got|);
    var got' := got + f.page.entries;
    if f.rc == Ok && f.page.entries != [] && |got'| < f.page.total {
      WalkEnds(w, parse, src, f.s, got');
    }
  }

  /**
   * A walk of a stable repository succeeds exactly when none of its page requests failed, and then it
   * has the repository whole, in order, nothing lost or doubled.
   */
  lemma {:induction false} StableWalk(w: Env, parse: Parser, src: Source, s: State, repo: seq<Entry>, got: seq<Entry>)
    requires Stable(w, parse, src, repo) && got <= repo
    ensures var r := Walk(w, parse, src, s, got);
            && (r.rc == Ok <==> forall i: nat :: i < r.requests ==> PageAt(w, parse, src, s, got, i).rc == Ok)
            && (r.rc == Ok ==> r.page.entries == repo && r.page.total == |repo|)
  {
    hide Walk, PageAt;
    WalkEnds(w, parse, src, s, got);
    WholeWalk(w, parse, src, s, repo, got);
    var r := Walk(w, parse, src, s, got);
    assert r.rc != Ok ==> PageAt(w, parse, src, s, got, r.requests - 1).rc != Ok;
  }

  lemma {:induction false} WholeWalk(w: Env, parse: Parser, src: Source, s: State, repo: seq<Entry>, got: seq<Entry>)
    requires Stable(w, parse, src, repo) && got <= repo
    ensures var r := Walk(w, parse, src, s, got);
            r.rc == Ok ==> r.page.entries == repo && r.page.total == |repo|
    decreases |repo| - |got|
  {
    hide Fetch;
    var f := Fetch(w, parse, src, s, |got|);
    if f.rc == Ok {
      var got' := got + f.page.entries;
      assert got' <= repo by {
        assert repo == got + repo[|got|..];
      }
      if f.page.entries != [] && |got'| < f.page.total {
        WholeWalk(w, parse, src, f.s, repo, got');
      } else {
        assert got' == repo;
      }
    }
  }

  // ------------------------------------------------ what the device is asked

  /** The number a text of decimal digits spells. */
  function ReadDecimal(text: string): Option<nat> {
    if |text| == 0 || !('0' <= text[|text| - 1] <= '9') then None
    else
      var digit := text[|text| - 1] as nat - '0' as nat;
      if |text| == 1 then Some(digit)
      else
        match ReadDecimal(text[..|text| - 1])
        case None => None
        case Some(front) => Some(10 * front + digit)
  }

  /** Up to the first slash from `i` on. */
  function SlashFrom(text: string, i: nat): (j: nat)
    requires i <= |text|
    ensures i <= j <= |text|
    decreases |text| - i
  {
    if i == |text| || text[i] == '/' then i else SlashFrom(text, i + 1)
  }

  const LIST_PREFIX := "/api/keymgmt/list/"

  /** How a device reads a list path: the offset, a slash, the limit; what is left out is nought. */
  function ReadListPath(path: string): Option<(nat, nat)> {
    if path == "/api/keymgmt/list" then Some((0, 0))
    else if !(LIST_PREFIX <= path) then None
    else
      var rest := path[|LIST_PREFIX|..];
      var slash := SlashFrom(rest, 0);
      if slash == |rest| then
        match ReadDecimal(rest)
        case None => None
        case Some(offset) => Some((offset, 0))
      else
        var offset, limit := ReadDecimal(rest[..slash]), ReadDecimal(rest[slash + 1..]);
        if offset.Some? && limit.Some? then Some((offset.value, limit.value)) else None
  }

  lemma {:induction false} DecimalReads(n: nat)
    ensures ReadDecimal(Decimal(n)) == Some(n) && '/' !in Decimal(n)
  {
    var digit := '0' + (n % 10) as char;
    assert digit as nat - '0' as nat == n % 10;
    if n >= 10 {
      DecimalReads(n / 10);
      assert Decimal(n)[..|Decimal(n)| - 1] == Decimal(n / 10);
    }
  }

  lemma {:induction false} SlashAfter(text: string, rest: string, i: nat)
    requires '/' !in text && i <= |text|
    ensures SlashFrom(text + "/" + rest, i) == |text|
    decreases |text| - i
  {
    if i < |text| {
      SlashAfter(text, rest, i + 1);
    }
  }

  lemma {:induction false} NoSlash(text: string, i: nat)
    requires '/' !in text && i <= |text|
    ensures SlashFrom(text, i) == |text|
    decreases |text| - i
  {
    if i < |text| {
      NoSlash(text, i + 1);
    }
  }

  /** A list request is read as the offset and the limit it was made for. */
  lemma {:induction false} ListPathReads(offset: nat, limit: nat)
    ensures ReadListPath(ListPath(offset, limit)) == Some((offset, limit))
  {
    hide Decimal, ReadDecimal, SlashFrom;
    DecimalReads(offset);
    DecimalReads(limit);
    ListPathIs(offset, limit);
    if limit > 0 {
      var rest := Decimal(offset) + "/" + Decimal(limit);
      SlashAfter(Decimal(offset), Decimal(limit), 0);
      assert rest[..|Decimal(offset)|] == Decimal(offset) && rest[|Decimal(offset)| + 1..] == Decimal(limit);
    } else {
      NoSlash(Decimal(offset), 0);
    }
  }

  lemma ListPathIs(offset: nat, limit: nat)
    ensures limit == 0 && offset == 0 <==> ListPath(offset, limit) == "/api/keymgmt/list"
    ensures limit > 0 || offset > 0 ==>
              var text := if limit > 0 then Decimal(offset) + "/" + Decimal(limit) else Decimal(offset);
              LIST_PREFIX <= ListPath(offset, limit) && ListPath(offset, limit)[|LIST_PREFIX|..] == text
  {
    hide Decimal;
    if limit > 0 {
      assert ListPath(offset, limit) == LIST_PREFIX + (Decimal(offset) + "/" + Decimal(limit));
    } else if offset > 0 {
      assert ListPath(offset, limit) == LIST_PREFIX + Decimal(offset);
    }
  }

  /** Which entries of what it holds a request asks the device for, from where and how many. */
  function Asked(src: Source, req: Request): Option<(nat, nat)> {
    match src
    case Listing => if req.verb == GET then ReadListPath(req.path) else None
    case Matching(descr) =>
      if req.verb == POST && req.path == "/api/keymgmt/search" && req.body.Text("descr") == Some(descr) then
        var offset, limit := req.body.Number("offset"), req.body.Number("limit");
        if offset.Some? && limit.Some? && offset.value >= 0 && limit.value >= 0 then Some((offset.value, limit.value))
        else None
      else None
  }

  /**
   * A device that holds these entries: an object it answers to a request for some of them parses, if
   * at all, as a slice from the offset asked for; and it answers a search 404 only with no match.
   */
  ghost predicate Holds(w: Env, parse: Parser, src: Source, repo: seq<Entry>) {
    forall log: History, req: Request ::
      Asked(src, req).Some? ==> IsAnswer(parse, src, repo, Asked(src, req).value.0, w.device(log, req))
  }

  predicate IsAnswer(parse: Parser, src: Source, repo: seq<Entry>, offset: nat, o: Outcome) {
    && (o.Success() && o.body.Object? && parse(o.body).Some? ==> SliceOf(repo, offset, parse(o.body).value))
    && (src.Matching? && o.Reply? && o.status == 404 ==> repo == [])
  }

  /** The page requests of a walk ask for ten entries from the offset they are made for. */
  lemma {:induction false} AsksFor(w: Env, parse: Parser, src: Source, s: State, offset: nat)
    ensures var f := Fetch(w, parse, src, s, offset);
            f.rc == Ok && f.page.entries != [] ==>
              && |f.s.log| > 0 && Last(f.s.log).Sent?
              && Asked(src, Last(f.s.log).req) == Some((offset, 10))
              && Last(f.s.log).out == w.device(Front(f.s.log), Last(f.s.log).req)
              && Last(f.s.log).out.Success() && Last(f.s.log).out.body.Object?
              && parse(Last(f.s.log).out.body) == Some(f.page)
  {
    hide RequestJson, ReadListPath, ListPath;
    match src
    case Listing =>
      ScopedReply(w, ClearError(s), GET, ListPath(offset, WALK_PAGE), NoBody, LIST_SCOPE, Default);
      ListPathReads(offset, WALK_PAGE);
    case Matching(descr) =>
      ScopedReply(w, s, POST, SEARCH_PATH, SearchBody(descr, offset, WALK_PAGE), SEARCH_SCOPE, Default);
  }

  /**
   * A page request, as the device's answer to its last dispatch decides it: an object that parses is the
   * page, one that does not is PROTOCOL with status 200.
   */
  lemma {:induction false} PageVerdict(w: Env, parse: Parser, src: Source, s: State, offset: nat)
    returns (own: History)
    requires Inv(w, s)
    ensures var f := Fetch(w, parse, src, s, offset);
            && Owns(f.s.log) == Owns(s.log) + own
            && (own != [] && Last(own).Sent? && Last(own).out.Success() && Last(own).out.body.Object? ==>
                  match parse(Last(own).out.body)
                  case Some(page) => f.rc == Ok && f.page == page
                  case None => f.rc == Protocol && f.s.err == Error(200, false))
  {
    hide RequestJson, ListPath, Inv;
    match src
    case Listing =>
      SameButErrorInv(w, s, ClearError(s));
      own := JsonEnding(w, ClearError(s), GET, ListPath(offset, WALK_PAGE), NoBody, LIST_SCOPE, Default);
    case Matching(descr) =>
      own := JsonEnding(w, s, POST, SEARCH_PATH, SearchBody(descr, offset, WALK_PAGE), SEARCH_SCOPE, Default);
  }

  /** A device that holds a repository serves slices of it. */
  lemma {:induction false} HoldingIsStable(w: Env, parse: Parser, repo: seq<Entry>)
    requires Holds(w, parse, Listing, repo)
    ensures Stable(w, parse, Listing, repo)
  {
    hide RequestJson, ListPath, ReadListPath, SliceOf;
    forall s: State, offset: nat | Fetch(w, parse, Listing, s, offset).rc == Ok
      ensures SliceOf(repo, offset, Fetch(w, parse, Listing, s, offset).page)
    {
      ScopedReply(w, ClearError(s), GET, ListPath(offset, WALK_PAGE), NoBody, LIST_SCOPE, Default);
      ListPathReads(offset, WALK_PAGE);
      var f := Fetch(w, parse, Listing, s, offset);
      assert Asked(Listing, Last(f.s.log).req) == Some((offset, 10));
      assert IsAnswer(parse, Listing, repo, offset, w.device(Front(f.s.log), Last(f.s.log).req));
    }
  }

  /**
   * Listing the repository a device holds: every page request names the offset reached, so the walk
   * succeeds exactly when none failed, and then has the repository whole, in order.
   */
  lemma {:induction false} RepositoryWalk(w: Env, parse: Parser, s: State, repo: seq<Entry>)
    requires Holds(w, parse, Listing, repo)
    ensures var r := Walk(w, parse, Listing, s, []);
            && (r.rc == Ok <==> forall i: nat :: i < r.requests ==> PageAt(w, parse, Listing, s, [], i).rc == Ok)
            && (r.rc == Ok ==> r.page.entries == repo && r.page.total == |repo|)
  {
    hide Walk, PageAt, Holds, Stable;
    HoldingIsStable(w, parse, repo);
    StableWalk(w, parse, Listing, s, repo, []);
  }

  /** No reported total exceeds the bound. */
  ghost predicate TotalsBelow(w: Env, parse: Parser, src: Source, bound: nat) {
    forall s: State, offset: nat ::
      Fetch(w, parse, src, s, offset).rc == Ok ==> Fetch(w, parse, src, s, offset).page.total <= bound
  }

  function Most(a: int, b: int): int {
    if a < b then b else a
  }

  /** Whatever the pages hold, the walk ends within as many requests as the largest total reported. */
  lemma {:induction false} WalkIsBounded(w: Env, parse: Parser, src: Source, s: State, got: seq<Entry>, bound: nat)
    requires TotalsBelow(w, parse, src, bound)
    ensures 1 <= Walk(w, parse, src, s, got).requests <= Most(1, bound - |got|)
    decreases bound - |got|
  {
    hide Fetch;
    var f := Fetch(w, parse, src, s, |got|);
    var got' := got + f.page.entries;
    if f.rc == Ok && f.page.entries != [] && |got'| < f.page.total {
      WalkIsBounded(w, parse, src, f.s, got', bound);
    }
  }

  /** Every page the device does deliver reports this total and holds one entry, as long as some are left. */
  ghost predicate OneByOne(w: Env, parse: Parser, src: Source, total: nat) {
    forall s: State, offset: nat ::
      var f := Fetch(w, parse, src, s, offset);
      f.rc == Ok ==> f.page.total == total && |f.page.entries| <= 1 && (offset < total ==> f.page.entries != [])
  }

  /** And a successful walk against a device that serves one entry a page takes exactly that many. */
  lemma {:induction false} BoundIsReached(w: Env, parse: Parser, src: Source, s: State, total: nat, got: seq<Entry>)
    requires OneByOne(w, parse, src, total)
    ensures var r := Walk(w, parse, src, s, got);
            r.rc == Ok ==> r.requests == Most(1, total - |got|)
    decreases total - |got|
  {
    hide Fetch;
    var f := Fetch(w, parse, src, s, |got|);
    var got' := got + f.page.entries;
    if f.rc == Ok && f.page.entries != [] && |got'| < total {
      BoundIsReached(w, parse, src, f.s, total, got');
    }
  }

  lemma {:induction false} FetchSteps(w: Env, parse: Parser, src: Source, s: State, offset: nat)
    requires Inv(w, s)
    ensures var f := Fetch(w, parse, src, s, offset);
            Inv(w, f.s) && Costs(s, f.s, RequestCost(w, Mobile(s), Default), 2) && Mobile(f.s) == Mobile(s)
  {
    match src
    case Listing =>
      SameButErrorInv(w, s, ClearError(s));
      PageSteps(w, ClearError(s), GET, ListPath(offset, WALK_PAGE), NoBody, LIST_SCOPE, Fetch(w, parse, src, s,
            offset).s);
    case Matching(descr) =>
      PageSteps(w, s, POST, SEARCH_PATH, SearchBody(descr, offset, WALK_PAGE), SEARCH_SCOPE, Fetch(w, parse, src, s,
            offset).s);
  }

  lemma {:induction false} PageSteps(w: Env, s: State, verb: Method, path: string, body: Body, scope: string, s': State)
    requires Inv(w, s)
    requires var g := RequestJson(w, s, verb, path, body, Some(scope), Default);
             s' == g.s || s' == ClearError(g.s) || s' == SetError(g.s, 200, false)
    ensures Inv(w, s') && Costs(s, s', RequestCost(w, Mobile(s), Default), 2) && Mobile(s') == Mobile(s)
  {
    var g := RequestRaw(w, s, verb, path, body, Some(scope), Default);
    var own := RequestSteps(w, s, verb, path, body, scope, Default);
    assert s' == g.s.(err := s'.err);
    SameButErrorInv(w, g.s, s');
  }

  lemma {:induction false} WalkSteps(w: Env, parse: Parser, src: Source, s: State, got: seq<Entry>, cost: nat)
    requires Inv(w, s) && cost == RequestCost(w, Mobile(s), Default)
    ensures var r := Walk(w, parse, src, s, got);
            Inv(w, r.s) && Costs(s, r.s, r.requests * cost, 2 * r.requests)
    decreases 0x7FFF_FFFF_FFFF_FFFF - |got|
  {
    hide Inv, Fetch, RequestCost, Costs, Mobile, Walk;
    var r, f := Walk(w, parse, src, s, got), Fetch(w, parse, src, s, |got|);
    var got' := got + f.page.entries;
    FetchSteps(w, parse, src, s, |got|);
    WalkOnce(w, parse, src, s, got);
    if f.rc == Ok && f.page.entries != [] && |got'| < f.page.total {
      var r' := Walk(w, parse, src, f.s, got');
      WalkSteps(w, parse, src, f.s, got', cost);
      CostsThen(s, f.s, r'.s, cost, 2, r'.requests * cost, 2 * r'.requests);
      OneTimeMore(r'.requests, cost);
    }
  }

  lemma WalkOnce(w: Env, parse: Parser, src: Source, s: State, got: seq<Entry>)
    ensures var r, f := Walk(w, parse, src, s, got), Fetch(w, parse, src, s, |got|);
            var got' := got + f.page.entries;
            if f.rc == Ok && f.page.entries != [] && |got'| < f.page.total then
              var r' := Walk(w, parse, src, f.s, got');
              r.s == r'.s && r.requests == r'.requests + 1
            else r.s == f.s && r.requests == 1
  {
    hide Fetch;
  }

  lemma OneTimeMore(n: nat, cost: nat)
    ensures cost + n * cost == (n + 1) * cost
  {
  }

  /**
   * In sends: 52 a request at most in passphrase mode (6 with automatic check-ins off), and three for
   * the session-start check-in if it falls due.
   */
  lemma {:induction false} WalkSendBound(w: Env, parse: Parser, src: Source, s: State, bound: nat)
    requires Inv(w, s) && !Mobile(s) && TotalsBelow(w, parse, src, bound)
    ensures var r := Walk(w, parse, src, s, []);
            Usage(r.s.log).sends
              <= Usage(s.log).sends + 3 + (if w.noAutoCheckin then 6 else 52) * Most(1, bound)
  {
    hide Inv, Usage, Walk, RequestCost;
    CallCost(w);
    WalkIsBounded(w, parse, src, s, [], bound);
    WalkSteps(w, parse, src, s, [], if w.noAutoCheckin then 6 else 52);
  }
}
