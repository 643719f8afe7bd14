/**
 What the concrete devices of the exactness results share: the one reply with every member anybody
 asks for, a count of the requests seen so far, and an exact account of what a stretch of history
 cost.
 */
module Devices {
  import opened Options
  import opened Bits
  import opened Wire
  import opened Engine
  import opened Ledger
  import opened Requests
  import Guarantees
  import Runs
  import Base64
  import CompactToken

  // ------------------------------------------------------------ the reply

  function DeviceKey(): string {
    Base64.Encode(Base64.Standard, seq(32, _ => 0))
  }

  /** An initialisation vector or a tag. */
  function Block(): string {
    Base64.Encode(Base64.Standard, seq(16, _ => 0))
  }

  /** A ciphertext of one byte. */
  function OneByte(): string {
    Base64.Encode(Base64.Standard, [0])
  }

  /** The text {"iat":1}. */
  const IAT_PAYLOAD: seq<byte> := [123, 34, 105, 97, 116, 34, 58, 49, 125]

  /** Two empty segments around a payload that says when it was issued. */
  function Authreq(): string {
    "" + "." + CompactToken.Segment(IAT_PAYLOAD) + "." + ""
  }

  /** A reader that knows that one payload. */
  function ReadJson(bytes: seq<byte>): Body {
    if bytes == IAT_PAYLOAD then Object(map["iat" := Num(1)]) else Malformed("")
  }

  /** A login challenge of long ago, a broker session, an authreq, an event, an answer, a token, a ciphertext. */
  function Everything(): Body {
    Object(map["eid" := Str("e"), "spk" := Str(DeviceKey()), "jti" := Str("j"), "exp" := Num(60),
               "epk" := Str(DeviceKey()), "authreq" := Str(Authreq()), "eventid" := Str("e"),
               "authreply" := Str("r"), "token" := Str("t"),
               "ciphertext" := Str(OneByte()), "iv" := Str(Block()), "tag" := Str(Block())])
  }

  lemma Members()
    ensures var c := Everything();
            && c.Object? && c.Text("eid") == Some("e") && c.Text("spk") == Some(DeviceKey())
            && c.Text("jti") == Some("j") && c.Number("exp") == Some(60) && c.Text("epk") == Some(DeviceKey())
            && c.Text("authreq") == Some(Authreq()) && c.Text("eventid") == Some("e")
            && c.Text("authreply") == Some("r") && c.Text("token") == Some("t") && "deny" !in c.fields
            && c.Text("ciphertext") == Some(OneByte())
            && c.Text("iv") == Some(Block()) && c.Text("tag") == Some(Block())
  {
    hide DeviceKey, Authreq, Block, OneByte;
  }

  lemma KeyDecodes()
    ensures IsKey32(DeviceKey()) && IsB64Of32(DeviceKey()) && |DeviceKey()| == 44
  {
    hide Base64.Encode, Base64.Decode;
    Base64.RoundTrip(Base64.Standard, seq(32, _ => 0), 32);
    Base64.RoundTrip(Base64.Standard, seq(32, _ => 0), 48);
    Base64.EncodedLength(Base64.Standard, seq(32, _ => 0));
  }

  lemma OneByteDecodes()
    ensures |OneByte()| > 0 && Base64.Decode(Base64.Standard, OneByte(), |OneByte()|) == Some([0])
  {
    hide Base64.Encode, Base64.Decode;
    Base64.EncodedLength(Base64.Standard, [0]);
    Base64.RoundTrip(Base64.Standard, [0], |OneByte()|);
  }

  lemma BlockDecodes()
    ensures |Block()| > 0 && Base64.Decode(Base64.Standard, Block(), 32) == Some(seq(16, _ => 0))
  {
    hide Base64.Encode, Base64.Decode;
    Base64.RoundTrip(Base64.Standard, seq(16, _ => 0), 32);
    Base64.EncodedLength(Base64.Standard, seq(16, _ => 0));
  }

  /** The login token for that challenge, and its deadline, which has passed. */
  lemma ChallengeUsable(w: Env, passphrase: string, scope: string, now: int)
    requires forall a, b, c :: w.derive(a, b, c).Some?
    ensures LoginClaims(w, Everything(), passphrase, scope, now).Some?
    ensures now > 60 ==> DriftEvident(Everything(), now)
  {
    hide Everything, DeviceKey, IsKey32;
    Members();
    KeyDecodes();
  }

  /** What the authreq says when it is read, and that no token here says when it expires. */
  lemma {:induction false} AuthreqClaims(w: Env)
    requires forall bytes :: w.json(bytes) == ReadJson(bytes)
    ensures Claim(w, Authreq(), "iat") == Some(1)
    ensures forall jwt :: Claim(w, jwt, "exp").None?
  {
    hide CompactToken.Segment, CompactToken.MiddleSegment, Base64.Decode;
    PayloadReads();
    CompactToken.SegmentHasNoDot(IAT_PAYLOAD);
    CompactToken.MiddleOfThree("", CompactToken.Segment(IAT_PAYLOAD), "");
  }

  lemma PayloadReads()
    ensures 0 < |CompactToken.Segment(IAT_PAYLOAD)| <= CompactToken.PEEK_CAP
    ensures Base64.Decode(Base64.Url, CompactToken.Segment(IAT_PAYLOAD), CompactToken.PEEK_CAP) == Some(IAT_PAYLOAD)
  {
    hide Base64.Encode, Base64.Decode;
    Base64.EncodedLength(Base64.Url, IAT_PAYLOAD);
    Base64.RoundTrip(Base64.Url, IAT_PAYLOAD, CompactToken.PEEK_CAP);
  }

  // --------------------------------------------------- requests told apart

  /** `Own` is a request under a bearer on a fresh connection. */
  datatype Kind = LoginPost | ExtPost | EventPost | EventPoll | Own | Plain

  const EVENT_NEW := NOTIFY_URL + "/event/new"
  const BROKER_SESSION := NOTIFY_URL + "/session"
  const CLOUD_URL := "https://api.encedo.com/checkin"

  /** A request as the device, its cloud and the broker tell requests apart. */
  function KindOf(req: Request): Kind {
    if req.bearer.Some? then if req.renew then Own else Plain
    else if req.tls == Default && req.verb == POST && req.renew then
      if req.path == TOKEN_PATH then LoginPost else ExtPost
    else if req.tls == Verify && req.verb == POST && req.path == EVENT_NEW then EventPost
    else if req.tls == Verify && req.verb == GET && req.path != BROKER_SESSION then EventPoll
    else Plain
  }

  lemma PathsDiffer()
    ensures CLOUD_URL != EVENT_NEW
    ensures NOTIFY_URL + CheckPath("e") != BROKER_SESSION && |CheckPath("e")| < 160
    ensures EXT_REQUEST_PATH != TOKEN_PATH && EXT_TOKEN_PATH != TOKEN_PATH
  {
    assert CLOUD_URL[23] == 'c' && EVENT_NEW[23] == 'n';
    assert (NOTIFY_URL + CheckPath("e"))[|NOTIFY_URL| + 1] == 'e';
    assert BROKER_SESSION[|NOTIFY_URL| + 1] == 's';
  }

  /** Requests seen so far, and polls seen since the last push. */
  datatype Seen = Seen(logins: nat, exts: nat, pushes: nat, owns: nat, polls: nat)

  function Saw(seen: Seen, req: Request): Seen {
    match KindOf(req)
    case LoginPost => seen.(logins := seen.logins + 1)
    case ExtPost => seen.(exts := seen.exts + 1)
    case EventPost => seen.(pushes := seen.pushes + 1, polls := 0)
    case EventPoll => seen.(polls := seen.polls + 1)
    case Own => seen.(owns := seen.owns + 1)
    case Plain => seen
  }

  function SeenIn(log: History): Seen {
    if |log| == 0 then Seen(0, 0, 0, 0, 0)
    else if Last(log).Sent? then Saw(SeenIn(Front(log)), Last(log).req)
    else SeenIn(Front(log))
  }

  /** The requests of the broker and the cloud, by kind. */
  lemma Kinds(body: Body)
    ensures KindOf(Request(GET, NOTIFY_URL + CheckPath("e"), body, None, Verify, false)) == EventPoll
    ensures KindOf(Request(GET, NOTIFY_URL + "/session", body, None, Verify, false)) == Plain
    ensures KindOf(Request(POST, NOTIFY_URL + "/event/new", body, None, Verify, false)) == EventPost
    ensures KindOf(Request(POST, CLOUD_URL, body, None, Verify, false)) == Plain
  {
    PathsDiffer();
    hide CheckPath, NOTIFY_URL, CLOUD_URL, TOKEN_PATH;
  }

  // ---------------------------------------------------------- bookkeeping

  /** What a stretch of history cost: sends, and check-ins on the login's budget, after a 403, on drift. */
  datatype Cost = Cost(sends: nat, budgeted: nat, ext: nat, drift: nat)

  function Plus(a: Cost, b: Cost): Cost {
    Cost(a.sends + b.sends, a.budgeted + b.budgeted, a.ext + b.ext, a.drift + b.drift)
  }

  function CostOf(log: History): Cost {
    Cost(Usage(log).sends, Checkins(log, Budgeted), Checkins(log, ExtRecovery), Checkins(log, BrokerDrift))
  }

  function CostOfCheckin(why: Reason): Cost {
    Cost(3, if why == Budgeted then 1 else 0, if why == ExtRecovery then 1 else 0, if why == BrokerDrift then 1 else 0)
  }

  function CostOfEvent(e: Event): Cost {
    match e
    case Sent(_, _, _) => Cost(1, 0, 0, 0)
    case CheckinBegan(why) => CostOfCheckin(why).(sends := 0)
    case _ => Cost(0, 0, 0, 0)
  }

  lemma {:induction false} OneMore(log: History, e: Event)
    ensures CostOf(log + [e]) == Plus(CostOf(log), CostOfEvent(e))
    ensures SeenIn(log + [e]) == if e.Sent? then Saw(SeenIn(log), e.req) else SeenIn(log)
  {
    FrontOfAppend(log, e);
  }

  /** Exactly this cost, this seen by then, the session and its latch as before. */
  predicate Step(s: State, s': State, cost: Cost, seen: Seen) {
    && CostOf(s'.log) == Plus(CostOf(s.log), cost)
    && SeenIn(s'.log) == seen
    && s'.auth == s.auth && s'.inCheckin == s.inCheckin && s'.checkinDone == s.checkinDone && s.ticks <= s'.ticks
  }

  lemma OneSend(w: Env, s: State, req: Request, scope: Option<string>)
    ensures Step(s, Dispatch(w, s, req, scope), Cost(1, 0, 0, 0), Saw(SeenIn(s.log), req))
  {
    hide CostOf, SeenIn, Saw;
    OneMore(s.log, Sent(req, scope, Outgoing(w, s, req)));
  }

  /** A reply with both members is the result. */
  lemma AuthorizedBy(w: Env, s: State, epk: string, scope: string, g: Got)
    requires IsB64Of32(epk) && |scope| <= 1023
    requires g == ExtLoginPost(w, ClearError(s), EXT_REQUEST_PATH, Object(ExtFields(epk, scope, None, None)))
    requires g.rc == Ok && g.body.Text("authreq").Some? && g.body.Text("epk").Some?
    ensures ExtRequest(w, s, epk, scope, None, None)
         == ExtReply(Ok, g.body.Text("authreq").value, g.body.Text("epk").value, g.s)
  {
    hide ExtLoginPost, ExtFields, IsB64Of32, Body.Text;
  }

  /** Sends of the session-start check-in, when it is still to be made. */
  function StartSends(s: State): nat {
    if s.checkinDone then 0 else 3
  }

  /** A session is as it was but for its cache. */
  predicate SameLogin(s: State, s': State) {
    && s.auth.Some? && s'.auth.Some? && s'.inCheckin == s.inCheckin
    && s'.auth.value.(cache := map[]) == s.auth.value.(cache := map[])
  }

  /** How the client reads the answer to a poll. */
  lemma CheckReads(w: Env, s: State)
    ensures var a := NotifySend(w, ClearError(s), GET, None, CheckPath("e"), NoBody);
            var c := EventCheck(w, s, None, "e");
            && (a.rc == Ok && a.status == 202 ==> c == Check(Ok, Pending, a.s))
            && (a.rc == Ok && a.status == 200 && a.body == Everything() ==> c == Check(Ok, Approved("r"), a.s))
  {
    hide NotifySend, Everything, Body.Text, NOTIFY_URL, CheckPath;
    Members();
    PathsDiffer();
  }

  lemma PendingPoll(w: Env, s: State, h: Handle)
    requires !h.terminal
    ensures var c := EventCheck(w, s, h.url, h.eventid);
            c.rc == Ok && c.verdict.Pending? ==> ConfirmPoll(w, s, h) == Polled(Ok, false, h, c.s)
  {
    hide EventCheck, ExtToken, CacheSeed;
  }

  lemma PollRc(w: Env, s: State, h: Handle)
    ensures var p := ConfirmPoll(w, s, h); p.approved ==> p.rc == Ok
  {
    hide EventCheck, ExtToken, CacheSeed;
  }

  lemma NothingFresher(w: Env, s: State, s': State, scope: string)
    requires s'.auth == s.auth && s'.ticks == s.ticks
    ensures FreshHit(w, s', scope) == FreshHit(w, s, scope)
  {
  }

  lemma DroppedIsNotFresh(w: Env, s: State, scope: string)
    ensures !FreshHit(w, Invalidate(s, Some(scope)), scope)
  {
  }

  lemma AfterOneCall(w: Env, call: Runs.Call)
    ensures Guarantees.Reached(w, [call]) == Runs.Do(w, Runs.Start(), call).s
  {
    hide Runs.Do;
    assert [call][..0] == [] && [call][0] == call;
    assert Runs.Run(w, Runs.Start(), [call][..0]) == Runs.Start();
  }
}
