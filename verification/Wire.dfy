/**
 What the client puts on the wire and keeps between calls. The device, the cloud, the clock and the
 cryptography are the fields of `Env`: arbitrary total functions, so every statement about an
 `Env` is a statement about every device behaviour.
 */
module Wire {
  import opened Bits
  import opened Options

  datatype Rc =
    | Ok | Network | Unreachable | AuthExpired | AuthFailed | ScopeDenied | UserRejected
    | ConfirmTimeout | NotFound | Device | Protocol | Arg | NoMem | Unsupported | BackendMismatch

  /** What a transport may report instead of a reply. */
  predicate TransportRc(rc: Rc) {
    rc == Network || rc == Unreachable || rc == NoMem || rc == Arg
  }

  type Failure = rc: Rc | TransportRc(rc) witness Network

  /** The claims of the login token; `key` is the shared secret it is signed with. */
  datatype Claims = Claims(jti: string, aud: string, exp: int, iat: int, iss: string, scope: string, key: string)

  /** A JSON member, already parsed. `Signed` is a login token, kept as the claims it carries. */
  datatype Field = Str(text: string) | Num(n: int) | Signed(claims: Claims) | Other

  /** A message body: absent or empty, not a JSON object, or an object. */
  datatype Body = NoBody | Malformed(text: string) | Object(fields: map<string, Field>) {
    function Text(key: string): Option<string> {
      if Object? && key in fields && fields[key].Str? then Some(fields[key].text) else None
    }

    function Number(key: string): Option<int> {
      if Object? && key in fields && fields[key].Num? then Some(fields[key].n) else None
    }
  }

  datatype Method = GET | POST | PUT | DELETE | PATCH

  /** Per-request TLS handling: the context's mode, no verification, or full verification. */
  datatype Tls = Default | Relax | Verify

  datatype Request = Request(
    verb: Method, path: string, body: Body, bearer: Option<string>, tls: Tls, renew: bool)

  /** A send fails below HTTP (perhaps on an expired certificate) or gets a reply. */
  datatype Outcome = Failed(rc: Failure, expired: bool) | Reply(status: int, body: Body) {
    predicate Success() {
      Reply? && 200 <= status < 300
    }
  }

  /** Why a check-in ran. */
  datatype Reason = Proactive | Budgeted | CertRecovery | ExtRecovery | BrokerDrift | Explicit

  /** How a token came to be stored. */
  datatype Source = ByPost | ByConfirm(handle: nat) | BySeed

  /** The history of a context, oldest first. `Sent.scope` is the scope the binding asked for. */
  datatype Event =
    | Sent(req: Request, scope: Option<string>, out: Outcome)
    | Stored(key: string, token: string, source: Source)
    | CheckinBegan(why: Reason)
    | LoggedIn
    | Begun(handle: nat, key: string, eventid: string)
    | Answered(handle: nat, reply: Option<string>)
    | Redeemed(handle: nat)
    | Slept(ms: nat)

  type History = seq<Event>

  datatype Derived = Derived(iss: string, shared: string)

  type Millis = n: int | 0 < n witness 1

  datatype Env = Env(
    noAutoCheckin: bool,
    checkinOnLogin: bool,
    noRetention: bool,
    confirmTimeout: Millis,
    pollInterval: Millis,
    checkinUrl: string,
    device: (History, Request) -> Outcome,
    clock: nat -> int,
    json: seq<byte> -> Body,
    derive: (string, string, string) -> Option<Derived>)

  /** A cached token and the instant from which it counts as expired. */
  datatype Bearer = Bearer(token: string, exp: int)

  datatype Session = Session(passphrase: Option<string>, retain: bool, mobile: bool, cache: map<string, Bearer>)

  datatype Error = Error(status: int, tlsExpired: bool)

  datatype State = State(
    auth: Option<Session>,
    inCheckin: bool,
    certRefreshed: bool,
    checkinDone: bool,
    err: Error,
    log: History,
    ticks: nat)

  /** A pollable confirmation, as begun for one scope. */
  datatype Handle = Handle(id: nat, url: Option<string>, scope: string, eventid: string, terminal: bool)
}
