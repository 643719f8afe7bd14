# Verified model of the Encedo HEM client core

The client library talks to a hardware security device over HTTPS. Its core is an authenticated
request engine: a request that needs a bearer for a scope takes it from a cache or acquires it, and
on the way recovers from an expired device certificate, an unset or drifting device clock and a
rejected bearer. Each recovery sends requests of its own and may set off others. Around it sit a
push-confirmation state machine that feeds the same cache, the base64 and compact-token codec, the
mnemonic code, the walk over the key repository, the key-type classifier and the random-byte harvest.

This project models that core and proves what it promises for every device behaviour, every clock
and every sequence of calls.

## How it is built

- `Wire.dfy` has the data: requests, outcomes, bodies, the session, and `Env`, a record of total
  functions standing for the device and the cloud (any answer to any request after any history), the
  clock, the JSON reading of a token payload and the key derivation. A statement about an arbitrary
  `Env` is a statement about every device.
- `Engine.dfy` gives each step of the engine as a function from state to state; the lexicographic
  `decreases` clauses over scoped request, acquisition, unscoped request, check-in and in-check-in
  request are the proof that every call terminates. `Context.dfy` is the object the source has,
  updated in place, with the linked token list of `TokenCache.dfy`; each of its methods is proved
  equal to its function. `Engine` functions are therefore specifications: their meaning is in the
  lemmas about them.
- `Ledger.dfy` reads a history: how much was sent and why, whose dispatch it was, where each token
  came from. `Exchange`, `Acquisition`, `Confirmation` and `Requests` prove what one step may do;
  `Runs` closes that over every run from a new context; `Guarantees` states the results.
  `Causes` reads off the history why each login and each check-in was sent, `Push` what a confirmation
  puts on the wire, `Sessions` what a call leaves of the session. `Recoveries` tallies the check-ins of
  one acquisition by reason and `RecoveryLimit` settles when there can be more than one; `EmptyReply`
  settles when a binding that takes an empty 200 for success can be trusted, `SearchMiss` when a search
  that finds nothing can.
- `Devices.dfy` has what the concrete devices share. `WorstCase` is one that reaches the send bounds of
  both modes, `Rejecting` one that reaches those with automatic check-ins off and rejects bearers, each
  deciding only by the requests it has seen; `LongRuns` lets them reach the bounds of a key walk and of
  a random-byte harvest.
- `Sequences.dfy` has the few facts of concatenation the codecs share. `Bits.dfy` treats numbers as bit
  strings. Base64 and BIP39 are both "the same bits cut at another width", and their loops are proved
  against that.
- `Base64`, `CompactToken`, `Bip39`, `KeyType`, `KeyWalk` and `RandomBytes` follow the source's loops
  over buffers and are proved against specifications that do not mention the loops.

Standards followed: RFC 4648 sections 4, 5 and 10, RFC 7515 section 7.1, BIP39 sections "Generating the
mnemonic" and "From mnemonic to seed", and for the sizes in the key-type table FIPS 203 section 8 and
FIPS 204 section 4.

## What the proofs found

- `ehem_verify`, reboot, shutdown and wipeout take the pair (PROTOCOL, HTTP 200) as the device's yes,
  because an empty 200 to the request is reported so. A token acquisition inside the call can fail with
  the same pair: an empty 200 to the login challenge or to the broker session is reported that way too
  (src/proto_common.c:253-257, `EmptyChallenge`, `EmptySession`), and so is a login reply without a token
  (src/proto_auth.c:454-457). The exact condition is one a caller can check before the call: against
  every device, success means that the device said yes, if and only if the session is not mobile and
  holds no passphrase (`VerifyTrustedExactly`, `RestartTrustedExactly`, `WipeoutTrustedExactly`, and
  `TrustedExactly` for any request read that way, key deletion among them). Three calls that go wrong
  after a login: a verify that is OK although the signature was never sent (`VerifyWithoutDispatch`), a
  verify that is OK although the device's only answer to it was a 401 (`VerifyDespiteRejection`), and a
  wipeout that reports success and logs out without the device being asked (`WipeoutWithoutDispatch`).
- A search takes the result NOT_FOUND for "nothing matched" (src/proto_keymgmt.c:869-877). A 404 to the
  login challenge or to the broker ends a token acquisition with the same result, so a search can succeed
  with no keys although the device holds matching ones. Against every device that holds some match, the
  keys of a successful search are all of them if and only if the session is not mobile and holds no
  passphrase (`SearchTrustedExactly`); `SearchWithoutDispatch` is a search after a login that succeeds
  with nothing and was never sent.
- The send bounds are not over-estimates. Each is reached by a request that succeeds: 55
  (`FiftyFiveSends`), 101 and the polls of two waits (`MobileBoundIsReached`), 9 and 13 with automatic
  check-ins off (`NineSends`, `ThirteenSends`), and those of a key walk and a random-byte harvest in
  either setting (`WalkBoundIsReached`, `RandomBoundIsReached`).
- The source speaks of the one recovery check-in of an acquisition (src/proto_auth.c:280-283), but grants
  one to every ext call as well (src/proto_ext.c:336-338). For an acquisition as a whole, against every
  device, that holds if and only if the session is not mobile, or automatic check-ins are off, or one is
  running, or the cached entry is still fresh, or the scope is longer than an ext request takes
  (`AtMostOneExactly`). Otherwise there are up to four, three after a 403 and one on clock drift
  (`RecoveryCheckins`), and `FourRecoveries` is a device that makes it four. `NoneExactly` says when
  there is none at all.
- "Token order cannot matter" holds of key types exactly when at most one family is named
  (`OrderIrrelevantExactly`); swapping two families in a string always changes its class
  (`TwoFamiliesDiffer`).
- A token rejected by the second 401 of a request stays in the cache (`SecondRejectionStaysCached`). The
  next acquisition hands that same token out again, without a send, if and only if it has not expired
  (`RejectedTokenIsReused`), and `RejectedTwice` is a run after a login in which it does.

## Model

| member | source | states |
|---|---|---|
| Guarantees.PassphraseRequestBound | src/proto_common.c:123-266 | In passphrase mode, for every device and after any calls, a scoped request makes at most 55 sends (9 with automatic check-ins off), 52 (6) unless this call makes the session-start check-in, and at most two budgeted check-ins |
| WorstCase.FiftyFiveSends | src/proto_common.c:123-266 | The bound is exact: against a device that decides by the requests it has seen, one request after a login costs 55 sends and succeeds |
| WorstCase.Acquires | src/proto_auth.c:485-610 | Against that device one acquisition costs exactly 23 sends and a budgeted check-in, or in mobile mode 46 sends, the polls of a whole wait, three check-ins after a 403 and one on drift; three sends more when it makes the session-start check-in |
| Guarantees.MobileRequestBound | src/proto_auth.c:520-549 | In mobile mode the bound is 101 (13) sends plus one for each poll of two waits |
| WorstCase.MobileBoundIsReached | src/proto_auth.c:520-549 | For every timeout and poll interval, that device makes one request after a mobile login cost 101 sends and the polls of two waits, and succeed |
| Rejecting.NineSends | src/proto_common.c:123-266 | With automatic check-ins off, one request after a login can make all nine sends |
| Rejecting.ThirteenSends | src/proto_auth.c:520-549 | And one after a mobile login all thirteen, and the polls of two waits |
| Guarantees.OneBudgetedCheckin | src/proto_auth.c:570-599 | In passphrase mode one call of the token chokepoint spends at most one check-in on 403 and drift together, and at most 26 sends (5 with check-ins off) |
| Recoveries.RecoveryCheckins | src/proto_ext.c:341-369 | One call of the chokepoint, in any state: no recovery check-in with automatic ones off, with one running, on a fresh entry, without a credential, or in mobile mode with a scope over 1023 bytes; otherwise at most one on the login budget in passphrase mode, and in mobile mode at most three after a 403 on an ext request and one on broker drift |
| RecoveryLimit.AtMostOneExactly | src/proto_ext.c:640-672 | One call makes at most one recovery check-in against every device if and only if the session is not mobile or one of those conditions holds |
| RecoveryLimit.NoneExactly | src/proto_auth.c:296-318 | It makes none against every device if and only if one of those conditions holds, in either mode |
| WorstCase.FourRecoveries | src/proto_ext.c:640-672 | A mobile acquisition can make all four |
| Requests.EnsureSteps | src/proto_auth.c:485-610 | Every effect a chokepoint call may have, whatever the device does: cost, no own dispatch, a bearer only if one is stored for the scope, and a freshly stored one unless the cache had it |
| Exchange.CheckinQuiet | src/proto_system.c:392-458 | A check-in costs at most three sends, carries no bearer, and leaves session and latches alone |
| Exchange.CheckinShape | src/proto_system.c:405-453 | Its legs are, in order, device GET, cloud POST of the device's body under full verification, device POST of the cloud's body, each sent only if the one before was usable |
| Exchange.RawQuiet | src/proto_common.c:153-209 | An unscoped request costs one send inside a check-in or off the default TLS mode, five at most otherwise |
| Acquisition.PassphraseSteps | src/proto_auth.c:558-599 | A passphrase acquisition costs at most 23 sends (2 with check-ins off) and either changes no session or stores one token just granted by a POST naming the scope |
| Guarantees.AtMostThreeDispatches | src/proto_common.c:153-241 | The caller's request goes out at most three times, unaltered but for bearer and connection, and at known places of the history: the resend for an expired certificate directly behind a check-in whose three legs all completed, the one after a 401 directly behind the storing of its bearer by an acquisition whose token POST, or whose confirmation's beginning, came after that 401 |
| Requests.RetrySteps | src/proto_common.c:211-241 | Dropping the entry leaves no token for the scope, so the retry's bearer is from an acquisition begun since, and there is at most one retry |
| Requests.RecoveringSteps | src/proto_common.c:153-209 | A dispatch is repeated at most once for an expired certificate, on a fresh connection, and then the history between the two is exactly one certificate check-in that completed |
| Guarantees.BearerProvenance | src/proto_common.c:141-151 | Every Authorization header sent for a scope carries the token stored last under exactly that scope, and since the last login; it came from a token POST naming the scope, a confirmation begun for it that a broker poll for its event came back approved, or a seed |
| Guarantees.NoStrayBearer | src/proto_common.c:138-151 | A dispatch without a scope never carries a bearer |
| Guarantees.ContextBetweenCalls | src/proto_auth.c:657-731 | Between any calls: no check-in in progress, no passphrase in mobile mode, at most one session-start check-in ever, every cached bearer stored under its own scope |
| Guarantees.LatchesStay | src/context.c:264-267 | The refreshed-certificate and check-in-done latches and the history never go back |
| Guarantees.UnretainedCredential | src/proto_auth.c:471-478 | Without retention at most one acquisition completes between logins, and after it a scope without a fresh entry is AUTH_EXPIRED with no send |
| Guarantees.HitIsSilent | src/proto_auth.c:503-510 | After any calls a fresh entry is handed out with no send and no change of the session, and it is the token stored last under that scope, since the last login, by a token POST naming it, an approved confirmation or a seed |
| Guarantees.LoggedOutIsSilent | src/proto_auth.c:740-749 | From a logout on, any sequence of calls that need a bearer sends nothing at all |
| Guarantees.TokenIsCached | src/proto_auth.c:485-610 | A token handed out, by whatever way it was come by, is the cache's entry for its scope |
| Guarantees.SecondRejectionStaysCached | src/proto_common.c:211-241 | The bearer of the dispatch after a 401 is still the cache's entry when that dispatch is answered, whatever the answer |
| Guarantees.HandedOutExactly | src/proto_auth.c:503-510 | In every state that keeps the invariant, a token is handed out with nothing added to the history exactly when the cached entry is fresh |
| Guarantees.ReusedWhileValid | src/proto_auth.c:454-510 | After any calls a cached token is handed out without a send exactly while more than 60 seconds are left of the expiry it claims itself, or, if it claims none, while 3600 seconds less 60 are not over since an earlier reading of the clock |
| Causes.EveryLogin | src/proto_auth.c:345-479 | In every run each login POST comes right behind a challenge reply (or is its one resend behind a completed certificate check-in); its claims have the challenge's jti, the device key as audience, iat a clock reading made in the very call, exp an hour later, and issuer and key derived from the salt, that 32-byte key and the passphrase of the last login before the call; after a logout there is none |
| Causes.HeldPassphrase | src/proto_auth.c:657-749 | After any calls a held passphrase is that of the last login, and there is none after a logout or a mobile login |
| Causes.RejectedReadsAgain | src/proto_auth.c:584-588 | In one acquisition a login sent after a rejected one is dated by a clock reading made since the acquisition began |
| Causes.EveryCheckin | src/proto_auth.c:286-318 | In every run each check-in has its cause: a context set to check in at login, an explicit call, or, right before it in the history, a send that met an expired certificate, a 403 to a challenge or ext request, a login refused 401 whose challenge deadline, less a minute, is over a minute off its date, or a push refused 401 whose request is dated over 2 seconds ahead of or 15 behind a clock reading |
| Causes.DriftIsRecovered | src/proto_auth.c:573-599 | Conversely, with automatic check-ins on, an acquisition ends with a login refused on clock drift only if it has used its check-in |
| Causes.PushRetriedExactly | src/proto_ext.c:640-672 | A refused push is followed by a check-in exactly when its request's date is that far off the clock |
| Sessions.LoginForgets | src/proto_auth.c:657-749 | A login of either mode, and a logout, leave no cached token for any scope; the next one handed out was acquired since |
| Sessions.RequestKeeps | src/proto_common.c:211-241 | A request, rejected and retried or not, leaves the cached token of every other scope as it was |
| Sessions.JsonEnding | src/proto_common.c:243-297 | Where an object is wanted: a 2xx without a body is PROTOCOL with its status, one with other text PROTOCOL with none, an object is handed over as it came |
| Requests.RequestSteps | src/proto_common.c:123-266 | How a request ends: in one of its two acquisitions with that one's result; without a reply as its last send failed, or as the first did when the resend met an expired certificate again, the record saying so; or with the status of the last reply, 401, 403, 404 and the others from 400 each its own result |
| Requests.ScopedReply | src/proto_common.c:243-297 | A body returned is the one the device answered to the newest event, a dispatch of this very request |
| Guarantees.RejectedTokenIsReused | src/proto_common.c:211-241 | After any calls and a request whose retry under a new token is rejected too: the next acquisition hands a token out without a send exactly when the entry has not expired, and then it is the rejected one |
| Rejecting.RejectedTwice | src/proto_common.c:211-241 | Such a run: after a login, against a device that grants every login and answers 401 to every bearer, a request ends AUTH_FAILED, its last dispatch carried the token still cached and fresh, and the next acquisition returns it with the history unchanged |
| Guarantees.ConfirmationSingleUse | src/proto_ext.c:693-744 | Over any run an authreply is redeemed at most once, never after a denial, only after an approval |
| Guarantees.FinishedHandleIsSilent | src/proto_ext.c:693-710 | A terminal handle makes no further send, polled or waited on, and stays terminal |
| Guarantees.WaitIsBounded | src/proto_ext.c:746-779 | A wait sleeps at most its timeout; on CONFIRM_TIMEOUT it has slept exactly that, polled exactly Polls times and the handle is still good |
| Confirmation.PollsIsCeiling | src/proto_ext.c:746-779 | Polls is the timeout divided by the interval, rounded up, plus one |
| Guarantees.ConfirmedMeansCached | src/proto_auth.c:532-548 | In every state that keeps the invariant, so also after a 401 inside a request: mobile acquisition ends as its wait did, and on success hands out the bearer that wait has just cached; the branch for "confirmed but nothing cached" is never taken |
| Confirmation.PollSteps | src/proto_ext.c:693-744 | One poll: the handle is finished exactly when a conclusive answer was recorded, so a pending or failed check leaves it usable; a success has cached a bearer under the scope it was begun for, and anything else leaves the session alone |
| Confirmation.CheckAnswer | src/proto_notify.c:436-517 | A denial or approval reported is on record as a broker reply to a check of this event that says so |
| Confirmation.CheckVerdict | src/proto_notify.c:436-517 | Both ways, from the outcome of the one GET: 202 is pending; any other 2xx object with `deny` is a denial; one without it and with a text `authreply` an approval with that text; any other 2xx is PROTOCOL; other statuses and failures are their own result |
| Confirmation.PollVerdict | src/proto_ext.c:693-744 | From the same outcome, for a poll: a denial finishes the handle as USER_REJECTED and redeems nothing, an approval finishes it and is redeemed, anything else leaves it usable |
| Confirmation.WaitEndsAsPoll | src/proto_ext.c:746-779 | A wait whose first poll does not leave it pending ends as that poll did |
| Push.BeginStory | src/proto_ext.c:591-691 | A confirmation begun leaves this story: a broker session gave a key, the device was asked with exactly that key, the scope, and context and note where given, the broker took the device's request together with the device's key, and the handle has this broker, scope and the event the broker named |
| Push.AskedExactly | src/proto_ext.c:371-405 | The device is asked exactly when the key is base64 of 32 bytes in 43 to 46 characters, the scope has at most 1023, a context 1 to 64 and a note 1 to 128; otherwise ARG and nothing is sent |
| Push.RedemptionVerdict | src/proto_ext.c:455-516 | A redemption is AUTH_FAILED exactly when the device answered it 401 or 406, with that status kept; an empty authreply is ARG and nothing is sent |
| Push.RequestMembers | src/proto_ext.c:59-70 | A device reply without a text `authreq` or `epk` is PROTOCOL with status 200 |
| Push.TokenMember | src/proto_ext.c:59-70 | So is a redemption's without a text `token` |
| Push.BrokerMembers | src/proto_notify.c:43-55 | And a broker's without `epk` or `eventid` |
| EmptyReply.SuccessExactly | src/proto_crypto.c:312-331 | For any request read by the empty-200 convention: success exactly when the last own dispatch got an empty 200 or a 2xx with a body, or one of the call's own two acquisitions, the first and the one after a 401, failed with (PROTOCOL, 200); never both |
| EmptyReply.TrustedExactly | src/proto_crypto.c:312-331 | For any such request: success means that the device said yes, and conversely, against every device if and only if the session is not mobile and has no passphrase |
| EmptyReply.VerifyTrustedExactly | src/proto_crypto.c:312-331 | The same of signature verification |
| EmptyReply.RestartTrustedExactly | src/proto_system.c:736-764 | The same of reboot and shutdown |
| EmptyReply.WipeoutTrustedExactly | src/proto_system.c:770-804 | The same of wipeout |
| EmptyReply.VerifyWithoutDispatch | src/proto_crypto.c:312-331 | After a login, a device against which verify is OK and the signature was never sent |
| EmptyReply.VerifyDespiteRejection | src/proto_common.c:211-241 | With a token in the cache besides, verify is OK although its one dispatch was answered 401 |
| EmptyReply.WipeoutWithoutDispatch | src/proto_system.c:770-804 | After a login, a device against which wipeout succeeds and logs out with nothing dispatched |
| EmptyReply.EmptyChallenge | src/proto_common.c:253-257 | An empty 200 to the challenge request alone makes a passphrase acquisition fail with (PROTOCOL, 200) |
| EmptyReply.EmptySession | src/proto_ext.c:591-613 | An empty 200 to the broker session alone makes a mobile acquisition fail with the same pair |
| SearchMiss.SearchTrustedExactly | src/proto_keymgmt.c:836-887 | Against every device that holds a match, a search that succeeds has all matches, if and only if the session is not mobile and has no passphrase |
| SearchMiss.SearchWithoutDispatch | src/proto_keymgmt.c:869-877 | After a login, a device that holds matches against which the search succeeds with none and was never sent |
| Sessions.RestartForgets | src/proto_system.c:736-764 | A restart taken for done drops the tokens of all scopes, keeps the login and leaves no error; any other ends as its request did |
| Sessions.SuccessClears | src/proto_system.c:770-804 | A wipeout taken for done drops the session, a signature taken for good does not touch it, and neither leaves an error |
| Sessions.BindingsAsk | src/proto_crypto.c:306-331 | Verification, restart and wipeout dispatch their own request under their own scope, at most three times, and no other |
| Runs.RunKeeps | src/proto_auth.c:485-610 | The invariant of context and handles holds after every sequence of calls: sessions, requests, bindings, check-ins, seeds, ext and broker calls, confirmations |
| Engine.RequestRaw | src/proto_common.c:123-266 | On every path the in-check-in guard is as before the call, and an unscoped request leaves session and latch alone |
| Engine.CheckinRun | src/proto_system.c:392-458 | Every way out clears the guard and leaves the session alone |
| Engine.AcquireToken | src/proto_auth.c:345-479 | A failed acquisition leaves the session as it was |
| Context.Context.RequestRaw | src/proto_common.c:123-266 | The request path on the object computes `Engine.RequestRaw`: result, body and whole new state |
| Context.Context.DispatchRecovering | src/proto_common.c:153-209 | Certificate recovery on the object, in place |
| Context.Context.RetryRejected | src/proto_common.c:211-241 | The 401 retry on the object, in place |
| Context.Context.RequestJson | src/proto_common.c:268-297 | Computes `Engine.RequestJson`: what a body that is no object comes to is `Sessions.JsonEnding` |
| Context.Context.CheckinRun | src/proto_system.c:392-458 | The three legs with the guard set and cleared |
| Context.Context.FetchChallenge | src/proto_auth.c:286-318 | The challenge with its 403 recovery and the spent flag |
| Context.Context.AcquireToken | src/proto_auth.c:345-479 | One exchange on the object computes `Engine.AcquireToken`; its claims are those of `Causes.EveryLogin` |
| Context.Context.PassphraseToken | src/proto_auth.c:558-599 | Acquisition with clock-drift recovery |
| Context.Context.EnsureToken | src/proto_auth.c:485-610 | Fresh hit, mobile, no credential, or passphrase |
| Context.Context.MobileToken | src/proto_auth.c:520-549 | Session-start check-in, confirmation, cache look-up |
| Context.Context.ProactiveCheckin | src/proto_auth.c:558-568 | The latch is set before the check-in, whose outcome is ignored |
| Context.Context.Login | src/proto_auth.c:657-697 | A login on the object clears the linked list of tokens, stores the passphrase and leaves mobile mode |
| Context.Context.LoginMobile | src/proto_auth.c:705-731 | A mobile login clears cache and passphrase |
| Context.Context.Logout | src/proto_auth.c:740-749 | A logout drops the session |
| Context.Context.Invalidate | src/proto_auth.c:612-640 | One scope's entry, or all |
| Context.Context.CacheSeed | src/proto_auth.c:228-252 | A bearer from outside enters the cache of the object; its expiry is that of `Guarantees.ReusedWhileValid` |
| Context.Context.NotifySend | src/proto_notify.c:65-142 | A broker exchange: no bearer, full verification |
| Context.Context.EventCheck | src/proto_notify.c:436-517 | The check on the object computes `Engine.EventCheck`, whose verdicts are those of `Confirmation.CheckVerdict` |
| Context.Context.ExtLoginPost | src/proto_ext.c:341-369 | An unauthenticated POST with its 403 recovery |
| Context.Context.ExtRequest | src/proto_ext.c:371-443 | The device request on the object; what is refused is `Push.AskedExactly` |
| Context.Context.ExtToken | src/proto_ext.c:455-516 | The redemption on the object; its failures are those of `Push.RedemptionVerdict` |
| Context.Context.FirePush | src/proto_ext.c:591-613 | Broker session, device request, broker event on the object; what they carry is `Push.BeginStory` |
| Context.Context.PushRecovering | src/proto_ext.c:640-672 | A push refused on drift is fired once more after a check-in |
| Context.Context.ConfirmBegin | src/proto_ext.c:615-691 | A handle exists exactly on success |
| Context.Context.ConfirmPoll | src/proto_ext.c:693-744 | The poll on the handle object, in place |
| Context.Context.ConfirmWait | src/proto_ext.c:746-779 | The timed loop computes `Engine.ConfirmWait` |
| Context.Context.VerifySignature | src/proto_crypto.c:306-331 | The empty-200 convention |
| Context.Context.Restart | src/proto_system.c:736-764 | Reboot and shutdown drop every cached token on success |
| Context.Context.Wipeout | src/proto_system.c:770-804 | Wipeout logs out on success |
| Context.Context.Encrypt | src/proto_crypto.c:827-910 | One encrypt call on the object computes `Engine.Encrypt`, whose IV is that of `RandomBytes.EncryptReads` |
| TokenCache.Auth.Find | src/proto_auth.c:117-126 | Finds the entry of a scope exactly when the map has the scope, with the map's token and expiry |
| TokenCache.Auth.Put | src/proto_auth.c:147-181 | The list's map is updated at the scope and nowhere else; list stays acyclic with distinct scopes |
| TokenCache.Auth.Remove | src/proto_auth.c:612-640 | Unlinking the first match removes the scope from the map and nothing else |
| TokenCache.Auth.Clear | src/proto_auth.c:128-143 | Empties the map |
| TokenCache.AsMapRemove | src/proto_auth.c:612-640 | Taking one entry out of a list of distinct scopes takes its scope out of the map |
| TokenCache.AsMapReplace | src/proto_auth.c:147-181 | Overwriting one entry of such a list overwrites its scope in the map |
| Base64.RoundTrip | src/ejwt.c:40-117 | For either alphabet, every byte string and every capacity that holds it, decoding its encoding gives it back |
| Base64.DecodedBits | src/ejwt.c:78-117 | What a decodable text decodes to is the text's bits cut in eights |
| Base64.EncodedLength | src/ejwt.c:29-38 | The length functions give the length of the encoding |
| Base64.DecodesExactly | src/ejwt.c:78-117 | For a text split before its trailing pad characters: decodable exactly when the rest is letters of the variant, not one over a multiple of four, and three quarters of its length fit; that is the length of the result |
| Base64.FoobarVectors | src/ejwt.c:40-76 | The test vectors of RFC 4648 section 10 |
| Base64.AlphabetVectors | src/ejwt.c:40-76 | Texts of both variants with the two letters they differ in |
| Base64.B64Encode | src/ejwt.c:40-76 | The three-byte-group loop writes the encoding and its terminator, or nothing when the buffer is short |
| Base64.B64Decode | src/ejwt.c:78-117 | The streaming loop with its 32-bit accumulator succeeds exactly on texts whose length, padding off, is not 1 mod 4, in the alphabet and within floor(3n/4) of capacity, and then computes that decoding |
| Base64.WrapKeepsLowBits | src/ejwt.c:98-115 | Wrapping at 32 bits never reaches a bit still to be emitted |
| CompactToken.SignCompact | src/ejwt.c:144-196 | The writer succeeds exactly for headers that fit their segment; its text, up to the NUL, is cut at its two dots into segments that decode to the header, the payload, and the MAC of everything before the second dot |
| CompactToken.CompactIsSigned | src/ejwt.c:167-196 | The same of the specification, for every header and payload |
| CompactToken.BufferLimits | src/ejwt.c:144-165 | In bytes: a header fits up to 191, and a signed payload is readable by the fixed buffer from 1 to 768 |
| CompactToken.SignedPayloadIsRead | src/proto_auth.c:186-217 | Every reader of the middle segment sees the signed payload: fixed-buffer ones exactly when its segment fits, the harvesting one always |
| CompactToken.MiddleOfCompact | src/proto_ext.c:558-585 | Cutting at the first two dots gives the payload segment |
| CompactToken.Peek | src/proto_ext.c:558-585 | The reader over a stack buffer |
| CompactToken.SigningInputIsInjective | src/ejwt.c:167-181 | The signed text determines header and payload |
| Bip39.WordIndex | src/bip39.c:29-49 | The prefix-aware binary search returns the index of exactly the given word, or -1 when the list lacks it |
| Bip39.ComparesWords | src/bip39.c:35-38 | What the bounded comparison says of a word that is a prefix or an extension of a list word |
| Bip39.FromEntropy | src/bip39.c:58-94 | The joined words of the entropy and its checksum, never past the 216-byte buffer, the rest untouched; ARG on a shorter one |
| Bip39.JoinFits | src/bip39.h:26 | Nine bytes a word suffice, and are needed when every word has eight letters |
| Bip39.ToMasterSecret | src/bip39.c:107-205 | OK exactly on accepted word sequences; the secret is then hex(seed)[1..65), otherwise untouched; it depends on the words only |
| Bip39.SecretBytes | src/bip39.c:182-203 | Each secret byte is the low half of one byte and the high half of the next of PBKDF2 of the single-spaced words with salt "mnemonic" and 2048 rounds |
| Bip39.Shift | src/bip39.c:191-193 | The nibble-shift loop writes the bytes that hex(seed)[1..65) spells |
| Bip39.PackIndex | src/bip39.c:159-164 | Eleven bits appended across byte boundaries, no other bit touched |
| Bip39.ReadIndex | src/bip39.c:77-81 | Eleven bits read across byte boundaries |
| Bip39.MnemonicRoundTrip | src/bip39.c:58-205 | Every generated mnemonic splits into its words and is accepted |
| Bip39.WordsPack | src/bip39.c:58-205 | Its packed bits are the entropy followed by the checksum byte |
| Bip39.AcceptedIsGenerated | src/bip39.c:107-180 | The accepted word sequences are exactly the generated ones |
| Bip39.MnemonicIsInjective | src/bip39.c:58-94 | Different entropies have different mnemonics |
| Bip39.SplitJoin | src/bip39.c:125-143 | Splitting on white space undoes joining by single spaces |
| KeyType.Parse | src/keytype.c:88-142 | The token walk computes the classification of the comma-separated tokens, whose fields `SizesOfFamily`, `SizesWithoutFamily` and `FlagsByName` give one by one |
| KeyType.SizesOfFamily | src/keytype.c:134-139 | A string that names one family has that row's public key length, signature maximum and DER flag |
| KeyType.SizesWithoutFamily | src/keytype.c:124-139 | One that names none is a certificate or DER key if its roles say so, and has no sizes |
| KeyType.FlagsByName | src/keytype.c:92-107 | Each mode and role is set exactly when its token is there |
| KeyType.LatticeSizes | src/keytype.c:34-61 | The table's post-quantum rows by token, with the sizes of FIPS 203 and FIPS 204 |
| KeyType.CurveSizes | src/keytype.c:34-61 | Its elliptic-curve rows by token, with sizes from the field length |
| KeyType.OrderIrrelevant | src/keytype.c:126-130 | With at most one family named, order, repetition and unknown tokens change nothing |
| KeyType.OrderIrrelevantExactly | src/keytype.c:126-130 | All reorderings classify alike if and only if at most one distinct family token is there |
| KeyType.TypeStringsAgree | src/keytype.c:88-142 | The same of whole comma-joined strings |
| KeyType.FirstDecides | src/keytype.c:114-121 | A family named first is the family, whatever is named after it |
| KeyType.TwoFamiliesDiffer | src/keytype.c:114-121 | For any two different family tokens t and u, the string "t,u" is of the family t names and "u,t" of the family u names, and these differ |
| KeyType.FamilyRoundTrip | src/keytype.c:144-148 | A family's name classifies as that family, for all 25 |
| KeyWalk.StableWalk | src/proto_keymgmt.c:301-350 | Against pages that are non-empty slices at the offset fetched, of any length, a walk succeeds exactly when none of its page requests failed, and then returns the whole in order; `RepositoryWalk` is the same of a device |
| KeyWalk.RepositoryWalk | src/proto_keymgmt.c:301-350 | The same from what the device does alone: if it answers a GET whose path reads, digit by digit, as an offset and a limit with a slice at that offset, listing returns its keys whole and in order exactly when no page request failed |
| KeyWalk.AsksFor | src/proto_keymgmt.c:836-887 | A page came as the answer to a request that reads as this offset and a limit of ten, in list and search |
| KeyWalk.ListPathReads | src/proto_keymgmt.c:248-257 | A list path reads back as its offset and limit, what is left out being nought |
| KeyWalk.PageVerdict | src/proto_keymgmt.c:836-887 | The device's last answer decides: an object that parses is the page, one that does not is PROTOCOL with status 200 |
| KeyWalk.WalkEnds | src/proto_keymgmt.c:301-350 | A walk ends with the result and in the state of its last page request, every one before it having succeeded |
| KeyWalk.WalkIsBounded | src/proto_keymgmt.c:338-350 | With reported totals at most B the walk ends within max(1, B) requests, whatever the pages hold |
| KeyWalk.BoundIsReached | src/proto_keymgmt.c:338-350 | A successful walk with one entry a page takes exactly that many |
| KeyWalk.WalkSendBound | src/proto_keymgmt.c:301-350 | In sends, in passphrase mode: 52 (6) for each request, and three for the session-start check-in |
| LongRuns.WalkBoundIsReached | src/proto_keymgmt.c:301-350 | Both bounds at once: for every total, a walk after a login that succeeds, one entry a page, at 52 sends a request and three (6 with automatic check-ins off) |
| KeyWalk.ListAll | src/proto_keymgmt.c:301-350 | The loop over an accumulating page computes the walk that `RepositoryWalk` is about |
| KeyWalk.SearchAll | src/proto_keymgmt.c:926-976 | The search walk, a 404 counting as an empty page |
| KeyWalk.KeyPage.Append | src/proto_keymgmt.c:276-295 | Entries move to the end of the accumulator and leave their page |
| KeyWalk.DescrIsInjective | src/proto_keymgmt.c:807-834 | The anchored search text determines mode and pattern |
| KeyWalk.DescrSelects | src/proto_keymgmt.c:807-834 | Read with `^` as a beginning and `$` as an end, the text selects exactly the names that begin with, end with or contain the pattern |
| KeyWalk.BuildSearchDescr | src/proto_keymgmt.c:807-834 | Built within its buffer, terminated |
| RandomBytes.Random | src/proto_crypto.c:1700-1747 | The loop over the buffer meets `Filled`, which `HarvestedExactly`, `HarvestedFromReplies` and `NoPartialEntropy` read |
| RandomBytes.HarvestedExactly | src/proto_crypto.c:1700-1718 | A harvest is made exactly for a key id of 32 hexadecimal digits and at least one byte; otherwise ARG, nothing sent, buffer as it was |
| RandomBytes.EncryptReads | src/proto_crypto.c:827-910 | Against the reply of the one encrypt call: OK exactly when ciphertext, `iv` and `tag` are well formed; the IV is what `iv` decodes to, and there is none exactly when that is lacking |
| RandomBytes.HarvestedFromReplies | src/proto_crypto.c:1720-1747 | A filled buffer starts with the `iv` members of ceil(len/16) encrypt replies on record in the history, in order |
| RandomBytes.HarvestCalls | src/proto_crypto.c:1720-1745 | Success takes exactly one call per 16 bytes begun, failure no more |
| RandomBytes.NoPartialEntropy | src/proto_crypto.c:1727-1735 | On failure no byte from the device stays in the buffer |
| RandomBytes.RandomBound | src/proto_crypto.c:1720-1745 | In passphrase mode, at most 52 (6) sends for each 16 bytes begun, and three for the session-start check-in |
| LongRuns.RandomBoundIsReached | src/proto_crypto.c:1720-1745 | For every length, a harvest after a login that succeeds at exactly that cost, in either setting |

## Left out

- Error message text and the breadcrumb a failed session-start check-in leaves in it; only the return
  code, HTTP status and TLS-expired flag are kept, which is what recovery reads.
- NULL arguments, allocation failure, freeing and zeroising of buffers; a scrubbed passphrase is an
  absent one.
- Transport and TLS (libcurl), the crypto backends and global initialisation: the device, SHA-256,
  HMAC, PBKDF2 and the login key derivation are arbitrary total functions. A transport is taken to
  fail as the library's own does, with NETWORK, UNREACHABLE, NOMEM or ARG.
- JSON text: bodies are parsed records. The login token inside the token POST is kept as the claims it
  carries; its signing is `CompactToken.SignCompact`.
- Overflow of 64-bit timestamps; request pacing and real sleeping (sleeps are events of the history);
  the confirmation notice callback and the username label of a push.
- Argument checks and body building of the other endpoint bindings; a binding is its request
  (`Runs.DoRequest`). The checks of `ehem_verify` and `ehem_encrypt` on message and signature sizes
  are among them.
- The result records of a check-in (harvested certificate serial, configuration fields) and
  `ehem_tls_recover`.
- What the registration calls of the broker make of its replies; as `Runs.DoBroker` they are their one
  broker exchange. A change of options between calls: one run has one set of options.
- `ehem_device_init` before its final login and cache seed; the mnemonic wrappers in src/proto_auth.c,
  which only call the modelled functions.
- Firmware behaviour: assumed only where a statement says so (`KeyWalk.Holds`, `KeyWalk.Stable`).
- Causes.EveryLogin: is about runs in which the client does not itself ask for an unscoped POST of the
  token endpoint, which no binding does; the same holds of `Causes.EveryCheckin`.
- The vendored word list: `Bip39.IsWordList` is what is assumed of it.
- EmptyReply.TrustedExactly: that success always means the device said yes is false of the code, so the
  statement is the condition under which it is true, with the inputs that refute it otherwise.
- KeyWalk.StableWalk: is about walks that succeed; a failing request ends the walk with its error and
  no page.
