# Gosling handshake core in Dafny

Gosling lets two parties, each known only by an ed25519 identity and the v3 onion service id
derived from it, authenticate each other over Tor. It then hands the client a private endpoint
onion service on which channels can be opened. This project models the core of the Rust
implementation and proves properties of that model:

- the client proof that both handshakes sign (`build_client_proof`, with its domain separators
  and lower-case hex cookies);
- the identity handshake: the `IdentityClient` and `IdentityServer` state machines of
  `src/gosling.rs`, driven by BSON-RPC calls, and (module `IdentityHandshake`) the server's
  challenge reply as the client reads it;
- the endpoint handshake: `EndpointClient` and the older `EndpointServer` in `src/gosling.rs`,
  plus the newer `EndpointServer` of the `gosling` crate, which adds a channel-request step;
- the `Context` that owns every session under a numeric handshake handle, accepts connections,
  consumes Tor events and steps every session once per `update`;
- the legacy Tor provider in `tor_manager.rs`: its `update` (inactive onion services are removed,
  asynchronous events are translated, log lines are appended), the minimum-version gate, `connect`,
  `listener`, and the listener's `Drop`.

Each state machine has the same shape:

- a pure `Config` datatype holds the fields that never change;
- a pure `Fields` datatype holds the fields the source reassigns;
- pure step functions state what one call does;
- a class with the source's fields has methods that mirror the source's `match`es, and each
  method is proved equal to its step function (`Settings()` and `Snapshot()` give the class as
  values).

The properties are lemmas over the step functions:

- invariants that each step preserves;
- single-call facts: errors, refusals, verdicts;
- whole-run facts, proved by induction over any sequence of calls: events come in protocol order,
  at most one terminal event is reported, and it comes last.

The cryptography is an oracle value of total functions (`Types.Crypto`): key derivation,
signing, verification and the service-id checksum. The RPC transport, sockets, the Tor
controller and the random number generator are inputs to the operations that use them.

Where the documented design and the code differ, the model follows the code:

- `endpoint_server_start` replaces an existing endpoint with the same service id instead of
  refusing it (`GoslingContext.EndpointServerStartStep`).
- `endpoint_server_handle_channel_request_received` always fails.
- The source spells the endpoint-client failure event `EndointClientHandshakeFailed`; the model
  calls it `EndpointClientHandshakeFailed`.
- `endpoint_client_begin_handshake` does not return the handle of the session it files.
- `IdentityServerHandshakeStarted` and `EndpointServerHandshakeStarted` exist as events but are
  never emitted.

## Model

| member | source | states |
|---|---|---|
| Types.AsciiBytes | source/gosling/src/gosling.rs:74-80 | the bytes of an ASCII string are its characters' codes, one byte per character |
| Types.AsciiChars | source/gosling/crates/gosling/src/endpoint_server.rs:329-332 | bytes below 128 read back as an ASCII string whose bytes are exactly those bytes |
| Types.ServiceIdIsAscii | source/gosling/src/gosling.rs:82-84 | a service id's text is ASCII with no NUL byte, so it cannot break the NUL-separated proof layout |
| Types.ServiceIdBytes | source/gosling/src/gosling.rs:82-84 | a service id always encodes to exactly 56 bytes |
| Types.ServiceIdFromString | source/gosling/src/gosling.rs:691-694 | parsing succeeds iff the text is 56 base32 characters and the checksum and version check accepts it, and then returns that text |
| Types.CheckResponse | source/gosling/src/gosling.rs:187-206 | a response fails iff its cookie is not the awaited one or it is an error; it yields a result iff the cookie matches and it succeeded |
| ClientProof.SeparatorText | source/gosling/src/gosling.rs:59-66 | each domain separator is 16 ASCII characters |
| ClientProof.SeparatorBytes | source/gosling/src/gosling.rs:59-66 | each separator is 16 bytes |
| ClientProof.ParseSeparator | source/gosling/src/gosling.rs:59-66 | a recognised separator is one whose bytes are exactly the input |
| ClientProof.ParseSeparatorInverse | source/gosling/src/gosling.rs:59-66 | each separator's bytes are recognised as that separator, so the two separators differ |
| ClientProof.HexDigit | source/gosling/src/gosling.rs:86-88 | every nibble maps to a lower-case hex digit |
| ClientProof.HexValue | source/gosling/src/gosling.rs:86-88 | every lower-case hex digit has a nibble value that maps back to it |
| ClientProof.HexLower | source/gosling/src/gosling.rs:86-88 | the encoding is twice as long as its input and holds only lower-case hex digits |
| ClientProof.HexDecode | source/gosling/src/gosling.rs:86-88 | a successful decode is half as long as its input |
| ClientProof.HexRoundTrip | source/gosling/src/gosling.rs:86-88 | decoding the lower-case hex encoding of any bytes gives those bytes back |
| ClientProof.AsciiCharsOfBytes | source/gosling/src/gosling.rs:80 | an ASCII request's bytes are all ASCII and read back as the request |
| ClientProof.ParseProofBytes | source/gosling/src/gosling.rs:76-90 | the proof layout has a fixed-size prefix and suffix around the request, and parsing it gives back every part |
| ClientProof.BuildClientProof | source/gosling/src/gosling.rs:68-91 | building fails iff the request is not ASCII, with that error; otherwise the proof has the fixed layout's length and parses back to its parts |
| ClientProof.ProofBytesInjective | source/gosling/src/gosling.rs:76-90 | two proofs with the same bytes have the same separator, request, identities and cookies |
| ClientProof.DomainSeparation | source/gosling/src/gosling.rs:59-78 | an identity-handshake proof never equals an endpoint-handshake proof, so one signature cannot be replayed in the other handshake |
| IdentityClient.UpdateStep | source/gosling/src/gosling.rs:165-318 | a finished client refuses to update; a failed RPC update is an error that changes nothing; the state advances by at most one step, and a call is made only on an advance |
| IdentityClient.SendResponseStep | source/gosling/src/gosling.rs:320-324 | the challenge response is stored iff the client waits for it; otherwise nothing changes |
| IdentityClient.UpdateKeepsValid | source/gosling/src/gosling.rs:173-315 | from a consistent state the `unexpected state` arm is never reached, and a successful update keeps the state consistent |
| IdentityClient.UpdateEvents | source/gosling/src/gosling.rs:173-318 | an event is reported exactly when the state advances: ChallengeReceived on the first advance, HandshakeCompleted on the second |
| IdentityClient.AwaitingResponseIsQuiet | source/gosling/src/gosling.rs:233-235 | until the owner answers the challenge, an update changes nothing and reports nothing |
| IdentityClient.UnexpectedResponseFails | source/gosling/src/gosling.rs:187-206 | a response carrying any cookie other than the awaited one is an error |
| IdentityClient.BadServerCookieFails | source/gosling/src/gosling.rs:208-216 | a begin_handshake reply without a binary server cookie is an error, and the client keeps waiting for the challenge |
| IdentityClient.SendResponseSignsProof | source/gosling/src/gosling.rs:236-284 | the send_response call carries the client cookie, the ed25519 signature over the identity proof built from the server's cookie, the client's x25519 public key, the x25519 signature over its service id with its sign bit, and the endpoint challenge response |
| IdentityClient.RunEventsInOrder | source/gosling/src/gosling.rs:165-324 | over any sequence of updates and answers, where a refused answer changes nothing and the run goes on, there are at most two events: ChallengeReceived first, then HandshakeCompleted; the client is complete iff both were reported |
| IdentityClient.IdentityClient.constructor | source/gosling/src/gosling.rs:143-163 | a new client starts in BeginHandshake with no cookies and derives its service id from its private key |
| IdentityClient.IdentityClient.Update | source/gosling/src/gosling.rs:165-318 | the new fields, the call made and the result are those of UpdateStep |
| IdentityClient.IdentityClient.ReadChallenge | source/gosling/src/gosling.rs:208-230 | the new fields and result are those of ChallengeReply: a missing, mistyped or wrong-sized server cookie or a missing or mistyped challenge is an error, and otherwise the cookie is stored and the challenge reported; no call is made |
| IdentityClient.IdentityClient.RespondToChallenge | source/gosling/src/gosling.rs:236-284 | the new fields, the call made and the result are those of Respond, whose call SendResponseSignsProof describes |
| IdentityClient.IdentityClient.SendResponse | source/gosling/src/gosling.rs:320-324 | the new fields and result are those of SendResponseStep |
| IdentityServer.EventStep | source/gosling/src/gosling.rs:440-522 | without an event nothing changes; an event changes only the state and the taken challenge response; EndpointRequestReceived carries the requesting client and endpoint, ChallengeResponseReceived the client's response (then taken), HandshakeCompleted the endpoint key, endpoint name, client and auth key, HandshakeRejected the five flags; a terminal event ends the handshake |
| IdentityServer.ExecFunctionStep | source/gosling/src/gosling.rs:653-786 | a call without a request cookie is refused and changes nothing; a call never changes the state or the RPC flag; an accepted begin_handshake is InvalidArg iff an argument is missing or the client id is invalid, BadVersion for another version, and otherwise records the cookie, the client and the endpoint and nothing else; an accepted send_response is InvalidArg iff an argument is missing or malformed, and otherwise answers nothing and sets exactly the cookie, the auth key, the response, the auth-signature verdict and the proof-signature flag becomes the ed25519 verdict on the identity proof when the client's key and the proof can both be built, and keeps its earlier value otherwise |
| IdentityServer.BeginHandshakeCall | source/gosling/src/gosling.rs:671-704 | missing arguments are InvalidArg and change nothing; InvalidArg iff an argument is missing or the client id is invalid; another version is BadVersion with no endpoint recorded; success iff the arguments are valid and the version matches, and then the cookie, the client and the endpoint are recorded and nothing else |
| IdentityServer.SendResponseCall | source/gosling/src/gosling.rs:705-783 | missing or mistyped arguments are InvalidArg and change nothing; InvalidArg iff they are missing or malformed, and then only the cookie is kept; otherwise the answer is empty and exactly these fields change: the cookie, the auth key, the challenge response, the x25519 auth-signature verdict, and the proof-signature flag becomes the ed25519 verdict on the identity proof when the client's key and the proof can both be built, and keeps its earlier value otherwise |
| IdentityServer.HandleSendResponseStep | source/gosling/src/gosling.rs:580-613 | the proof-signature flag becomes the ed25519 verdict on the identity proof when the client's key and the proof can both be built, and keeps its earlier value otherwise; the auth flag is the x25519 verdict on the client's service id; the auth key and response are stored; nothing else changes |
| IdentityServer.NextResultStep | source/gosling/src/gosling.rs:788-854 | without a result nothing changes; in ChallengeReady the begin_handshake call is answered with Success and a document holding the server cookie as generic binary and the challenge, and the server moves to WaitingForSendResponse with the challenge taken; once the verdict is in, the send_response call is answered, with the service id of the endpoint key and Success iff every check passed and with no value and Failure otherwise, the state becomes ChallengeVerificationResponseSent and the endpoint key is kept iff every check passed; nothing else changes |
| IdentityServer.SendChallengeStep | source/gosling/src/gosling.rs:539-577 | the challenge is accepted iff the server is getting one, and then the cookie, challenge, both verdicts and the ready state are stored and every other field is unchanged; otherwise nothing changes |
| IdentityServer.SendChallengeVerificationStep | source/gosling/src/gosling.rs:615-645 | the verdict is accepted iff the server is getting one, and then it is stored and made ready; otherwise nothing changes |
| IdentityServer.ServeOne | source/gosling/src/gosling.rs:435-438 | one RPC invocation keeps the state consistent, never moves the phase, and is ignored once the response was sent |
| IdentityServer.ServeRpc | source/gosling/src/gosling.rs:435-438 | serving all pending invocations answers each one, keeps the state consistent and never moves the phase |
| IdentityServer.UpdateStep | source/gosling/src/gosling.rs:433-523 | update keeps the state consistent and fails iff the RPC update fails; then the error is RpcSessionFailed and the session is gone |
| IdentityServer.ValidInitial | source/gosling/src/gosling.rs:406-431 | a new server is in a consistent state |
| IdentityServer.BadVersionRefused | source/gosling/src/gosling.rs:526-537 | begin_handshake with another protocol version is refused with BadVersion and no endpoint is recorded |
| IdentityServer.BadVersionStalls | source/gosling/src/gosling.rs:433-519 | after a BadVersion refusal the client is recorded but no endpoint, so update reports nothing and changes nothing, and every later call is refused with no change; only a failing RPC session ends the server |
| IdentityServer.ShortClientCookieRefused | source/gosling/src/gosling.rs:728-736 | send_response with a client cookie of the wrong length is refused as an invalid argument before any key or response is stored |
| IdentityServer.EventStepKeepsValid | source/gosling/src/gosling.rs:440-522 | the final match keeps the state consistent |
| IdentityServer.ExecFunctionKeepsValid | source/gosling/src/gosling.rs:653-786 | every RPC call keeps the state consistent |
| IdentityServer.ValidChallengeReadyShape | source/gosling/src/gosling.rs:818 | in a consistent state the `unreachable!` arm of next_result is indeed unreachable |
| IdentityServer.NextResultKeepsValid | source/gosling/src/gosling.rs:788-854 | next_result keeps the state consistent and the phase unchanged |
| IdentityServer.OwnerAnswersKeepValid | source/gosling/src/gosling.rs:539-645 | the owner's challenge and verdict keep the state consistent |
| IdentityServer.ResponseSentEndsHandshake | source/gosling/src/gosling.rs:480-518 | once the verification response is sent the handshake ends: completed iff every check passed, rejected with the five flags otherwise |
| IdentityServer.EventStepEvents | source/gosling/src/gosling.rs:440-522 | the final match reports an event exactly when the phase advances, in protocol order, and the terminal one completes iff every check passed |
| IdentityServer.UpdateEvents | source/gosling/src/gosling.rs:433-523 | a whole update reports an event exactly when the phase advances, in protocol order; without an event the phase stays put |
| IdentityServer.NextKeepsOrdered | source/gosling/src/gosling.rs:433-854 | each update, call or owner answer keeps the reported events in protocol order |
| IdentityServer.RunEventsInOrder | source/gosling/src/gosling.rs:433-854 | over any run the events are EndpointRequestReceived, ChallengeResponseReceived, then one terminal event; the server is complete iff all three were reported |
| IdentityHandshake.ChallengeReplyAccepted | source/gosling/src/gosling.rs:799-816 | the identity server's challenge reply, delivered to a client waiting under the same begin_handshake cookie, makes the client store that server cookie, report that challenge for its server and endpoint, and wait for its owner's response without a call |
| IdentityServer.IdentityServer.constructor | source/gosling/src/gosling.rs:406-431 | a new server starts waiting for begin_handshake with every field empty and every flag false |
| IdentityServer.IdentityServer.Update | source/gosling/src/gosling.rs:433-523 | the new fields, answers and result are those of UpdateStep |
| IdentityServer.IdentityServer.ServeAll | source/gosling/src/gosling.rs:435-438 | the loop over invocations computes ServeRpc |
| IdentityServer.IdentityServer.Serve | source/gosling/src/gosling.rs:435-438 | one invocation computes ServeOne |
| IdentityServer.IdentityServer.ReportEvent | source/gosling/src/gosling.rs:440-522 | the final match computes EventStep |
| IdentityServer.IdentityServer.HandleBeginHandshake | source/gosling/src/gosling.rs:526-537 | the request succeeds iff the version matches, and only then is the endpoint recorded |
| IdentityServer.IdentityServer.HandleSendResponse | source/gosling/src/gosling.rs:580-613 | the new fields are those of HandleSendResponseStep: the proof-signature flag becomes the ed25519 verdict on the identity proof when the client's key and the proof can both be built, and keeps its earlier value otherwise; the auth flag is the x25519 verdict; the auth key and response are stored; nothing else changes |
| IdentityServer.IdentityServer.ExecFunction | source/gosling/src/gosling.rs:653-786 | the new fields and the reply are those of ExecFunctionStep, including the send_response proof and auth verdicts and the unchanged state |
| IdentityServer.IdentityServer.ExecBeginHandshake | source/gosling/src/gosling.rs:671-704 | the begin_handshake arm computes BeginHandshakeCall |
| IdentityServer.IdentityServer.ExecSendResponse | source/gosling/src/gosling.rs:705-783 | the send_response arm computes SendResponseCall: InvalidArg iff malformed, otherwise the cookie, key, response and both signature verdicts are recorded |
| IdentityServer.IdentityServer.NextResult | source/gosling/src/gosling.rs:788-854 | the new fields and the reply are those of NextResultStep |
| IdentityServer.IdentityServer.SendChallenge | source/gosling/src/gosling.rs:539-577 | the new fields and result are those of SendChallengeStep |
| IdentityServer.IdentityServer.SendChallengeVerification | source/gosling/src/gosling.rs:615-645 | the new fields and result are those of SendChallengeVerificationStep |
| EndpointClient.UpdateStep | source/gosling/src/gosling.rs:899-1021 | a finished client refuses to update; an error changes nothing; the state advances by at most one; a call is made iff it advances short of completion; an event is reported iff the handshake completes |
| EndpointClient.UpdateKeepsValid | source/gosling/src/gosling.rs:899-1021 | from a consistent state the `unexpected state` arm is never reached and the state stays consistent |
| EndpointClient.SendResponseSignsProof | source/gosling/src/gosling.rs:940-982 | the send_response call is made only after a successful begin_handshake reply under the begin_handshake cookie whose document holds a 32-byte server_cookie, and it carries the client cookie, the client's service id and its ed25519 signature over the endpoint proof built from the client cookie and that server cookie |
| EndpointClient.MissingServerCookieIgnored | source/gosling/src/gosling.rs:940-988 | a begin_handshake reply without a server cookie is silently ignored: nothing changes and nothing is reported |
| EndpointClient.BadServerCookieFails | source/gosling/src/gosling.rs:954-957 | a server cookie of the wrong length is an error |
| EndpointClient.VerificationNeedsEmptyDocument | source/gosling/src/gosling.rs:1007-1012 | the handshake completes iff the verification reply is an empty document; a non-empty one is an error |
| EndpointClient.AdvanceCall | source/gosling/src/gosling.rs:905-982 | the call made from the start is begin_handshake, and the one made after it is send_response |
| EndpointClient.NextKeepsCallsAndEvents | source/gosling/src/gosling.rs:899-1021 | one more update keeps the calls and events of a run in protocol order |
| EndpointClient.RunCallsAndEvents | source/gosling/src/gosling.rs:899-1021 | over any run the client makes begin_handshake then send_response and reports at most one event, exactly when it completes |
| EndpointClient.EndpointClient.constructor | source/gosling/src/gosling.rs:883-897 | a new client starts in BeginHandshake with no cookies |
| EndpointClient.EndpointClient.Update | source/gosling/src/gosling.rs:899-1021 | the new fields, call and result are those of UpdateStep |
| EndpointServer.HandleBeginHandshakeStep | source/gosling/src/gosling.rs:1125-1142 | the request fails with BadVersion iff the version differs, changing nothing; otherwise the channel is recorded and the reply holds the server cookie |
| EndpointServer.HandleSendResponseStep | source/gosling/src/gosling.rs:1144-1177 | the response is handled either way; it succeeds iff the caller is the allowed client and its proof signature verifies, with an empty document; otherwise it fails with Failure |
| EndpointServer.ExecFunctionStep | source/gosling/src/gosling.rs:1185-1260 | a call without a cookie is refused; a call that does not fit the state is answered with no value and changes nothing; any change is one step forward; an invalid argument changes nothing; an accepted begin_handshake with a missing version or channel is InvalidArg, with another version BadVersion, both changing nothing, and otherwise records the channel, moves to WaitingForSendResponse and answers a document holding the server cookie; a well-formed send_response moves to HandledSendResponse and records whether it succeeded |
| EndpointServer.ServeOne | source/gosling/src/gosling.rs:1262-1264 | polling for a result never answers and never changes anything |
| EndpointServer.ServeRpc | source/gosling/src/gosling.rs:1089-1092 | every pending invocation is answered |
| EndpointServer.EventStep | source/gosling/src/gosling.rs:1094-1122 | an error changes nothing; the only event reported is HandshakeCompleted for the allowed client, after a successful send_response |
| EndpointServer.UpdateStep | source/gosling/src/gosling.rs:1088-1123 | a failed RPC update is RpcSessionFailed and drops the session |
| EndpointServer.ExecFunctionKeepsValid | source/gosling/src/gosling.rs:1185-1260 | every RPC call keeps the state consistent |
| EndpointServer.ServeRpcKeepsValid | source/gosling/src/gosling.rs:1089-1092 | serving invocations keeps the state consistent, never goes back, and is ignored once send_response was handled |
| EndpointServer.SendResponseVerdict | source/gosling/src/gosling.rs:1217-1258 | a well-formed send_response is handled, and it succeeds iff the proof is accepted |
| EndpointServer.OtherClientRefused | source/gosling/src/gosling.rs:1144-1177 | a caller other than the allowed client never succeeds, whatever it signs |
| EndpointServer.RejectionIsSilent | source/gosling/src/gosling.rs:1105-1119 | a rejection reports nothing and ends the handshake, and the next update fails with an unexpected-state error |
| EndpointServer.RunReportsOnlySuccess | source/gosling/src/gosling.rs:1088-1264 | over any run at most one event is reported, a completion for the allowed client; a finished run reports it iff the handshake succeeded |
| EndpointServer.EndpointServer.constructor | source/gosling/src/gosling.rs:1067-1086 | a new server waits for begin_handshake with no channel and no verdict |
| EndpointServer.EndpointServer.Update | source/gosling/src/gosling.rs:1088-1123 | the new fields, answers and result are those of UpdateStep |
| EndpointServer.EndpointServer.ServeAll | source/gosling/src/gosling.rs:1089-1092 | the loop over invocations computes ServeRpc |
| EndpointServer.EndpointServer.HandleBeginHandshake | source/gosling/src/gosling.rs:1125-1142 | the new fields and the result are those of HandleBeginHandshakeStep |
| EndpointServer.EndpointServer.HandleSendResponse | source/gosling/src/gosling.rs:1144-1177 | the new fields and the result are those of HandleSendResponseStep |
| EndpointServer.EndpointServer.ExecFunction | source/gosling/src/gosling.rs:1185-1260 | the new fields and the reply are those of ExecFunctionStep |
| EndpointServer.EndpointServer.NextResult | source/gosling/src/gosling.rs:1262-1264 | there is never a queued result |
| CrateEndpointServer.EventStep | source/gosling/crates/gosling/src/endpoint_server.rs:124-195 | an inconsistent state is InvalidState and changes nothing; a quiet state changes nothing; an event changes only the state; ChannelRequestReceived carries the requested channel, HandshakeCompleted the client and channel, HandshakeRejected the three flags; a terminal event ends the handshake and completes iff it succeeded |
| CrateEndpointServer.ChannelRequestStep | source/gosling/crates/gosling/src/endpoint_server.rs:212-239 | the owner's answer is accepted iff a channel request is being validated and no server cookie exists yet; otherwise IncorrectUsage and nothing changes |
| CrateEndpointServer.HandleSendResponseStep | source/gosling/crates/gosling/src/endpoint_server.rs:242-283 | the response is always handled and moves to HandledSendResponse; the proof flag becomes the ed25519 verdict on the endpoint proof when the client's key is recovered and keeps its earlier value otherwise, the other flags are kept; the call succeeds, with an empty document, iff the key is recovered, the client is allowed, the channel is valid and the proof verifies, and fails with Failure otherwise |
| CrateEndpointServer.SendResponseCall | source/gosling/crates/gosling/src/endpoint_server.rs:342-375 | InvalidArg iff the arguments are missing, the cookie is not 32 bytes or the signature is malformed, changing nothing; otherwise the handled state with the proof flag, an empty document iff the proof is accepted, and Failure otherwise |
| CrateEndpointServer.ExecFunctionStep | source/gosling/crates/gosling/src/endpoint_server.rs:292-378 | a call without a cookie is refused; a call that does not fit the state changes nothing; an accepted begin_handshake is InvalidArg iff an argument is missing, the client id is invalid or the channel is not ASCII, BadVersion for another version, and otherwise records the cookie, the client and the channel; an accepted send_response is InvalidArg iff an argument is missing or malformed, changing nothing, and otherwise moves to HandledSendResponse, where the proof flag becomes the ed25519 verdict on the endpoint proof when the client's key is recovered and keeps its earlier value otherwise, the other flags are kept, answering an empty document iff the key is recovered, the client is allowed, the channel is valid and the proof verifies |
| CrateEndpointServer.NextResultStep | source/gosling/crates/gosling/src/endpoint_server.rs:380-402 | the server cookie is sent to the client only after the channel request was validated, and then the server waits for send_response |
| CrateEndpointServer.ServeOne | source/gosling/crates/gosling/src/endpoint_server.rs:119-122 | one invocation keeps the state consistent, never moves the phase, and is ignored after send_response |
| CrateEndpointServer.ServeRpc | source/gosling/crates/gosling/src/endpoint_server.rs:119-122 | all invocations are answered, the state stays consistent and the phase does not move |
| CrateEndpointServer.UpdateStep | source/gosling/crates/gosling/src/endpoint_server.rs:118-196 | update keeps the state consistent and answers every invocation |
| CrateEndpointServer.ValidInitial | source/gosling/crates/gosling/src/endpoint_server.rs:92-116 | a new server is in a consistent state |
| CrateEndpointServer.ExecFunctionKeepsValid | source/gosling/crates/gosling/src/endpoint_server.rs:292-378 | every RPC call keeps the state consistent |
| CrateEndpointServer.EventStepKeepsValid | source/gosling/crates/gosling/src/endpoint_server.rs:124-195 | the final match keeps the state consistent |
| CrateEndpointServer.ChannelRequestKeepsValid | source/gosling/crates/gosling/src/endpoint_server.rs:212-239 | the owner's answer keeps the state consistent |
| CrateEndpointServer.BadVersionEndsSession | source/gosling/crates/gosling/src/endpoint_server.rs:310-341 | begin_handshake with another version is refused with BadVersion and leaves fields that the next update reports as InvalidState |
| CrateEndpointServer.ChannelRequestOnlyOnce | source/gosling/crates/gosling/src/endpoint_server.rs:212-239 | after an accepted answer, a second answer is IncorrectUsage and changes nothing |
| CrateEndpointServer.HandledEndsHandshake | source/gosling/crates/gosling/src/endpoint_server.rs:173-191 | after send_response the next update ends the handshake: completed for the allowed client and its channel iff all flags hold, rejected with the three flags otherwise |
| CrateEndpointServer.UpdateEvents | source/gosling/crates/gosling/src/endpoint_server.rs:118-196 | an event is reported exactly when the phase advances: ChannelRequestReceived, then the terminal event; a completion is only for the allowed client |
| CrateEndpointServer.NextKeepsOrdered | source/gosling/crates/gosling/src/endpoint_server.rs:118-402 | each update, call or owner answer keeps the events in protocol order |
| CrateEndpointServer.RunEventsInOrder | source/gosling/crates/gosling/src/endpoint_server.rs:118-402 | over any run, where a refused channel answer changes nothing and the run goes on, the events are ChannelRequestReceived then one terminal event, which completes iff all flags hold and only for the allowed client |
| CrateEndpointServer.EndpointServer.constructor | source/gosling/crates/gosling/src/endpoint_server.rs:92-116 | a new server waits for begin_handshake with every field empty and every flag false except the channel-validity flag, which starts true |
| CrateEndpointServer.EndpointServer.Update | source/gosling/crates/gosling/src/endpoint_server.rs:118-196 | the new fields, answers and result are those of UpdateStep |
| CrateEndpointServer.EndpointServer.ServeAll | source/gosling/crates/gosling/src/endpoint_server.rs:119-122 | the loop over invocations computes ServeRpc |
| CrateEndpointServer.EndpointServer.Serve | source/gosling/crates/gosling/src/endpoint_server.rs:119-122 | one invocation computes ServeOne |
| CrateEndpointServer.EndpointServer.ReportEvent | source/gosling/crates/gosling/src/endpoint_server.rs:124-195 | the final match computes EventStep |
| CrateEndpointServer.EndpointServer.HandleBeginHandshake | source/gosling/crates/gosling/src/endpoint_server.rs:199-210 | the request succeeds iff the version matches, and only then is the channel recorded |
| CrateEndpointServer.EndpointServer.HandleChannelRequestReceived | source/gosling/crates/gosling/src/endpoint_server.rs:212-239 | the new fields and result are those of ChannelRequestStep |
| CrateEndpointServer.EndpointServer.HandleSendResponse | source/gosling/crates/gosling/src/endpoint_server.rs:242-283 | the new fields and result are those of HandleSendResponseStep: the proof flag becomes the ed25519 verdict on the endpoint proof when the client's key is recovered and keeps its earlier value otherwise, the other flags are kept; success iff key, allowed client, valid channel and verified proof |
| CrateEndpointServer.EndpointServer.ExecFunction | source/gosling/crates/gosling/src/endpoint_server.rs:292-378 | the new fields and reply are those of ExecFunctionStep, including the send_response verdict and its proof flag |
| CrateEndpointServer.EndpointServer.ExecBeginHandshake | source/gosling/crates/gosling/src/endpoint_server.rs:310-341 | the begin_handshake arm computes BeginHandshakeCall |
| CrateEndpointServer.EndpointServer.ExecSendResponse | source/gosling/crates/gosling/src/endpoint_server.rs:342-375 | the send_response arm computes SendResponseCall: InvalidArg iff malformed with no change, otherwise the handled state, the proof flag and success iff the proof is accepted |
| CrateEndpointServer.EndpointServer.NextResult | source/gosling/crates/gosling/src/endpoint_server.rs:380-402 | the new fields and reply are those of NextResultStep |
| TorManager.VersionGate | source/gosling/crates/tor-interface/src/tor_manager.rs:173-191 | a daemon is refused iff its version is below 0.4.6.1, with TorProcessTooOld naming both versions |
| TorManager.VersionLessIsStrictOrder | source/gosling/crates/tor-interface/src/tor_manager.rs:186 | the version comparison is a strict total order |
| TorManager.VersionGateMonotone | source/gosling/crates/tor-interface/src/tor_manager.rs:173-191 | a version at least as new as an accepted one is accepted |
| TorManager.DigitChar | source/gosling/crates/tor-interface/src/tor_manager.rs:251 | each digit value has a decimal character with that value |
| TorManager.DecimalString | source/gosling/crates/tor-interface/src/tor_manager.rs:251 | the decimal text of a number is a non-empty run of digits |
| TorManager.ParseU32 | source/gosling/crates/tor-interface/src/tor_manager.rs:251 | a parsed u32 is below 2^32 |
| TorManager.ParseOrZero | source/gosling/crates/tor-interface/src/tor_manager.rs:251 | the progress value is always below 2^32 |
| TorManager.DecimalStringValue | source/gosling/crates/tor-interface/src/tor_manager.rs:251 | a number's decimal text has that number as its value |
| TorManager.ParseU32Decimal | source/gosling/crates/tor-interface/src/tor_manager.rs:251 | u32 parsing accepts a number's decimal text, with or without a leading `+`, iff it fits in 32 bits, and returns that number |
| TorManager.BootstrapFields | source/gosling/crates/tor-interface/src/tor_manager.rs:246-256 | the progress read from the arguments fits in a u32 |
| TorManager.LastOccurrenceWins | source/gosling/crates/tor-interface/src/tor_manager.rs:249-256 | when a key appears more than once the last occurrence sets the field |
| TorManager.AbsentKeyDefaults | source/gosling/crates/tor-interface/src/tor_manager.rs:246-248 | a missing PROGRESS, TAG or SUMMARY leaves 0 or the empty string |
| TorManager.Translate | source/gosling/crates/tor-interface/src/tor_manager.rs:239-280 | only a NOTICE BOOTSTRAP status or an UPLOADED descriptor produces events: the status with BootstrapComplete added at 100 percent, or OnionServicePublished for the address |
| TorManager.TranslateAll | source/gosling/crates/tor-interface/src/tor_manager.rs:232-281 | translated asynchronous events never contain a log line |
| TorManager.LogEvents | source/gosling/crates/tor-interface/src/tor_manager.rs:283-287 | every log line becomes one LogReceived, in order |
| TorManager.LogLinesLast | source/gosling/crates/tor-interface/src/tor_manager.rs:232-289 | update's events end with the daemon's log lines, in order, and no other event follows them |
| TorManager.CompleteFollowsFullProgress | source/gosling/crates/tor-interface/src/tor_manager.rs:257-264 | every BootstrapComplete directly follows a BootstrapStatus at 100 percent |
| TorManager.CompleteIffFullProgress | source/gosling/crates/tor-interface/src/tor_manager.rs:245-264 | BootstrapComplete is reported iff some NOTICE BOOTSTRAP event carried progress 100 |
| TorManager.OnionListener.Drop | source/gosling/crates/tor-interface/src/tor_manager.rs:139-143 | dropping a listener clears its shared active flag |
| TorManager.ListenerFlags | source/gosling/crates/tor-interface/src/tor_manager.rs:373-379 | the key is always discarded, v3 client authorisation is asked for iff clients are given, and no other flag is set |
| TorManager.PartitionUnique | source/gosling/crates/tor-interface/src/tor_manager.rs:217-230 | removing the inactive services has one outcome up to order |
| TorManager.SwapRemove | source/gosling/crates/tor-interface/src/tor_manager.rs:221 | swap_remove drops exactly the chosen entry and keeps the ones before it in place |
| TorManager.SwapRemoveStep | source/gosling/crates/tor-interface/src/tor_manager.rs:217-230 | one removal keeps the kept and removed entries together a permutation of the original list |
| TorManager.CleanupStep | source/gosling/crates/tor-interface/src/tor_manager.rs:217-230 | removing an inactive entry keeps the cleanup's invariant: the entries stay accounted for, the checked prefix stays active, every removed entry is inactive and all but the newest were deleted successfully |
| TorManager.DroppedServiceRemoved | source/gosling/crates/tor-interface/src/tor_manager.rs:217-230 | every onion service whose listener was dropped is removed and none is kept |
| TorManager.LegacyTorClient.constructor | source/gosling/crates/tor-interface/src/tor_manager.rs:198-204 | a new client has its daemon's version, no SOCKS listener and no onion services |
| TorManager.LegacyTorClient.Update | source/gosling/crates/tor-interface/src/tor_manager.rs:216-290 | the inactive services are removed, and del_onion is called for each; a del_onion failure stops the loop with DelOnionFailed; otherwise the result is the translated events followed by the log lines |
| TorManager.LegacyTorClient.RemoveInactive | source/gosling/crates/tor-interface/src/tor_manager.rs:217-230 | kept and removed entries together are a permutation of the old list; every removed entry is inactive; on success every kept one is active; the loop stops at the first del_onion failure |
| TorManager.LegacyTorClient.TranslateEvents | source/gosling/crates/tor-interface/src/tor_manager.rs:232-281 | the loop computes TranslateAll |
| TorManager.LegacyTorClient.ParseBootstrapArguments | source/gosling/crates/tor-interface/src/tor_manager.rs:246-256 | the loop computes BootstrapFields |
| TorManager.LegacyTorClient.Connect | source/gosling/crates/tor-interface/src/tor_manager.rs:315-357 | the first SOCKS listener is asked for once and then kept; no listener is GetInfoNetListenersSocksFailed or NoSocksListenersFound; the stream opens iff the SOCKS connection to `<id>.onion` succeeds |
| TorManager.LegacyTorClient.Listener | source/gosling/crates/tor-interface/src/tor_manager.rs:360-405 | bind and local-address failures give their errors; otherwise add_onion is asked with the listener flags; on success a new active service is recorded; on failure the list is unchanged |
| TorManager.NewClient | source/gosling/crates/tor-interface/src/tor_manager.rs:155-205 | a client is created iff the daemon launched, its version passes the gate and setevents succeeds; each failure gives its own error |
| GoslingContext.TerminalCount | source/gosling/src/gosling.rs:1305-1468 | no more events end a session than there are events |
| GoslingContext.TerminalCountAppend | source/gosling/src/gosling.rs:1305-1468 | the count of session-ending events adds up over concatenation |
| GoslingContext.IdentityClientOutcome | source/gosling/src/gosling.rs:1746-1787 | an identity client is dropped iff it failed or completed, and exactly that is reported; a failure is reported with its handle and reason |
| GoslingContext.IdentityServerOutcomeAsWritten | source/gosling/src/gosling.rs:1797-1857 | as written, a server is dropped iff it failed or reached a terminal event; the owner hears of an end only when the session is dropped, by one event at most |
| GoslingContext.IdentityServerRejectionUnreported | source/gosling/src/gosling.rs:1829-1843 | as written, a rejected identity handshake is dropped with no event |
| GoslingContext.IdentityServerOutcome | source/gosling/src/gosling.rs:1797-1857 | every ended identity server is reported by one terminal event, a rejection with its five flags; all other cases are as written |
| GoslingContext.EndpointClientOutcomeAsWritten | source/gosling/src/gosling.rs:1867-1886 | as written, an endpoint client is dropped iff it failed or completed; the owner hears of an end only when the session is dropped, by one event at most |
| GoslingContext.EndpointClientFailureUnreported | source/gosling/src/gosling.rs:1878-1881 | as written, a failed endpoint client is dropped with no event |
| GoslingContext.EndpointClientOutcome | source/gosling/src/gosling.rs:1867-1886 | every ended endpoint client is reported by one terminal event, a failure with its handle and reason; success is as written |
| GoslingContext.EndpointServerOutcomeAsWritten | source/gosling/src/gosling.rs:1896-1941 | as written, an endpoint server is dropped iff it failed or reported anything but a channel request; the owner hears of an end only when the session is dropped, by one event at most |
| GoslingContext.EndpointServerFailureUnreported | source/gosling/src/gosling.rs:1936 | as written, a failed endpoint server is dropped with no event |
| GoslingContext.EndpointServerOutcome | source/gosling/src/gosling.rs:1896-1941 | every ended endpoint server is reported by one terminal event, a failure with its handle and reason; success is as written |
| GoslingContext.Ticked | source/gosling/src/gosling.rs:1785-1787 | a session whose outcome is reported is kept iff none of its events ends it; a sound outcome stays sound |
| GoslingContext.SortedHandles | source/gosling/src/gosling.rs:1743 | the handles stepped are exactly the live ones, each once, in increasing order |
| GoslingContext.Sweep | source/gosling/src/gosling.rs:1743-1788 | a sweep removes only stepped sessions and leaves every other session untouched |
| GoslingContext.SweepTicks | source/gosling/src/gosling.rs:1744-1787 | a stepped session is kept iff its own tick keeps it, then with the tick's new value, and the events are the stepped sessions' own, in the order stepped |
| GoslingContext.SortedHandlesSweepable | source/gosling/src/gosling.rs:1743-1745 | the collected handles are distinct live keys, so `get_mut(&handle).unwrap()` never fails |
| GoslingContext.SweepBelow | source/gosling/src/gosling.rs:1743-1788 | one loop of update only removes sessions |
| GoslingContext.SweepBelowSwept | source/gosling/src/gosling.rs:1743-1788 | every session below the counter is kept iff its tick keeps it, with the tick's value, the others are untouched, and the events are the sessions' own in increasing handle order |
| GoslingContext.SweepBelowAccounts | source/gosling/src/gosling.rs:1743-1788 | one loop whose ticks are sound reports no more sessions ended than it removes; exactly as many when every tick is accounted for |
| GoslingContext.SweepAccounts | source/gosling/src/gosling.rs:1743-1788 | a sweep whose ticks are sound reports no more sessions ended than it removes; exactly as many when every tick is accounted for |
| GoslingContext.Allocate | source/gosling/src/gosling.rs:1521-1522 | a new handle is the counter's value, and the counter moves past it |
| GoslingContext.ValidAllocate | source/gosling/src/gosling.rs:1521-1523 | the next handle is in no session map, and filing under it keeps the handles distinct and below the counter |
| GoslingContext.IdentityClientBeginHandshakeStep | source/gosling/src/gosling.rs:1504-1526 | before bootstrap it fails with BootstrapIncomplete, and without a connection with TransportFailure; otherwise a new client is filed under a fresh handle that is returned; existing clients are untouched |
| GoslingContext.IdentityClientAbortStep | source/gosling/src/gosling.rs:1528-1537 | aborting succeeds iff the handle is a live identity client, which is removed; otherwise NotFound and nothing changes |
| GoslingContext.IdentityClientChallengeResponseStep | source/gosling/src/gosling.rs:1541-1552 | an unknown handle is NotFound; otherwise the client's send_response decides |
| GoslingContext.IdentityServerStartStep | source/gosling/src/gosling.rs:1554-1563 | it fails before bootstrap, or if the listener already runs, or if the listener cannot start; otherwise the listener runs |
| GoslingContext.IdentityServerStopStep | source/gosling/src/gosling.rs:1565-1572 | after bootstrap it stops the listener and drops every identity-server session |
| GoslingContext.IdentityServerEndpointRequestStep | source/gosling/src/gosling.rs:1577-1590 | an unknown handle is NotFound; otherwise the server's send_challenge decides |
| GoslingContext.IdentityServerChallengeResponseStep | source/gosling/src/gosling.rs:1593-1603 | an unknown handle is NotFound; otherwise the server's send_challenge_verification decides |
| GoslingContext.EndpointClientBeginHandshakeStep | source/gosling/src/gosling.rs:1605-1626 | it fails before bootstrap or when client auth or the connection fails; otherwise a new endpoint client is filed under a fresh handle; existing clients are untouched |
| GoslingContext.EndpointClientAbortStep | source/gosling/src/gosling.rs:1628-1637 | aborting succeeds iff the handle is a live endpoint client, which is removed; otherwise NotFound |
| GoslingContext.EndpointServerStartStep | source/gosling/src/gosling.rs:1639-1654 | after bootstrap, when the listener starts, the endpoint is recorded under its service id, replacing any endpoint already there |
| GoslingContext.EndpointServerStopStep | source/gosling/src/gosling.rs:1664-1674 | stopping succeeds iff the service id is a running endpoint after bootstrap, which is removed; otherwise nothing changes |
| GoslingContext.GrowsTransitive | source/gosling/src/gosling.rs:1689-1707 | "the counter only moves forward and new sessions appear only under handles it has just passed" composes over successive steps |
| GoslingContext.AcceptIdentity | source/gosling/src/gosling.rs:1678-1693 | an accept error fails update; a connection is filed as a new identity server; nothing else changes |
| GoslingContext.IdentityServerFiled | source/gosling/src/gosling.rs:1689-1691 | filing an identity server keeps the state consistent, moves the counter and adds one session |
| GoslingContext.EndpointServerFiled | source/gosling/src/gosling.rs:1705-1707 | filing an endpoint server keeps the state consistent, moves the counter and adds one session |
| GoslingContext.AcceptedIdentity | source/gosling/src/gosling.rs:1679-1692 | the new identity server starts fresh under the old counter value and adds exactly one session |
| GoslingContext.AcceptedEndpoint | source/gosling/src/gosling.rs:1697-1708 | the new endpoint server serves the listener's identity for its allowed client and adds exactly one session |
| GoslingContext.AcceptEndpoints | source/gosling/src/gosling.rs:1696-1709 | accepting on every endpoint listener keeps the state consistent and touches only the endpoint sessions and the counter |
| GoslingContext.AcceptEndpointsStop | source/gosling/src/gosling.rs:1696-1709 | the first accept error ends the loop: no later listener is served |
| GoslingContext.AcceptStep | source/gosling/src/gosling.rs:1678-1709 | accepting keeps the state consistent, the listeners and the bootstrap flag, and only adds sessions under new handles |
| GoslingContext.TorEventStep | source/gosling/src/gosling.rs:1716-1737 | one Tor event sets the bootstrap flag iff it is BootstrapComplete and reports at most one event that ends no session; a published identity is IdentityServerPublished, a published endpoint names the endpoint |
| GoslingContext.TorEventsStep | source/gosling/src/gosling.rs:1715-1738 | the bootstrap flag ends up set iff it was set or some event completed the bootstrap; no tor event ends a session |
| GoslingContext.SessionsStep | source/gosling/src/gosling.rs:1740-1943 | the four loops only remove sessions, move no handle forward and change nothing but the session maps |
| GoslingContext.SessionsStepSweeps | source/gosling/src/gosling.rs:1740-1943 | in each of the four maps, every session below the counter is kept iff its tick keeps it, with the tick's value; the events are the identity clients', then the identity servers', endpoint clients' and endpoint servers', each in handle order |
| GoslingContext.UpdateStep | source/gosling/src/gosling.rs:1676-1946 | update fails with TransportFailure iff an accept fails or the tor update fails, and then keeps what was accepted; otherwise its state is the accepted, tor-updated state after the four loops and its events are tor's followed by the sessions'; it keeps the state consistent, the listeners, and handles only moving forward |
| GoslingContext.ValidInitial | source/gosling/src/gosling.rs:1480-1497 | a new Context is consistent |
| GoslingContext.TicksAccounted | source/gosling/src/gosling.rs:1740-1943 | every session step, as written or intended, is sound: an end is heard of only when the session is dropped; the identity-client step reports every end; with the intended arms, every step does |
| GoslingContext.UpdateReportsEndedSessions | source/gosling/src/gosling.rs:1740-1946 | update reports no more ended sessions than it drops: sessions after accepting are at least those kept plus the terminal events returned; with the intended arms, exactly |
| GoslingContext.SessionsStepAccounts | source/gosling/src/gosling.rs:1740-1943 | the four loops report no more ended sessions than they remove; with the intended arms, exactly as many |
| GoslingContext.IdentityClientsSwept | source/gosling/src/gosling.rs:1743-1788 | after the loop, an identity client is kept iff its update succeeds without completing, with its updated fields |
| GoslingContext.IdentityServersSwept | source/gosling/src/gosling.rs:1794-1857 | after the loop, an identity server is kept iff its update succeeds with no event or an intermediate one, with its updated fields |
| GoslingContext.EndpointClientsSwept | source/gosling/src/gosling.rs:1864-1886 | after the loop, an endpoint client is kept iff its update succeeds with no event, with its updated fields |
| GoslingContext.EndpointServersSwept | source/gosling/src/gosling.rs:1893-1941 | after the loop, an endpoint server is kept iff its update succeeds with no event or a channel request, with its updated fields |
| GoslingContext.UpdateRemovesEndedSessions | source/gosling/src/gosling.rs:1740-1943 | a successful update, as written or intended, removes each session alive after the accepts exactly when its own update fails or ends its handshake, and keeps every other one with its updated fields |
| GoslingContext.FailedServerTick | source/gosling/src/gosling.rs:1893-1941 | an endpoint server whose RPC update fails is removed: as written with no event, as intended with EndpointServerRequestFailed |
| GoslingContext.FailedServerSweep | source/gosling/src/gosling.rs:1893-1941 | the endpoint-server loop over that one server removes it, as written with no event |
| GoslingContext.FailedServerSessions | source/gosling/src/gosling.rs:1740-1943 | for a Context holding only that server, the four loops remove it, as written reporting nothing |
| GoslingContext.FailedServerUpdate | source/gosling/src/gosling.rs:1676-1946 | a quiet update of that Context removes the server and succeeds, as written with no event |
| GoslingContext.UpdateDropsFailedServerSilently | source/gosling/src/gosling.rs:1893-1941 | as written, update takes a consistent Context from one session to none and returns no event, so the owner never hears of the ended handshake; the intended update returns EndpointServerRequestFailed for it |
| GoslingContext.Context.constructor | source/gosling/src/gosling.rs:1470-1498 | a new Context has no sessions, no listeners, handle counter 0 and bootstrap not complete, and is consistent |
| GoslingContext.Context.IdentityClientBeginHandshake | source/gosling/src/gosling.rs:1504-1526 | from a consistent state, the new state and result are those of IdentityClientBeginHandshakeStep, and the state stays consistent |
| GoslingContext.Context.IdentityClientAbortHandshake | source/gosling/src/gosling.rs:1528-1537 | from a consistent state, the new state and result are those of IdentityClientAbortStep, and the state stays consistent |
| GoslingContext.Context.IdentityClientHandleChallengeReceived | source/gosling/src/gosling.rs:1541-1552 | from a consistent state, the new state and result are those of IdentityClientChallengeResponseStep, and the state stays consistent |
| GoslingContext.Context.IdentityServerStart | source/gosling/src/gosling.rs:1554-1563 | from a consistent state, the new state and result are those of IdentityServerStartStep, and the state stays consistent |
| GoslingContext.Context.IdentityServerStop | source/gosling/src/gosling.rs:1565-1572 | from a consistent state, the new state and result are those of IdentityServerStopStep, and the state stays consistent |
| GoslingContext.Context.IdentityServerHandleEndpointRequestReceived | source/gosling/src/gosling.rs:1577-1590 | from a consistent state, the new state and result are those of IdentityServerEndpointRequestStep, and the state stays consistent |
| GoslingContext.Context.IdentityServerHandleChallengeResponseReceived | source/gosling/src/gosling.rs:1593-1603 | from a consistent state, the new state and result are those of IdentityServerChallengeResponseStep, and the state stays consistent |
| GoslingContext.Context.EndpointClientBeginHandshake | source/gosling/src/gosling.rs:1605-1626 | from a consistent state, the new state and result are those of EndpointClientBeginHandshakeStep, and the state stays consistent |
| GoslingContext.Context.EndpointClientAbortHandshake | source/gosling/src/gosling.rs:1628-1637 | from a consistent state, the new state and result are those of EndpointClientAbortStep, and the state stays consistent |
| GoslingContext.Context.EndpointServerStart | source/gosling/src/gosling.rs:1639-1654 | from a consistent state, the new state and result are those of EndpointServerStartStep, and the state stays consistent |
| GoslingContext.Context.EndpointServerHandleChannelRequestReceived | source/gosling/src/gosling.rs:1656-1662 | answering an endpoint channel request always fails as not implemented |
| GoslingContext.Context.EndpointServerStop | source/gosling/src/gosling.rs:1664-1674 | from a consistent state, the new state and result are those of EndpointServerStopStep, and the state stays consistent |
| GoslingContext.Context.Update | source/gosling/src/gosling.rs:1676-1946 | starting from a consistent state whose listeners are the ones iterated, the new state and the events are those of UpdateStep with the arms as written, and the state stays consistent |
| GoslingContext.Context.AcceptConnections | source/gosling/src/gosling.rs:1678-1709 | the accepting phase computes AcceptStep |
| GoslingContext.Context.AcceptIdentityConnection | source/gosling/src/gosling.rs:1678-1693 | the identity accept computes AcceptIdentity |
| GoslingContext.Context.AcceptEndpointConnections | source/gosling/src/gosling.rs:1696-1709 | the loop over endpoint listeners computes AcceptEndpoints |
| GoslingContext.Context.FileEndpointServer | source/gosling/src/gosling.rs:1698-1707 | filing one endpoint server computes AcceptedEndpoint |
| GoslingContext.Context.ConsumeTorEvents | source/gosling/src/gosling.rs:1715-1738 | the loop over tor events computes TorEventsStep |
| GoslingContext.Context.ConsumeTorEvent | source/gosling/src/gosling.rs:1716-1737 | one tor event computes TorEventStep |
| GoslingContext.Context.UpdateSessions | source/gosling/src/gosling.rs:1740-1943 | the four session loops compute SessionsStep with the arms as written |
| GoslingContext.SweepSessions | source/gosling/src/gosling.rs:1743-1788 | collecting one map's handles and looping over them computes SweepBelow |
| GoslingContext.SweepHandles | source/gosling/src/gosling.rs:1744-1788 | the loop over the collected handles computes Sweep |

## Left out

- Handshake handles are unbounded naturals; the `usize` counter's overflow is not modelled.
- Sockets, TCP streams, ports, `set_nonblocking` and `try_clone` are not modelled. Each
  `try_clone` and `set_nonblocking` is taken to succeed. That includes the `if let Ok(stream)`
  around EndpointServerHandshakeCompleted, so a completed endpoint server is always reported.
- `listener.accept()` is an input (`GoslingContext.Accept`). The order in which the endpoint
  listeners' `HashMap` is iterated is an input permutation (`UpdateIo.endpointOrder`).
- The BSON-RPC session is left out: framing, encoding, `client_call` cookies and the RPC answers
  the Context discards. Its effects are inputs: the RPC update succeeds or fails, and the next
  response or invocation is given.
- The cryptography is an oracle of total functions: key derivation, ed25519 and x25519
  signatures, verification, and the service-id checksum and version byte. Randomness (`OsRng`
  client and server cookies, `X25519PrivateKey::generate`) is a parameter.
- `Context::bootstrap`, `add_client_auth` and `remove_client_auth` only forward to the Tor
  controller. Their results are boolean inputs; the Tor daemon itself is not modelled.
- In `LegacyTorClient::new`, launching the daemon, opening the control stream, creating the
  controller, authenticating and `getinfo_version` are collapsed into one input result of
  `TorManager.NewClient`.
- The version status tag and the full ordering of `TorVersion` are left out:
  `legacy_tor_version.rs` is not part of this model. The comparison is lexicographic on major,
  minor, micro and patch level.
- `TorDaemonCircuitToken::new` (password generation) is not modelled; a circuit token is an
  opaque value passed to the SOCKS request.
- `println!` output, including the Unknown asynchronous event's lines, is not modelled.
- The crate `EndpointServer` unwraps `rpc.update`, which panics on failure. That model has no
  RPC-failure input.
- The client-auth key given to `endpoint_server_start` is only passed to Tor. The model keeps
  the endpoint's name and allowed client.
- `GoslingContext.Context.constructor`: always succeeds. `Context::new` first creates the Tor manager (gosling.rs:1476) and fails when that fails; creating it is not modelled, and neither are the identity and endpoint ports, which are only passed to the Tor manager's `connect` and `listener` calls.
- `EndpointServer.UpdateStep`: states only the RPC-failure and no-RPC cases. The event part is
  stated by `EndpointServer.EventStep` and `EndpointServer.RunReportsOnlySuccess`.
- `GoslingContext.IdentityServerOutcomeAsWritten`, `GoslingContext.EndpointClientOutcomeAsWritten`
  and `GoslingContext.EndpointServerOutcomeAsWritten`: these model the code as written. Their
  contracts state the drop decision and that an end is heard of only when the session is dropped.
  What they fail to report is stated by the three `...Unreported` lemmas.
- `GoslingContext.UpdateReportsEndedSessions` and `GoslingContext.SessionsStepAccounts`: with the
  arms as written they state only `<=`, because the code drops three kinds of ended session
  without an event (see Findings).

## Findings

| source | as written | input that shows it | evidently intended | confidence | as-written member | corrected member |
|---|---|---|---|---|---|---|
| source/gosling/src/gosling.rs:1829-1843 | a HandshakeRejected from an identity server drops the session after printing, with no ContextEvent although IdentityServerHandshakeRejected exists | an identity server whose update returns `HandshakeRejected` (e.g. client not allowed) | push IdentityServerHandshakeRejected with the handle and the five flags | not executed | GoslingContext.IdentityServerRejectionUnreported | GoslingContext.IdentityServerOutcome |
| source/gosling/src/gosling.rs:1878-1881 | a failed endpoint client is dropped after printing, with no ContextEvent although EndpointClientHandshakeFailed exists | an endpoint client whose update returns `Err` (e.g. non-empty verification reply) | push EndpointClientHandshakeFailed with the handle and reason | not executed | GoslingContext.EndpointClientFailureUnreported | GoslingContext.EndpointClientOutcome |
| source/gosling/src/gosling.rs:1936 | a failed endpoint server (`Err(_) => true`) is dropped with no ContextEvent although EndpointServerRequestFailed exists | an endpoint server whose RPC update fails | push EndpointServerRequestFailed with the handle and reason | not executed | GoslingContext.UpdateDropsFailedServerSilently | GoslingContext.EndpointServerOutcome |

`UpdateStep`, `SessionsStep` and the per-session ticks take the arms of the three `match`es as
a parameter. `AsWritten` is the code as written, and `GoslingContext.Context.Update` and
`GoslingContext.Context.UpdateSessions` compute it. `Intended` is the corrected update: there
`GoslingContext.UpdateReportsEndedSessions` proves that sessions kept plus terminal events
returned equals the sessions there were, so every dropped session is reported. With the arms as
written, `GoslingContext.UpdateDropsFailedServerSilently` exhibits a consistent Context whose
update removes its only session and returns no event.
