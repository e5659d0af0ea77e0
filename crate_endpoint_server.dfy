/**
 * The endpoint server of the gosling crate (crates/gosling/src/endpoint_server.rs), the newer
 * version of the endpoint handshake's server side.
 *
 * Unlike the older server it asks its owner about the requested channel: update reports
 * ChannelRequestReceived, the owner answers with handle_channel_request_received, and only
 * then is the server cookie generated and sent back (through next_result). The handshake
 * succeeds exactly when three flags hold: the caller is the allowed client, the owner accepted
 * the channel, and the proof signature verifies; otherwise HandshakeRejected reports the flags.
 *
 * The pure step functions are the specification; the class EndpointServer holds the source's
 * fields and its methods are proved to follow them.
 */
module CrateEndpointServer {
  import opened Types
  import opened ClientProof

  datatype State =
    | WaitingForBeginHandshake
    | ValidatingChannelRequest
    | ChannelRequestValidated
    | WaitingForSendResponse
    | HandledSendResponse
    | HandshakeComplete

  datatype Event =
    | ChannelRequestReceived(requestedChannel: AsciiString)
    | HandshakeCompleted(clientServiceId: ServiceId, channelName: AsciiString)
    | HandshakeRejected(clientAllowed: bool, clientRequestedChannelValid: bool, clientProofSignatureValid: bool)
  {
    predicate Terminal() {
      HandshakeCompleted? || HandshakeRejected?
    }
  }

  /** The fields that never change after construction. */
  datatype Config = Config(crypto: Crypto, serverIdentity: ServiceId, allowedClientIdentity: ServiceId)

  /** The state machine's fields. */
  datatype Fields = Fields(
    state: State,
    beginHandshakeRequestCookie: Option<RequestCookie>,
    clientIdentity: Option<ServiceId>,
    requestedChannel: Option<AsciiString>,
    serverCookie: Option<Cookie>,
    handshakeSucceeded: Option<bool>,
    clientAllowed: bool,
    clientRequestedChannelValid: bool,
    clientProofSignatureValid: bool)
  {
    /** All three verification flags hold. */
    predicate AllFlags() {
      clientAllowed && clientRequestedChannelValid && clientProofSignatureValid
    }

    predicate Requested() {
      beginHandshakeRequestCookie.Some? && clientIdentity.Some? && requestedChannel.Some?
    }
  }

  /** The channel flag starts out true; the owner's answer overwrites it. */
  const Initial: Fields := Fields(WaitingForBeginHandshake, None, None, None, None, None, false, true, false)

  /** How many events a server in this state has reported so far. */
  function Phase(s: State): nat {
    match s
    case WaitingForBeginHandshake => 0
    case ValidatingChannelRequest => 1
    case ChannelRequestValidated => 1
    case WaitingForSendResponse => 1
    case HandledSendResponse => 1
    case HandshakeComplete => 2
  }

  /**
   * The field combinations every operation keeps. Before send_response the proof flag is still
   * false; after it the recorded verdict is exactly the conjunction of the three flags, and
   * the allowed flag says whether the requesting client is the allowed one.
   */
  predicate Valid(c: Config, f: Fields) {
    && (f.clientIdentity.Some? ==> f.beginHandshakeRequestCookie.Some?)
    && (f.requestedChannel.Some? ==> f.clientIdentity.Some?)
    && (f.serverCookie.Some? ==> f.clientAllowed == (f.clientIdentity == Some(c.allowedClientIdentity)))
    && match f.state
      case WaitingForBeginHandshake =>
        f.serverCookie.None? && f.handshakeSucceeded.None? && !f.clientProofSignatureValid
      case ValidatingChannelRequest =>
        f.Requested() && f.serverCookie.None? && f.handshakeSucceeded.None? && !f.clientProofSignatureValid
      case ChannelRequestValidated =>
        f.Requested() && f.serverCookie.Some? && f.handshakeSucceeded.None? && !f.clientProofSignatureValid
      case WaitingForSendResponse =>
        f.Requested() && f.serverCookie.Some? && f.handshakeSucceeded.None? && !f.clientProofSignatureValid
      case HandledSendResponse =>
        f.Requested() && f.serverCookie.Some? && f.handshakeSucceeded == Some(f.AllFlags())
      case HandshakeComplete =>
        f.Requested() && f.serverCookie.Some? && f.handshakeSucceeded == Some(f.AllFlags())
  }

  //
  // update
  //

  /** The match of endpoint_server.rs EndpointServer::update, after the RPC session's update. */
  function EventStep(f: Fields): (r: (Fields, Result<Option<Event>, Fault>))
    ensures r.1.Err? ==> r.1.error == InvalidState && r.0 == f
    ensures r.1 == Ok(None) ==> r.0 == f
    ensures r.1.Ok? && r.1.value.Some? ==> r.0 == f.(state := r.0.state)
    ensures r.1.Ok? && r.1.value.Some? && r.1.value.value.ChannelRequestReceived? ==>
              f.state == WaitingForBeginHandshake && r.0.state == ValidatingChannelRequest
              && f.requestedChannel == Some(r.1.value.value.requestedChannel)
    ensures r.1.Ok? && r.1.value.Some? && r.1.value.value.Terminal() ==>
              f.state == HandledSendResponse && r.0.state == HandshakeComplete
              && (r.1.value.value.HandshakeCompleted? <==> f.handshakeSucceeded == Some(true))
    ensures r.1.Ok? && r.1.value.Some? && r.1.value.value.HandshakeCompleted? ==>
              f.clientIdentity == Some(r.1.value.value.clientServiceId)
              && f.requestedChannel == Some(r.1.value.value.channelName)
    ensures r.1.Ok? && r.1.value.Some? && r.1.value.value.HandshakeRejected? ==>
              r.1.value.value == HandshakeRejected(f.clientAllowed, f.clientRequestedChannelValid, f.clientProofSignatureValid)
  {
    match (f.state, f.beginHandshakeRequestCookie, f.clientIdentity, f.requestedChannel, f.serverCookie,
           f.handshakeSucceeded)
    case (WaitingForBeginHandshake, None, None, None, None, None) => (f, Ok(None))
    case (WaitingForBeginHandshake, Some(_), Some(_), Some(channel), None, None) =>
      (f.(state := ValidatingChannelRequest), Ok(Some(ChannelRequestReceived(channel))))
    case (ValidatingChannelRequest, Some(_), Some(_), Some(_), None, None) => (f, Ok(None))
    case (ChannelRequestValidated, Some(_), Some(_), Some(_), Some(_), None) => (f, Ok(None))
    case (WaitingForSendResponse, Some(_), Some(_), Some(_), Some(_), None) => (f, Ok(None))
    case (HandledSendResponse, Some(_), Some(identity), Some(channel), Some(_), Some(succeeded)) =>
      if succeeded then (f.(state := HandshakeComplete), Ok(Some(HandshakeCompleted(identity, channel))))
      else
        (f.(state := HandshakeComplete),
         Ok(Some(HandshakeRejected(f.clientAllowed, f.clientRequestedChannelValid, f.clientProofSignatureValid))))
    case _ => (f, Err(InvalidState))
  }

  //
  // The owner's answer.
  //

  /**
   * endpoint_server.rs handle_channel_request_received: the owner's verdict on the channel, the
   * allow-list check, and a fresh server cookie (supplied here). Only once, and only after
   * ChannelRequestReceived.
   */
  function ChannelRequestStep(c: Config, f: Fields, channelValid: bool, serverCookie: Cookie)
    : (r: (Fields, Result<(), Fault>))
    ensures r.1.Err? ==> r.1.error == IncorrectUsage && r.0 == f
    ensures r.1.Ok? <==> f.state == ValidatingChannelRequest && f.Requested() && f.serverCookie.None?
                         && f.handshakeSucceeded.None?
    ensures r.1.Ok? ==>
              r.0 == f.(state := ChannelRequestValidated, serverCookie := Some(serverCookie),
                        clientAllowed := f.clientIdentity == Some(c.allowedClientIdentity),
                        clientRequestedChannelValid := channelValid)
  {
    match (f.state, f.beginHandshakeRequestCookie, f.clientIdentity, f.requestedChannel, f.serverCookie,
           f.handshakeSucceeded)
    case (ValidatingChannelRequest, Some(_), Some(identity), Some(_), None, None) =>
      (f.(serverCookie := Some(serverCookie), clientAllowed := identity == c.allowedClientIdentity,
          clientRequestedChannelValid := channelValid, state := ChannelRequestValidated),
       Ok(()))
    case _ => (f, Err(IncorrectUsage))
  }

  //
  // exec_function
  //

  /** begin_handshake: the request cookie, the client's id and the channel are kept as they pass their checks. */
  function BeginHandshakeCall(c: Config, f: Fields, cookie: RequestCookie, args: Document)
    : (Fields, Result<Option<Bson>, ErrorCode>)
  {
    var version := StringArg(Get(args, "version"));
    var identity := StringArg(Get(args, "client_identity"));
    var channel := StringArg(Get(args, "channel"));
    if version.None? || identity.None? || channel.None? then (f, Err(RuntimeError(InvalidArg)))
    else
      var f1 := f.(beginHandshakeRequestCookie := Some(cookie));
      var id := ServiceIdFromString(c.crypto, identity.value);
      if id.None? then (f1, Err(RuntimeError(InvalidArg)))
      else
        var f2 := f1.(clientIdentity := id);
        if !IsAscii(channel.value) then (f2, Err(RuntimeError(InvalidArg)))
        else if version.value != GOSLING_VERSION then (f2, Err(RuntimeError(BadVersion)))
        else (f2.(requestedChannel := Some(channel.value)), Ok(None))
  }

  /**
   * The proof-signature flag after send_response: the ed25519 verdict on the endpoint proof when
   * the client's key can be recovered from its service id, the earlier flag otherwise.
   */
  function ProofFlag(c: Config, f: Fields, clientCookie: Cookie, clientIdentity: ServiceId,
                     signature: Ed25519Signature): bool
    requires f.requestedChannel.Some? && f.serverCookie.Some?
  {
    var key := c.crypto.publicKeyOfServiceId(clientIdentity);
    var proof := BuildClientProof(GoslingEndpoint, f.requestedChannel.value, clientIdentity, c.serverIdentity,
                                  clientCookie, f.serverCookie.value);
    if key.Some? then c.crypto.ed25519Verify(signature, proof.value, key.value) else f.clientProofSignatureValid
  }

  /** send_response succeeds: the key is recovered, the client is allowed, the channel valid, and the proof verifies. */
  predicate ProofAccepted(c: Config, f: Fields, clientCookie: Cookie, clientIdentity: ServiceId,
                          signature: Ed25519Signature)
    requires f.requestedChannel.Some? && f.serverCookie.Some?
  {
    var key := c.crypto.publicKeyOfServiceId(clientIdentity);
    var proof := BuildClientProof(GoslingEndpoint, f.requestedChannel.value, clientIdentity, c.serverIdentity,
                                  clientCookie, f.serverCookie.value);
    && key.Some? && f.clientAllowed && f.clientRequestedChannelValid
    && c.crypto.ed25519Verify(signature, proof.value, key.value)
  }

  /**
   * endpoint_server.rs handle_send_response: the proof signature is checked when the client's
   * key can be recovered (the flag stays as it was otherwise), and the verdict is the
   * conjunction of the three flags.
   */
  function HandleSendResponseStep(c: Config, f: Fields, clientCookie: Cookie, clientIdentity: ServiceId,
                                  signature: Ed25519Signature): (r: (Fields, Result<Bson, GoslingError>))
    requires f.requestedChannel.Some? && f.serverCookie.Some?
    ensures r.0.state == HandledSendResponse && r.0.handshakeSucceeded == Some(r.1.Ok?)
    ensures r.1.Ok? ==> r.0.AllFlags() && r.1.value == BDocument(map[])
    ensures !f.clientProofSignatureValid ==> (r.1.Ok? <==> r.0.AllFlags())
    ensures r.1.Err? ==> r.1.error == Failure
    ensures r.0 == f.(clientProofSignatureValid := ProofFlag(c, f, clientCookie, clientIdentity, signature),
                      handshakeSucceeded := Some(r.1.Ok?), state := HandledSendResponse)
    ensures r.1.Ok? <==> ProofAccepted(c, f, clientCookie, clientIdentity, signature)
  {
    var key := c.crypto.publicKeyOfServiceId(clientIdentity);
    if key.None? then
      (f.(handshakeSucceeded := Some(false), state := HandledSendResponse), Err(Failure))
    else
      var proof := BuildClientProof(GoslingEndpoint, f.requestedChannel.value, clientIdentity, c.serverIdentity,
                                    clientCookie, f.serverCookie.value);
      var f1 := f.(clientProofSignatureValid := c.crypto.ed25519Verify(signature, proof.value, key.value));
      if f1.AllFlags() then
        (f1.(handshakeSucceeded := Some(true), state := HandledSendResponse), Ok(BDocument(map[])))
      else
        (f1.(handshakeSucceeded := Some(false), state := HandledSendResponse), Err(Failure))
  }

  /** The two send_response arguments, each of the type the server expects. */
  datatype SendResponseArgs = SendResponseArgs(clientCookie: seq<byte>, proofSignature: seq<byte>)

  function GetSendResponseArgs(args: Document): Option<SendResponseArgs> {
    var clientCookie := GenericBinary(Get(args, "client_cookie"));
    var signature := GenericBinary(Get(args, "client_identity_proof_signature"));
    if clientCookie.None? || signature.None? then None
    else Some(SendResponseArgs(clientCookie.value, signature.value))
  }

  /**
   * send_response: InvalidArg, changing nothing, unless both arguments are present with a 32-byte
   * cookie and a well-formed signature; otherwise handle_send_response decides.
   */
  function SendResponseCall(c: Config, f: Fields, args: Document): (r: (Fields, Result<Option<Bson>, ErrorCode>))
    requires f.clientIdentity.Some? && f.requestedChannel.Some? && f.serverCookie.Some?
    ensures var a := GetSendResponseArgs(args);
      && (r.1 == Err(RuntimeError(InvalidArg)) <==>
            a.None? || |a.value.clientCookie| != CLIENT_COOKIE_SIZE
            || |a.value.proofSignature| != ED25519_SIGNATURE_SIZE
            || !c.crypto.signatureFromRaw(a.value.proofSignature))
      && (r.1 == Err(RuntimeError(InvalidArg)) ==> r.0 == f)
      && (r.1 != Err(RuntimeError(InvalidArg)) ==>
            && (r.1.Ok? ==> r.1 == Ok(Some(BDocument(map[]))))
            && (r.1.Err? ==> r.1 == Err(RuntimeError(Failure)))
            && var cookie: Cookie := a.value.clientCookie;
            var signature := Ed25519Signature(a.value.proofSignature);
            && r.0 == f.(clientProofSignatureValid := ProofFlag(c, f, cookie, f.clientIdentity.value, signature),
                         handshakeSucceeded := Some(r.1.Ok?), state := HandledSendResponse)
            && (r.1.Ok? <==> ProofAccepted(c, f, cookie, f.clientIdentity.value, signature)))
  {
    var a := GetSendResponseArgs(args);
    if a.None? || |a.value.clientCookie| != CLIENT_COOKIE_SIZE then (f, Err(RuntimeError(InvalidArg)))
    else if |a.value.proofSignature| != ED25519_SIGNATURE_SIZE || !c.crypto.signatureFromRaw(a.value.proofSignature)
    then (f, Err(RuntimeError(InvalidArg)))
    else
      var (g, r) := HandleSendResponseStep(c, f, a.value.clientCookie, f.clientIdentity.value,
                                           Ed25519Signature(a.value.proofSignature));
      (g, if r.Ok? then Ok(Some(r.value)) else Err(RuntimeError(r.error)))
  }

  predicate AcceptsBeginHandshake(f: Fields) {
    f.state == WaitingForBeginHandshake && f.clientIdentity.None? && f.requestedChannel.None?
  }

  predicate AcceptsSendResponse(f: Fields) {
    f.state == WaitingForSendResponse && f.clientIdentity.Some? && f.requestedChannel.Some?
  }

  /**
   * endpoint_server.rs EndpointServer::exec_function. A call the server is not ready for is
   * answered with no value and changes nothing; only send_response changes the state.
   */
  function ExecFunctionStep(c: Config, f: Fields, name: string, version: int, args: Document,
                            requestCookie: Option<RequestCookie>): (r: (Fields, Result<Option<Bson>, ErrorCode>))
    requires Valid(c, f)
    ensures requestCookie.None? ==> r == (f, Err(RuntimeError(RequestCookieRequired)))
    ensures (requestCookie.Some? && !(name == "begin_handshake" && version == 0 && AcceptsBeginHandshake(f))
             && !(name == "send_response" && version == 0 && AcceptsSendResponse(f))) ==>
              r == (f, Ok(None))
    ensures r.0.state == f.state || (f.state == WaitingForSendResponse && r.0.state == HandledSendResponse)
    ensures requestCookie.Some? && name == "begin_handshake" && version == 0 && AcceptsBeginHandshake(f) ==>
              var v := StringArg(Get(args, "version"));
              var identity := StringArg(Get(args, "client_identity"));
              var channel := StringArg(Get(args, "channel"));
              var missing := v.None? || identity.None? || channel.None?;
              var invalid := missing || ServiceIdFromString(c.crypto, identity.value).None? || !IsAscii(channel.value);
              && (missing ==> r == (f, Err(RuntimeError(InvalidArg))))
              && (r.1 == Err(RuntimeError(InvalidArg)) <==> invalid)
              && (!invalid && v.value != GOSLING_VERSION ==>
                    r.1 == Err(RuntimeError(BadVersion)) && r.0.requestedChannel.None?)
              && (r.1.Ok? <==> !invalid && v.value == GOSLING_VERSION)
              && (r.1.Ok? ==>
                    && r.1 == Ok(None) && r.0.requestedChannel.Some? && r.0.requestedChannel.value == channel.value
                    && r.0 == f.(beginHandshakeRequestCookie := requestCookie,
                                 clientIdentity := ServiceIdFromString(c.crypto, identity.value),
                                 requestedChannel := r.0.requestedChannel))
    ensures requestCookie.Some? && name == "send_response" && version == 0 && AcceptsSendResponse(f) ==>
              var a := GetSendResponseArgs(args);
              && (r.1 == Err(RuntimeError(InvalidArg)) <==>
                    a.None? || |a.value.clientCookie| != CLIENT_COOKIE_SIZE
                    || |a.value.proofSignature| != ED25519_SIGNATURE_SIZE
                    || !c.crypto.signatureFromRaw(a.value.proofSignature))
              && (r.1 == Err(RuntimeError(InvalidArg)) ==> r.0 == f)
              && (r.1 != Err(RuntimeError(InvalidArg)) ==>
                    r.0.state == HandledSendResponse && r.0.handshakeSucceeded == Some(r.1.Ok?)
                    && (r.1.Ok? ==> r.0.AllFlags() && r.1 == Ok(Some(BDocument(map[]))))
                    && (r.1.Err? ==> r.1 == Err(RuntimeError(Failure)))
                    && var cookie: Cookie := a.value.clientCookie;
                    var signature := Ed25519Signature(a.value.proofSignature);
                    && r.0 == f.(clientProofSignatureValid := ProofFlag(c, f, cookie, f.clientIdentity.value, signature),
                                 handshakeSucceeded := Some(r.1.Ok?), state := HandledSendResponse)
                    && (r.1.Ok? <==> ProofAccepted(c, f, cookie, f.clientIdentity.value, signature)))
  {
    if requestCookie.None? then (f, Err(RuntimeError(RequestCookieRequired)))
    else if name == "begin_handshake" && version == 0 && AcceptsBeginHandshake(f) then
      BeginHandshakeCall(c, f, requestCookie.value, args)
    else if name == "send_response" && version == 0 && AcceptsSendResponse(f) then
      SendResponseCall(c, f, args)
    else (f, Ok(None))
  }

  //
  // next_result
  //

  /** endpoint_server.rs EndpointServer::next_result: the begin_handshake reply, once the channel was validated. */
  function NextResultStep(f: Fields): (r: (Fields, Option<Reply>))
    ensures r.1.None? ==> r.0 == f
    ensures r.1.Some? ==>
              f.state == ChannelRequestValidated && r.0 == f.(state := WaitingForSendResponse)
              && f.beginHandshakeRequestCookie.Some? && f.serverCookie.Some?
              && r.1.value == Reply(f.beginHandshakeRequestCookie.value,
                                    Some(BDocument(map["server_cookie" := BBinary(Generic, f.serverCookie.value)])),
                                    Success)
  {
    match (f.state, f.beginHandshakeRequestCookie, f.serverCookie)
    case (ChannelRequestValidated, Some(beginCookie), Some(serverCookie)) =>
      (f.(state := WaitingForSendResponse),
       Some(Reply(beginCookie, Some(BDocument(map["server_cookie" := BBinary(Generic, serverCookie)])), Success)))
    case _ => (f, None)
  }

  //
  // update as a whole
  //

  /** One call the RPC session makes into the server while it updates. */
  datatype Invocation =
    | Call(name: string, version: int, args: Document, requestCookie: Option<RequestCookie>)
    | Poll

  function ServeOne(c: Config, f: Fields, invocation: Invocation): (r: (Fields, Answer))
    requires Valid(c, f)
    ensures Valid(c, r.0)
    ensures Phase(r.0.state) == Phase(f.state)
    ensures f.state == HandledSendResponse || f.state == HandshakeComplete ==> r.0 == f
  {
    match invocation
    case Call(name, version, args, cookie) =>
      ExecFunctionKeepsValid(c, f, name, version, args, cookie);
      var (g, result) := ExecFunctionStep(c, f, name, version, args, cookie);
      (g, CallAnswer(result))
    case Poll =>
      var (g, reply) := NextResultStep(f);
      (g, PollAnswer(reply))
  }

  function ServeRpc(c: Config, f: Fields, invocations: seq<Invocation>): (r: (Fields, seq<Answer>))
    requires Valid(c, f)
    ensures Valid(c, r.0) && |r.1| == |invocations|
    ensures Phase(r.0.state) == Phase(f.state)
    ensures f.state == HandledSendResponse || f.state == HandshakeComplete ==> r.0 == f
    decreases |invocations|
  {
    if invocations == [] then (f, [])
    else
      var (g, answers) := ServeRpc(c, f, invocations[..|invocations| - 1]);
      var (h, answer) := ServeOne(c, g, invocations[|invocations| - 1]);
      (h, answers + [answer])
  }

  datatype Updated = Updated(fields: Fields, answers: seq<Answer>, result: Result<Option<Event>, Fault>)

  /** endpoint_server.rs EndpointServer::update: the RPC session's update, then the next event. */
  function UpdateStep(c: Config, f: Fields, invocations: seq<Invocation>): (u: Updated)
    requires Valid(c, f)
    ensures Valid(c, u.fields) && |u.answers| == |invocations|
  {
    var (g, answers) := ServeRpc(c, f, invocations);
    EventStepKeepsValid(c, g);
    var (h, r) := EventStep(g);
    Updated(h, answers, r)
  }

  //
  // Properties of single steps.
  //

  lemma ValidInitial(c: Config)
    ensures Valid(c, Initial)
  {
  }

  lemma ExecFunctionKeepsValid(c: Config, f: Fields, name: string, version: int, args: Document,
                               requestCookie: Option<RequestCookie>)
    requires Valid(c, f)
    ensures Valid(c, ExecFunctionStep(c, f, name, version, args, requestCookie).0)
  {
  }

  lemma EventStepKeepsValid(c: Config, f: Fields)
    requires Valid(c, f)
    ensures Valid(c, EventStep(f).0)
  {
  }

  lemma ChannelRequestKeepsValid(c: Config, f: Fields, channelValid: bool, serverCookie: Cookie)
    requires Valid(c, f)
    ensures Valid(c, ChannelRequestStep(c, f, channelValid, serverCookie).0)
  {
  }

  /**
   * A begin_handshake with the wrong version is refused with BadVersion; the fields it left
   * behind make the next update fail with InvalidState, which ends the session.
   */
  lemma BadVersionEndsSession(c: Config, f: Fields, cookie: RequestCookie, args: Document)
    requires Valid(c, f) && AcceptsBeginHandshake(f) && f.beginHandshakeRequestCookie.None?
    requires "version" in args && args["version"].BString? && args["version"].str != GOSLING_VERSION
    requires "client_identity" in args && args["client_identity"].BString?
    requires ServiceIdFromString(c.crypto, args["client_identity"].str).Some?
    requires "channel" in args && args["channel"].BString? && IsAscii(args["channel"].str)
    ensures var r := ExecFunctionStep(c, f, "begin_handshake", 0, args, Some(cookie));
      r.1 == Err(RuntimeError(BadVersion)) && EventStep(r.0).1 == Err(InvalidState)
  {
  }

  /** The owner may answer a channel request only once. */
  lemma ChannelRequestOnlyOnce(c: Config, f: Fields, valid1: bool, cookie1: Cookie, valid2: bool, cookie2: Cookie)
    requires ChannelRequestStep(c, f, valid1, cookie1).1.Ok?
    ensures var g := ChannelRequestStep(c, f, valid1, cookie1).0;
      ChannelRequestStep(c, g, valid2, cookie2) == (g, Err(IncorrectUsage))
  {
  }

  /**
   * After send_response the next update ends the handshake: HandshakeCompleted for the client
   * and channel of the request when the three flags hold, HandshakeRejected with them otherwise.
   */
  lemma HandledEndsHandshake(c: Config, f: Fields)
    requires Valid(c, f) && f.state == HandledSendResponse
    ensures var (g, r) := EventStep(f);
      g.state == HandshakeComplete && r.Ok? && r.value.Some? && r.value.value.Terminal()
      && (r.value.value.HandshakeCompleted? <==> f.AllFlags())
      && (r.value.value.HandshakeCompleted? ==>
            r.value.value == HandshakeCompleted(f.clientIdentity.value, f.requestedChannel.value)
            && f.clientIdentity.value == c.allowedClientIdentity)
      && (r.value.value.HandshakeRejected? ==>
            r.value.value == HandshakeRejected(f.clientAllowed, f.clientRequestedChannelValid,
                                               f.clientProofSignatureValid))
  {
  }

  /** An update reports an event exactly when the phase advances. */
  lemma UpdateEvents(c: Config, f: Fields, invocations: seq<Invocation>)
    requires Valid(c, f)
    ensures var u := UpdateStep(c, f, invocations);
      u.result.Ok? && u.result.value.Some? ==>
        Phase(u.fields.state) == Phase(f.state) + 1
        && (u.result.value.value.ChannelRequestReceived? <==> Phase(u.fields.state) == 1)
        && (u.result.value.value.Terminal() <==> Phase(u.fields.state) == 2)
        && (u.result.value.value.HandshakeCompleted? ==>
              u.fields.AllFlags() && u.result.value.value.clientServiceId == c.allowedClientIdentity)
        && (u.result.value.value.HandshakeRejected? ==> !u.fields.AllFlags())
    ensures var u := UpdateStep(c, f, invocations);
      !(u.result.Ok? && u.result.value.Some?) ==>
        Phase(u.fields.state) == Phase(f.state) && (f.state == HandshakeComplete ==> u.fields == f)
  {
    var g := ServeRpc(c, f, invocations).0;
    if g.state == HandledSendResponse {
      HandledEndsHandshake(c, g);
    }
  }

  //
  // Whole runs.
  //

  datatype Action =
    | Update(invocations: seq<Invocation>)
    | HandleChannelRequestReceived(channelValid: bool, serverCookie: Cookie)

  /**
   * The server after a sequence of calls. A failed update ends the run (the session is
   * dropped); a refused channel answer changes nothing and the run goes on.
   */
  datatype Run = Run(fields: Fields, events: seq<Event>, failed: bool)

  function Next(c: Config, before: Run, a: Action): (run: Run)
    requires Valid(c, before.fields)
    ensures Valid(c, run.fields)
  {
    if before.failed then before
    else
      match a
      case Update(invocations) =>
        var u := UpdateStep(c, before.fields, invocations);
        if u.result.Err? then Run(u.fields, before.events, true)
        else if u.result.value.None? then Run(u.fields, before.events, false)
        else Run(u.fields, before.events + [u.result.value.value], false)
      case HandleChannelRequestReceived(valid, cookie) =>
        ChannelRequestKeepsValid(c, before.fields, valid, cookie);
        var (g, _) := ChannelRequestStep(c, before.fields, valid, cookie);
        Run(g, before.events, false)
  }

  function RunFrom(c: Config, actions: seq<Action>): (run: Run)
    ensures Valid(c, run.fields)
    decreases |actions|
  {
    if actions == [] then ValidInitial(c); Run(Initial, [], false)
    else Next(c, RunFrom(c, actions[..|actions| - 1]), actions[|actions| - 1])
  }

  /**
   * The events of a run: a channel request and then one verdict, as many as the phase says;
   * the verdict is HandshakeCompleted, for the allowed client, exactly when all three flags hold.
   */
  predicate Ordered(c: Config, run: Run) {
    && |run.events| == Phase(run.fields.state)
    && (|run.events| >= 1 ==> run.events[0].ChannelRequestReceived?)
    && (|run.events| == 2 ==> run.events[1].Terminal())
    && (|run.events| == 2 ==> (run.events[1].HandshakeCompleted? <==> run.fields.AllFlags()))
    && (|run.events| == 2 && run.events[1].HandshakeCompleted? ==>
          run.events[1].clientServiceId == c.allowedClientIdentity)
  }

  lemma NextKeepsOrdered(c: Config, before: Run, a: Action)
    requires Valid(c, before.fields) && Ordered(c, before)
    ensures Ordered(c, Next(c, before, a))
  {
    if !before.failed && a.Update? {
      UpdateEvents(c, before.fields, a.invocations);
    }
  }

  lemma {:induction false} RunEventsInOrder(c: Config, actions: seq<Action>)
    ensures Ordered(c, RunFrom(c, actions))
    decreases |actions|
  {
    if actions != [] {
      RunEventsInOrder(c, actions[..|actions| - 1]);
      NextKeepsOrdered(c, RunFrom(c, actions[..|actions| - 1]), actions[|actions| - 1]);
    }
  }

  //
  // The object.
  //

  class EndpointServer {
    const crypto: Crypto
    const serverIdentity: ServiceId
    const allowedClientIdentity: ServiceId

    var state: State
    var beginHandshakeRequestCookie: Option<RequestCookie>
    var clientIdentity: Option<ServiceId>
    var requestedChannel: Option<AsciiString>
    var serverCookie: Option<Cookie>
    var handshakeSucceeded: Option<bool>
    var clientAllowed: bool
    var clientRequestedChannelValid: bool
    var clientProofSignatureValid: bool

    function Settings(): Config {
      Config(crypto, serverIdentity, allowedClientIdentity)
    }

    function Snapshot(): Fields
      reads this
    {
      Fields(state, beginHandshakeRequestCookie, clientIdentity, requestedChannel, serverCookie, handshakeSucceeded,
             clientAllowed, clientRequestedChannelValid, clientProofSignatureValid)
    }

    constructor (crypto: Crypto, clientIdentity: ServiceId, serverIdentity: ServiceId)
      ensures Settings() == Config(crypto, serverIdentity, clientIdentity) && Snapshot() == Initial
    {
      this.crypto := crypto;
      this.serverIdentity := serverIdentity;
      this.allowedClientIdentity := clientIdentity;
      state := WaitingForBeginHandshake;
      beginHandshakeRequestCookie := None;
      requestedChannel := None;
      this.clientIdentity := None;
      serverCookie := None;
      handshakeSucceeded := None;
      clientAllowed := false;
      clientRequestedChannelValid := true;
      clientProofSignatureValid := false;
    }

    method Update(invocations: seq<Invocation>) returns (answers: seq<Answer>, r: Result<Option<Event>, Fault>)
      requires Valid(Settings(), Snapshot())
      modifies this
      ensures Updated(Snapshot(), answers, r) == UpdateStep(Settings(), old(Snapshot()), invocations)
    {
      answers := ServeAll(invocations);
      r := ReportEvent();
    }

    /** The RPC session's update: its invocations, in order. */
    method ServeAll(invocations: seq<Invocation>) returns (answers: seq<Answer>)
      requires Valid(Settings(), Snapshot())
      modifies this
      ensures (Snapshot(), answers) == ServeRpc(Settings(), old(Snapshot()), invocations)
    {
      answers := [];
      var i := 0;
      while i < |invocations|
        invariant 0 <= i <= |invocations|
        invariant (Snapshot(), answers) == ServeRpc(Settings(), old(Snapshot()), invocations[..i])
      {
        assert invocations[..i + 1][..i] == invocations[..i];
        var answer := Serve(invocations[i]);
        answers := answers + [answer];
        i := i + 1;
      }
      assert invocations[..i] == invocations;
    }

    method Serve(invocation: Invocation) returns (answer: Answer)
      requires Valid(Settings(), Snapshot())
      modifies this
      ensures (Snapshot(), answer) == ServeOne(Settings(), old(Snapshot()), invocation)
    {
      match invocation {
        case Call(name, version, args, cookie) =>
          var result := ExecFunction(name, version, args, cookie);
          answer := CallAnswer(result);
        case Poll =>
          var reply := NextResult();
          answer := PollAnswer(reply);
      }
    }

    /** The match at the end of update. */
    method ReportEvent() returns (r: Result<Option<Event>, Fault>)
      modifies this
      ensures (Snapshot(), r) == EventStep(old(Snapshot()))
    {
      match (state, beginHandshakeRequestCookie, clientIdentity, requestedChannel, serverCookie, handshakeSucceeded) {
        case (WaitingForBeginHandshake, None, None, None, None, None) =>
        case (WaitingForBeginHandshake, Some(_), Some(_), Some(channel), None, None) =>
          state := ValidatingChannelRequest;
          return Ok(Some(ChannelRequestReceived(channel)));
        case (ValidatingChannelRequest, Some(_), Some(_), Some(_), None, None) =>
        case (ChannelRequestValidated, Some(_), Some(_), Some(_), Some(_), None) =>
        case (WaitingForSendResponse, Some(_), Some(_), Some(_), Some(_), None) =>
        case (HandledSendResponse, Some(_), Some(identity), Some(channel), Some(_), Some(succeeded)) =>
          state := HandshakeComplete;
          if succeeded {
            return Ok(Some(HandshakeCompleted(identity, channel)));
          } else {
            return Ok(Some(HandshakeRejected(clientAllowed, clientRequestedChannelValid, clientProofSignatureValid)));
          }
        case _ =>
          return Err(InvalidState);
      }
      return Ok(None);
    }

    method HandleBeginHandshake(version: string, channel: AsciiString) returns (r: Result<(), GoslingError>)
      modifies this`requestedChannel
      ensures r.Ok? <==> version == GOSLING_VERSION
      ensures r.Err? ==> r.error == BadVersion && requestedChannel == old(requestedChannel)
      ensures r.Ok? ==> requestedChannel == Some(channel)
    {
      if version != GOSLING_VERSION {
        return Err(BadVersion);
      }
      requestedChannel := Some(channel);
      return Ok(());
    }

    /** The server cookie is the random number generator's output, a parameter here. */
    method HandleChannelRequestReceived(channelValid: bool, cookie: Cookie) returns (r: Result<(), Fault>)
      modifies this
      ensures (Snapshot(), r) == ChannelRequestStep(Settings(), old(Snapshot()), channelValid, cookie)
    {
      match (state, beginHandshakeRequestCookie, clientIdentity, requestedChannel, serverCookie, handshakeSucceeded) {
        case (ValidatingChannelRequest, Some(_), Some(identity), Some(_), None, None) =>
          serverCookie := Some(cookie);
          clientAllowed := identity == allowedClientIdentity;
          clientRequestedChannelValid := channelValid;
          state := ChannelRequestValidated;
          return Ok(());
        case _ =>
          return Err(IncorrectUsage);
      }
    }

    method HandleSendResponse(clientCookie: Cookie, identity: ServiceId, signature: Ed25519Signature)
      returns (r: Result<Bson, GoslingError>)
      requires requestedChannel.Some? && serverCookie.Some?
      modifies this
      ensures (Snapshot(), r) == HandleSendResponseStep(Settings(), old(Snapshot()), clientCookie, identity, signature)
    {
      var key := crypto.publicKeyOfServiceId(identity);
      if key.Some? {
        var proof := BuildClientProof(GoslingEndpoint, requestedChannel.value, identity, serverIdentity,
                                      clientCookie, serverCookie.value);
        clientProofSignatureValid := crypto.ed25519Verify(signature, proof.value, key.value);
        if clientAllowed && clientRequestedChannelValid && clientProofSignatureValid {
          handshakeSucceeded := Some(true);
          state := HandledSendResponse;
          return Ok(BDocument(map[]));
        }
      }
      handshakeSucceeded := Some(false);
      state := HandledSendResponse;
      return Err(Failure);
    }

    method ExecFunction(name: string, version: int, args: Document, requestCookie: Option<RequestCookie>)
      returns (r: Result<Option<Bson>, ErrorCode>)
      requires Valid(Settings(), Snapshot())
      modifies this
      ensures (Snapshot(), r) == ExecFunctionStep(Settings(), old(Snapshot()), name, version, args, requestCookie)
    {
      if requestCookie.None? {
        return Err(RuntimeError(RequestCookieRequired));
      }
      if name == "begin_handshake" && version == 0 && AcceptsBeginHandshake(Snapshot()) {
        r := ExecBeginHandshake(requestCookie.value, args);
      } else if name == "send_response" && version == 0 && AcceptsSendResponse(Snapshot()) {
        r := ExecSendResponse(args);
      } else {
        r := Ok(None);
      }
    }

    method ExecBeginHandshake(cookie: RequestCookie, args: Document) returns (r: Result<Option<Bson>, ErrorCode>)
      modifies this
      ensures (Snapshot(), r) == BeginHandshakeCall(Settings(), old(Snapshot()), cookie, args)
    {
      var versionArg := StringArg(Get(args, "version"));
      var identityArg := StringArg(Get(args, "client_identity"));
      var channelArg := StringArg(Get(args, "channel"));
      if versionArg.None? || identityArg.None? || channelArg.None? {
        return Err(RuntimeError(InvalidArg));
      }
      beginHandshakeRequestCookie := Some(cookie);
      var identity := ServiceIdFromString(crypto, identityArg.value);
      if identity.None? {
        return Err(RuntimeError(InvalidArg));
      }
      clientIdentity := identity;
      if !IsAscii(channelArg.value) {
        return Err(RuntimeError(InvalidArg));
      }
      var handled := HandleBeginHandshake(versionArg.value, channelArg.value);
      if handled.Err? {
        return Err(RuntimeError(handled.error));
      }
      return Ok(None);
    }

    method ExecSendResponse(args: Document) returns (r: Result<Option<Bson>, ErrorCode>)
      requires Valid(Settings(), Snapshot()) && AcceptsSendResponse(Snapshot())
      modifies this
      ensures (Snapshot(), r) == SendResponseCall(Settings(), old(Snapshot()), args)
    {
      var a := GetSendResponseArgs(args);
      if a.None? || |a.value.clientCookie| != CLIENT_COOKIE_SIZE {
        return Err(RuntimeError(InvalidArg));
      }
      if |a.value.proofSignature| != ED25519_SIGNATURE_SIZE || !crypto.signatureFromRaw(a.value.proofSignature) {
        return Err(RuntimeError(InvalidArg));
      }
      var handled := HandleSendResponse(a.value.clientCookie, clientIdentity.value,
                                        Ed25519Signature(a.value.proofSignature));
      r := if handled.Ok? then Ok(Some(handled.value)) else Err(RuntimeError(handled.error));
    }

    method NextResult() returns (r: Option<Reply>)
      modifies this
      ensures (Snapshot(), r) == NextResultStep(old(Snapshot()))
    {
      match (state, beginHandshakeRequestCookie, serverCookie) {
        case (ChannelRequestValidated, Some(beginCookie), Some(sc)) =>
          state := WaitingForSendResponse;
          return Some(Reply(beginCookie, Some(BDocument(map["server_cookie" := BBinary(Generic, sc)])), Success));
        case _ =>
          return None;
      }
    }
  }
}
