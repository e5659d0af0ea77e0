/**
 * The server side of the identity handshake (gosling.rs IdentityServer).
 *
 * The RPC layer drives the server through exec_function (a client's begin_handshake or
 * send_response call) and next_result (the deferred reply to that call); the owner answers
 * the events update reports with send_challenge and send_challenge_verification. A client is
 * granted an endpoint only when all five verification flags hold.
 *
 * The pure step functions are the specification; the class IdentityServer holds the source's
 * fields and its methods are proved to follow them.
 */
module IdentityServer {
  import opened Types
  import opened ClientProof

  datatype State =
    | WaitingForBeginHandshake
    | GettingChallenge
    | ChallengeReady
    | WaitingForSendResponse
    | GettingChallengeVerification
    | ChallengeVerificationReady
    | ChallengeVerificationResponseSent
    | HandshakeComplete

  datatype Event =
    | EndpointRequestReceived(clientServiceId: ServiceId, requestedEndpoint: string)
    | ChallengeResponseReceived(challengeResponse: Document)
    | HandshakeCompleted(endpointPrivateKey: Ed25519PrivateKey, endpointName: string, clientServiceId: ServiceId,
                         clientAuthPublicKey: X25519PublicKey)
    | HandshakeRejected(clientAllowed: bool, clientRequestedEndpointValid: bool, clientProofSignatureValid: bool,
                        clientAuthSignatureValid: bool, challengeResponseValid: bool)
  {
    predicate Terminal() {
      HandshakeCompleted? || HandshakeRejected?
    }
  }

  /** The fields that never change after construction. */
  datatype Config = Config(crypto: Crypto, serverIdentity: ServiceId)

  /** The state machine's fields; hasRpc is false once the RPC session's update has failed. */
  datatype Fields = Fields(
    hasRpc: bool,
    state: State,
    beginHandshakeRequestCookie: Option<RequestCookie>,
    requestedEndpoint: Option<string>,
    serverCookie: Option<Cookie>,
    endpointChallenge: Option<Document>,
    sendResponseRequestCookie: Option<RequestCookie>,
    clientIdentity: Option<ServiceId>,
    clientAuthKey: Option<X25519PublicKey>,
    challengeResponse: Option<Document>,
    endpointPrivateKey: Option<Ed25519PrivateKey>,
    clientAllowed: bool,
    clientRequestedEndpointValid: bool,
    clientProofSignatureValid: bool,
    clientAuthSignatureValid: bool,
    challengeResponseValid: bool)
  {
    /** All five verification flags hold. */
    predicate AllFlags() {
      clientAllowed && clientRequestedEndpointValid && clientProofSignatureValid && clientAuthSignatureValid
      && challengeResponseValid
    }

    predicate Begun() {
      beginHandshakeRequestCookie.Some? && clientIdentity.Some? && requestedEndpoint.Some?
    }

    predicate Challenged() {
      Begun() && serverCookie.Some? && endpointChallenge.Some?
    }

    predicate Responded() {
      Challenged() && sendResponseRequestCookie.Some? && clientAuthKey.Some? && challengeResponse.Some?
    }
  }

  const Initial: Fields :=
    Fields(true, WaitingForBeginHandshake, None, None, None, None, None, None, None, None, None,
           false, false, false, false, false)

  /** How many events a server in this state has reported so far. */
  function Phase(s: State): nat {
    match s
    case WaitingForBeginHandshake => 0
    case GettingChallenge => 1
    case ChallengeReady => 1
    case WaitingForSendResponse => 1
    case GettingChallengeVerification => 2
    case ChallengeVerificationReady => 2
    case ChallengeVerificationResponseSent => 2
    case HandshakeComplete => 3
  }

  /**
   * The field combinations every operation keeps, whether it succeeds or not. In the last two
   * states an endpoint key exists exactly when all five flags hold.
   */
  predicate Valid(f: Fields) {
    && (f.requestedEndpoint.Some? ==> f.clientIdentity.Some?)
    && (f.clientIdentity.Some? ==> f.beginHandshakeRequestCookie.Some?)
    && match f.state
      case WaitingForBeginHandshake =>
        f.serverCookie.None? && f.endpointChallenge.None? && f.sendResponseRequestCookie.None?
        && f.clientAuthKey.None? && f.challengeResponse.None? && f.endpointPrivateKey.None?
      case GettingChallenge =>
        f.Begun() && f.serverCookie.None? && f.endpointChallenge.None? && f.sendResponseRequestCookie.None?
        && f.clientAuthKey.None? && f.challengeResponse.None? && f.endpointPrivateKey.None?
      case ChallengeReady =>
        f.Challenged() && f.sendResponseRequestCookie.None?
        && f.clientAuthKey.None? && f.challengeResponse.None? && f.endpointPrivateKey.None?
      case WaitingForSendResponse =>
        f.Challenged() && (f.clientAuthKey.Some? <==> f.challengeResponse.Some?)
        && (f.clientAuthKey.Some? ==> f.sendResponseRequestCookie.Some?) && f.endpointPrivateKey.None?
      case GettingChallengeVerification =>
        f.Responded() && f.endpointPrivateKey.None?
      case ChallengeVerificationReady =>
        f.Responded() && f.endpointPrivateKey.None?
      case ChallengeVerificationResponseSent =>
        f.Responded() && (f.endpointPrivateKey.Some? <==> f.AllFlags())
      case HandshakeComplete =>
        f.Responded() && (f.endpointPrivateKey.Some? <==> f.AllFlags())
  }

  /** The fixed shape next_result relies on in ChallengeReady (the source's unreachable arm). */
  predicate ChallengeReadyShape(f: Fields) {
    f.Challenged() && f.sendResponseRequestCookie.None? && f.clientAuthKey.None? && f.challengeResponse.None?
  }

  //
  // update, after the RPC session's own update
  //

  /** The match at the end of gosling.rs IdentityServer::update: the next event, once its fields are in place. */
  function EventStep(f: Fields): (r: (Fields, Option<Event>))
    ensures r.1.None? ==> r.0 == f
    ensures r.1.Some? ==> r.0 == f.(state := r.0.state, challengeResponse := r.0.challengeResponse)
    ensures r.1.Some? && r.1.value.Terminal() ==>
              f.state == ChallengeVerificationResponseSent && r.0.state == HandshakeComplete
    ensures r.1.Some? && r.1.value.EndpointRequestReceived? ==>
              && f.state == WaitingForBeginHandshake && r.0.state == GettingChallenge
              && f.clientIdentity == Some(r.1.value.clientServiceId)
              && f.requestedEndpoint == Some(r.1.value.requestedEndpoint)
    ensures r.1.Some? && r.1.value.ChallengeResponseReceived? ==>
              && f.state == WaitingForSendResponse && r.0.state == GettingChallengeVerification
              && f.challengeResponse == Some(r.1.value.challengeResponse) && r.0.challengeResponse == Some(map[])
    ensures r.1.Some? && r.1.value.HandshakeCompleted? ==>
              && f.endpointPrivateKey == Some(r.1.value.endpointPrivateKey)
              && f.requestedEndpoint == Some(r.1.value.endpointName)
              && f.clientIdentity == Some(r.1.value.clientServiceId)
              && f.clientAuthKey == Some(r.1.value.clientAuthPublicKey)
    ensures r.1.Some? && r.1.value.HandshakeRejected? ==>
              r.1.value == HandshakeRejected(f.clientAllowed, f.clientRequestedEndpointValid,
                                             f.clientProofSignatureValid, f.clientAuthSignatureValid,
                                             f.challengeResponseValid)
  {
    match (f.state, f.beginHandshakeRequestCookie, f.clientIdentity, f.requestedEndpoint, f.serverCookie,
           f.endpointChallenge, f.sendResponseRequestCookie, f.clientAuthKey, f.challengeResponse,
           f.endpointPrivateKey)
    case (WaitingForBeginHandshake, Some(_), Some(identity), Some(endpoint), None, None, None, None, None, None) =>
      (f.(state := GettingChallenge), Some(EndpointRequestReceived(identity, endpoint)))
    case (WaitingForSendResponse, Some(_), Some(_), Some(_), Some(_), Some(_), Some(_), Some(_), Some(response), None) =>
      (f.(state := GettingChallengeVerification, challengeResponse := Some(map[])),
       Some(ChallengeResponseReceived(response)))
    case (ChallengeVerificationResponseSent, Some(_), Some(identity), Some(endpoint), Some(_), Some(_), Some(_),
          Some(authKey), Some(_), Some(key)) =>
      (f.(state := HandshakeComplete), Some(HandshakeCompleted(key, endpoint, identity, authKey)))
    case (ChallengeVerificationResponseSent, Some(_), Some(_), Some(_), Some(_), Some(_), Some(_), Some(_), Some(_), None) =>
      (f.(state := HandshakeComplete),
       Some(HandshakeRejected(f.clientAllowed, f.clientRequestedEndpointValid, f.clientProofSignatureValid,
                              f.clientAuthSignatureValid, f.challengeResponseValid)))
    case _ =>
      (f, None)
  }

  //
  // exec_function
  //

  /** The begin_handshake fields exec_function requires: nothing but the state is set yet. */
  predicate AcceptsBeginHandshake(f: Fields) {
    f.state == WaitingForBeginHandshake && f.beginHandshakeRequestCookie.None? && f.clientIdentity.None?
    && f.requestedEndpoint.None? && f.serverCookie.None? && f.endpointChallenge.None? && f.clientAuthKey.None?
    && f.challengeResponse.None? && f.endpointPrivateKey.None?
  }

  /** The send_response fields exec_function requires: challenged, with no response recorded yet. */
  predicate AcceptsSendResponse(f: Fields) {
    f.state == WaitingForSendResponse && f.Challenged() && f.clientAuthKey.None? && f.challengeResponse.None?
    && f.endpointPrivateKey.None?
  }

  function InvalidArgError(): ErrorCode {
    RuntimeError(InvalidArg)
  }

  /** begin_handshake: the request cookie is kept once the three string arguments are present. */
  function BeginHandshakeCall(c: Config, f: Fields, cookie: RequestCookie, args: Document)
    : (r: (Fields, Result<Option<Bson>, ErrorCode>))
    ensures var v := StringArg(Get(args, "version"));
      var identity := StringArg(Get(args, "client_identity"));
      var endpoint := StringArg(Get(args, "endpoint"));
      var missing := v.None? || identity.None? || endpoint.None?;
      var invalid := missing || ServiceIdFromString(c.crypto, identity.value).None?;
      && (missing ==> r == (f, Err(InvalidArgError())))
      && (r.1 == Err(InvalidArgError()) <==> invalid)
      && (!invalid && v.value != GOSLING_VERSION ==> r.1 == Err(RuntimeError(BadVersion)) && r.0.requestedEndpoint == f.requestedEndpoint)
      && (r.1.Ok? <==> !invalid && v.value == GOSLING_VERSION)
      && (r.1.Ok? ==>
            r.0 == f.(beginHandshakeRequestCookie := Some(cookie),
                      clientIdentity := ServiceIdFromString(c.crypto, identity.value), requestedEndpoint := endpoint))
  {
    var version := StringArg(Get(args, "version"));
    var identity := StringArg(Get(args, "client_identity"));
    var endpoint := StringArg(Get(args, "endpoint"));
    if version.None? || identity.None? || endpoint.None? then (f, Err(InvalidArgError()))
    else
      var f1 := f.(beginHandshakeRequestCookie := Some(cookie));
      var id := ServiceIdFromString(c.crypto, identity.value);
      if id.None? then (f1, Err(InvalidArgError()))
      else
        var f2 := f1.(clientIdentity := id);
        if version.value != GOSLING_VERSION then (f2, Err(RuntimeError(BadVersion)))
        else (f2.(requestedEndpoint := endpoint), Ok(None))
  }

  /**
   * The proof-signature flag after send_response: the ed25519 verdict on the identity proof
   * when the client's key and the proof can both be built, the earlier flag otherwise.
   */
  function ProofFlag(c: Config, f: Fields, clientCookie: Cookie, clientIdentity: ServiceId,
                     proofSignature: Ed25519Signature): bool
    requires f.requestedEndpoint.Some? && f.serverCookie.Some?
  {
    var key := c.crypto.publicKeyOfServiceId(clientIdentity);
    var proof := BuildClientProof(GoslingIdentity, f.requestedEndpoint.value, clientIdentity, c.serverIdentity,
                                  clientCookie, f.serverCookie.value);
    if key.Some? && proof.Ok? then c.crypto.ed25519Verify(proofSignature, proof.value, key.value)
    else f.clientProofSignatureValid
  }

  /**
   * gosling.rs IdentityServer::handle_send_response: evaluates the proof signature (left as it
   * was when the client's key or the proof cannot be built) and the authorization signature.
   */
  function HandleSendResponseStep(c: Config, f: Fields, clientCookie: Cookie, clientIdentity: ServiceId,
                              proofSignature: Ed25519Signature, authKey: X25519PublicKey, signbit: byte,
                              authSignature: Ed25519Signature, challengeResponse: Document): (r: Fields)
    requires f.requestedEndpoint.Some? && f.serverCookie.Some?
    ensures var key := c.crypto.publicKeyOfServiceId(clientIdentity);
      var proof := BuildClientProof(GoslingIdentity, f.requestedEndpoint.value, clientIdentity, c.serverIdentity,
                                    clientCookie, f.serverCookie.value);
      && (key.Some? && proof.Ok? ==>
            r.clientProofSignatureValid == c.crypto.ed25519Verify(proofSignature, proof.value, key.value))
      && (key.None? || proof.Err? ==> r.clientProofSignatureValid == f.clientProofSignatureValid)
    ensures r.clientAuthSignatureValid == c.crypto.x25519Verify(authSignature, ServiceIdBytes(clientIdentity), authKey, signbit)
    ensures r == f.(clientProofSignatureValid := r.clientProofSignatureValid,
                    clientAuthSignatureValid := r.clientAuthSignatureValid,
                    clientAuthKey := Some(authKey), challengeResponse := Some(challengeResponse))
    ensures r.clientProofSignatureValid == ProofFlag(c, f, clientCookie, clientIdentity, proofSignature)
  {
    var identityKey := c.crypto.publicKeyOfServiceId(clientIdentity);
    var proof := BuildClientProof(GoslingIdentity, f.requestedEndpoint.value, clientIdentity, c.serverIdentity,
                                  clientCookie, f.serverCookie.value);
    var f1 := if identityKey.Some? && proof.Ok?
              then f.(clientProofSignatureValid := c.crypto.ed25519Verify(proofSignature, proof.value, identityKey.value))
              else f;
    f1.(clientAuthSignatureValid := c.crypto.x25519Verify(authSignature, ServiceIdBytes(clientIdentity), authKey, signbit),
        clientAuthKey := Some(authKey),
        challengeResponse := Some(challengeResponse))
  }

  /** The six send_response arguments, each of the type the server expects. */
  datatype SendResponseArgs = SendResponseArgs(
    clientCookie: seq<byte>, proofSignature: seq<byte>, authKey: seq<byte>, signbit: bool,
    authSignature: seq<byte>, challengeResponse: Document)

  function GetSendResponseArgs(args: Document): Option<SendResponseArgs> {
    var clientCookie := GenericBinary(Get(args, "client_cookie"));
    var proofSignature := GenericBinary(Get(args, "client_identity_proof_signature"));
    var authKey := GenericBinary(Get(args, "client_authorization_key"));
    var signbit := Get(args, "client_authorization_key_signbit");
    var authSignature := GenericBinary(Get(args, "client_authorization_signature"));
    var response := Get(args, "challenge_response");
    if clientCookie.None? || proofSignature.None? || authKey.None? || signbit.None? || !signbit.value.BBoolean?
       || authSignature.None? || response.None? || !response.value.BDocument?
    then None
    else Some(SendResponseArgs(clientCookie.value, proofSignature.value, authKey.value, signbit.value.b,
                               authSignature.value, response.value.doc))
  }

  /** The size and encoding checks exec_function applies to the send_response arguments. */
  predicate WellFormedSendResponse(c: Config, a: SendResponseArgs) {
    |a.clientCookie| == CLIENT_COOKIE_SIZE
    && |a.proofSignature| == ED25519_SIGNATURE_SIZE && c.crypto.signatureFromRaw(a.proofSignature)
    && |a.authKey| == X25519_PUBLIC_KEY_SIZE
    && |a.authSignature| == ED25519_SIGNATURE_SIZE && c.crypto.signatureFromRaw(a.authSignature)
  }

  /** send_response: the request cookie is kept once the six arguments have the right types. */
  function SendResponseCall(c: Config, f: Fields, cookie: RequestCookie, args: Document)
    : (r: (Fields, Result<Option<Bson>, ErrorCode>))
    requires AcceptsSendResponse(f)
    ensures var a := GetSendResponseArgs(args);
      && (a.None? ==> r == (f, Err(InvalidArgError())))
      && (r.1 == Err(InvalidArgError()) <==> a.None? || !WellFormedSendResponse(c, a.value))
      && (r.1 == Err(InvalidArgError()) && a.Some? ==> r.0 == f.(sendResponseRequestCookie := Some(cookie)))
      && (r.1 != Err(InvalidArgError()) ==>
            && r.1 == Ok(None)
            && r.0 == f.(sendResponseRequestCookie := Some(cookie),
                         clientProofSignatureValid :=
                           ProofFlag(c, f, a.value.clientCookie, f.clientIdentity.value,
                                     Ed25519Signature(a.value.proofSignature)),
                         clientAuthSignatureValid :=
                           c.crypto.x25519Verify(Ed25519Signature(a.value.authSignature),
                                                 ServiceIdBytes(f.clientIdentity.value),
                                                 X25519PublicKey(a.value.authKey), if a.value.signbit then 1 else 0),
                         clientAuthKey := Some(X25519PublicKey(a.value.authKey)),
                         challengeResponse := Some(a.value.challengeResponse)))
    ensures r.0.state == f.state && r.0.hasRpc == f.hasRpc
  {
    var a := GetSendResponseArgs(args);
    if a.None? then (f, Err(InvalidArgError()))
    else
      var f1 := f.(sendResponseRequestCookie := Some(cookie));
      if !WellFormedSendResponse(c, a.value) then (f1, Err(InvalidArgError()))
      else
        var v := a.value;
        (HandleSendResponseStep(c, f1, v.clientCookie, f.clientIdentity.value, Ed25519Signature(v.proofSignature),
                            X25519PublicKey(v.authKey), if v.signbit then 1 else 0,
                            Ed25519Signature(v.authSignature), v.challengeResponse),
         Ok(None))
  }

  /**
   * gosling.rs IdentityServer::exec_function. It never changes the state, never answers a call
   * directly (the answer comes from next_result) and accepts one function per state.
   */
  function ExecFunctionStep(c: Config, f: Fields, name: string, version: int, args: Document,
                            requestCookie: Option<RequestCookie>): (r: (Fields, Result<Option<Bson>, ErrorCode>))
    ensures requestCookie.None? ==> r == (f, Err(RuntimeError(RequestCookieRequired)))
    ensures r.0.state == f.state && r.0.hasRpc == f.hasRpc
    ensures r.1 == Ok(None) || r.1.Err?
    ensures r.1 == Err(RuntimeError(Failure)) <==>
              requestCookie.Some?
              && !(name == "begin_handshake" && version == 0 && AcceptsBeginHandshake(f))
              && !(name == "send_response" && version == 0 && AcceptsSendResponse(f))
    ensures r.1 == Err(RuntimeError(Failure)) ==> r.0 == f
    ensures requestCookie.Some? && name == "begin_handshake" && version == 0 && AcceptsBeginHandshake(f) ==>
              var v := StringArg(Get(args, "version"));
              var identity := StringArg(Get(args, "client_identity"));
              var endpoint := StringArg(Get(args, "endpoint"));
              var missing := v.None? || identity.None? || endpoint.None?;
              var invalid := missing || ServiceIdFromString(c.crypto, identity.value).None?;
              && (missing ==> r == (f, Err(InvalidArgError())))
              && (r.1 == Err(InvalidArgError()) <==> invalid)
              && (!invalid && v.value != GOSLING_VERSION ==>
                    r.1 == Err(RuntimeError(BadVersion)) && r.0.requestedEndpoint.None?)
              && (r.1.Ok? <==> !invalid && v.value == GOSLING_VERSION)
              && (r.1.Ok? ==>
                    r.0 == f.(beginHandshakeRequestCookie := requestCookie,
                              clientIdentity := ServiceIdFromString(c.crypto, identity.value),
                              requestedEndpoint := endpoint))
    ensures requestCookie.Some? && name == "send_response" && version == 0 && AcceptsSendResponse(f) ==>
              var a := GetSendResponseArgs(args);
              && (a.None? ==> r == (f, Err(InvalidArgError())))
              && (r.1 == Err(InvalidArgError()) <==> a.None? || !WellFormedSendResponse(c, a.value))
              && (r.1 == Err(InvalidArgError()) && a.Some? ==> r.0 == f.(sendResponseRequestCookie := requestCookie))
              && (r.1 != Err(InvalidArgError()) ==>
                    && r.1 == Ok(None)
                    && r.0 == f.(sendResponseRequestCookie := requestCookie,
                                 clientProofSignatureValid :=
                                   ProofFlag(c, f, a.value.clientCookie, f.clientIdentity.value,
                                             Ed25519Signature(a.value.proofSignature)),
                                 clientAuthSignatureValid :=
                                   c.crypto.x25519Verify(Ed25519Signature(a.value.authSignature),
                                                         ServiceIdBytes(f.clientIdentity.value),
                                                         X25519PublicKey(a.value.authKey),
                                                         if a.value.signbit then 1 else 0),
                                 clientAuthKey := Some(X25519PublicKey(a.value.authKey)),
                                 challengeResponse := Some(a.value.challengeResponse)))
  {
    if requestCookie.None? then (f, Err(RuntimeError(RequestCookieRequired)))
    else
      var cookie := requestCookie.value;
      match (name, version)
      case ("begin_handshake", 0) =>
        if AcceptsBeginHandshake(f) then BeginHandshakeCall(c, f, cookie, args) else (f, Err(RuntimeError(Failure)))
      case ("send_response", 0) =>
        if AcceptsSendResponse(f) then SendResponseCall(c, f, cookie, args) else (f, Err(RuntimeError(Failure)))
      case _ =>
        (f, Err(RuntimeError(Failure)))
  }

  //
  // next_result
  //

  /**
   * gosling.rs IdentityServer::next_result. An endpoint (the service id of a fresh key) is
   * granted only when all five flags hold; the verification reply is sent whatever they say.
   */
  function NextResultStep(c: Config, f: Fields, endpointKey: Ed25519PrivateKey): (r: (Fields, Option<Reply>))
    requires f.state == ChallengeReady ==> ChallengeReadyShape(f)
    ensures r.1.None? ==> r.0 == f
    ensures r.1.Some? && r.1.value.result.Some? && r.1.value.result.value.BString? ==>
              f.AllFlags() && r.0.endpointPrivateKey == Some(endpointKey)
              && r.1.value.result.value.str == c.crypto.serviceIdOfPrivateKey(endpointKey)
    ensures f.state == ChallengeVerificationReady && f.Responded() && f.endpointPrivateKey.None? ==>
              r.0.state == ChallengeVerificationResponseSent && r.1.Some?
              && r.1.value.cookie == f.sendResponseRequestCookie.value
              && (r.1.value.code == Success <==> f.AllFlags())
              && (r.0.endpointPrivateKey.Some? <==> f.AllFlags())
    ensures f.state == ChallengeVerificationReady && f.Responded() && f.endpointPrivateKey.None? ==>
              && r.0 == f.(state := ChallengeVerificationResponseSent,
                           endpointPrivateKey := if f.AllFlags() then Some(endpointKey) else None)
              && r.1.value.result == (if f.AllFlags() then Some(BString(c.crypto.serviceIdOfPrivateKey(endpointKey))) else None)
              && (!f.AllFlags() ==> r.1.value.code == RuntimeError(Failure))
    ensures f.state == ChallengeReady ==>
              && r.0 == f.(state := WaitingForSendResponse, endpointChallenge := Some(map[]))
              && r.1 == Some(Reply(f.beginHandshakeRequestCookie.value,
                                   Some(BDocument(map["server_cookie" := BBinary(Generic, f.serverCookie.value),
                                                      "endpoint_challenge" := BDocument(f.endpointChallenge.value)])),
                                   Success))
  {
    match (f.state, f.beginHandshakeRequestCookie, f.clientIdentity, f.requestedEndpoint, f.serverCookie,
           f.endpointChallenge, f.sendResponseRequestCookie, f.clientAuthKey, f.challengeResponse)
    case (ChallengeReady, Some(beginCookie), Some(_), Some(_), Some(serverCookie), Some(challenge), None, None, None) =>
      (f.(state := WaitingForSendResponse, endpointChallenge := Some(map[])),
       Some(Reply(beginCookie,
                  Some(BDocument(map["server_cookie" := BBinary(Generic, serverCookie),
                                     "endpoint_challenge" := BDocument(challenge)])),
                  Success)))
    case (ChallengeReady, _, _, _, _, _, _, _, _) =>
      assert false;
      (f, None)
    case (ChallengeVerificationReady, Some(_), Some(_), Some(_), Some(_), Some(_), Some(sendCookie), Some(_), Some(_)) =>
      var sent := f.(state := ChallengeVerificationResponseSent);
      if f.AllFlags() then
        (sent.(endpointPrivateKey := Some(endpointKey)),
         Some(Reply(sendCookie, Some(BString(c.crypto.serviceIdOfPrivateKey(endpointKey))), Success)))
      else
        (sent, Some(Reply(sendCookie, None, RuntimeError(Failure))))
    case _ =>
      (f, None)
  }

  //
  // The owner's answers.
  //

  /** gosling.rs IdentityServer::send_challenge: the owner's verdict on the request, and the challenge. */
  function SendChallengeStep(f: Fields, clientAllowed: bool, endpointValid: bool, challenge: Document,
                             serverCookie: Cookie): (r: (Fields, Result<(), Fault>))
    ensures Valid(f) ==> (r.1.Ok? <==> f.state == GettingChallenge)
    ensures r.1.Ok? ==>
              r.0 == f.(serverCookie := Some(serverCookie), endpointChallenge := Some(challenge),
                        clientAllowed := clientAllowed, clientRequestedEndpointValid := endpointValid,
                        state := ChallengeReady)
    ensures r.1.Err? ==> r.0 == f
  {
    match (f.state, f.beginHandshakeRequestCookie, f.clientIdentity, f.requestedEndpoint, f.serverCookie,
           f.endpointChallenge, f.clientAuthKey, f.challengeResponse, f.endpointPrivateKey)
    case (GettingChallenge, Some(_), Some(_), Some(_), None, None, None, None, None) =>
      (f.(serverCookie := Some(serverCookie), endpointChallenge := Some(challenge), clientAllowed := clientAllowed,
          clientRequestedEndpointValid := endpointValid, state := ChallengeReady),
       Ok(()))
    case _ =>
      (f, Err(UnexpectedState))
  }

  /** gosling.rs IdentityServer::send_challenge_verification: the owner's verdict on the response. */
  function SendChallengeVerificationStep(f: Fields, valid: bool): (r: (Fields, Result<(), Fault>))
    ensures Valid(f) ==> (r.1.Ok? <==> f.state == GettingChallengeVerification)
    ensures r.1.Ok? ==> r.0 == f.(state := ChallengeVerificationReady, challengeResponseValid := valid)
    ensures r.1.Err? ==> r.0 == f
  {
    match (f.state, f.beginHandshakeRequestCookie, f.clientIdentity, f.requestedEndpoint, f.serverCookie,
           f.endpointChallenge, f.clientAuthKey, f.challengeResponse, f.endpointPrivateKey)
    case (GettingChallengeVerification, Some(_), Some(_), Some(_), Some(_), Some(_), Some(_), Some(_), None) =>
      (f.(challengeResponseValid := valid, state := ChallengeVerificationReady), Ok(()))
    case _ =>
      (f, Err(UnexpectedState))
  }

  //
  // update as a whole
  //

  /**
   * One call the RPC session makes into the server while it updates: a client's function call
   * (exec_function) or a poll for a deferred reply (next_result, with the key it would generate).
   */
  datatype Invocation =
    | Call(name: string, version: int, args: Document, requestCookie: Option<RequestCookie>)
    | Poll(endpointKey: Ed25519PrivateKey)

  /** What one update of the server sees: the RPC session's invocations, and whether its update succeeded. */
  datatype UpdateIo = UpdateIo(invocations: seq<Invocation>, rpcOk: bool)

  /** The server after one invocation, with its answer. */
  function ServeOne(c: Config, f: Fields, invocation: Invocation): (r: (Fields, Answer))
    requires Valid(f)
    ensures Valid(r.0)
    ensures Phase(r.0.state) == Phase(f.state) && r.0.hasRpc == f.hasRpc
    ensures f.state == ChallengeVerificationResponseSent || f.state == HandshakeComplete ==> r.0 == f
  {
    match invocation
    case Call(name, version, args, cookie) =>
      ExecFunctionKeepsValid(c, f, name, version, args, cookie);
      var (g, result) := ExecFunctionStep(c, f, name, version, args, cookie);
      (g, CallAnswer(result))
    case Poll(key) =>
      ValidChallengeReadyShape(f);
      NextResultKeepsValid(c, f, key);
      var (g, reply) := NextResultStep(c, f, key);
      (g, PollAnswer(reply))
  }

  /** The server after the RPC session has made the given invocations, with the answers it gave. */
  function ServeRpc(c: Config, f: Fields, invocations: seq<Invocation>): (r: (Fields, seq<Answer>))
    requires Valid(f)
    ensures Valid(r.0) && |r.1| == |invocations|
    ensures Phase(r.0.state) == Phase(f.state) && r.0.hasRpc == f.hasRpc
    ensures f.state == ChallengeVerificationResponseSent || f.state == HandshakeComplete ==> r.0 == f
    decreases |invocations|
  {
    if invocations == [] then (f, [])
    else
      var (g, answers) := ServeRpc(c, f, invocations[..|invocations| - 1]);
      var (h, answer) := ServeOne(c, g, invocations[|invocations| - 1]);
      (h, answers + [answer])
  }

  /** The server after one update, the RPC answers it gave, and update's result. */
  datatype Updated = Updated(fields: Fields, answers: seq<Answer>, result: Result<Option<Event>, Fault>)

  /**
   * gosling.rs IdentityServer::update: the RPC session's update (which may call exec_function
   * and next_result), then the next event. A failed RPC update loses the session for good.
   */
  function UpdateStep(c: Config, f: Fields, io: UpdateIo): (u: Updated)
    requires Valid(f)
    ensures Valid(u.fields)
    ensures u.result.Err? <==> f.hasRpc && !io.rpcOk
    ensures u.result.Err? ==> u.result.error == RpcSessionFailed && !u.fields.hasRpc
    ensures u.result.Ok? ==> u.fields.hasRpc == f.hasRpc
    ensures !f.hasRpc ==> u.answers == []
  {
    if !f.hasRpc then
      EventStepKeepsValid(f);
      var (g, e) := EventStep(f);
      Updated(g, [], Ok(e))
    else
      var (g, answers) := ServeRpc(c, f, io.invocations);
      if !io.rpcOk then Updated(g.(hasRpc := false), answers, Err(RpcSessionFailed))
      else
        EventStepKeepsValid(g);
        var (h, e) := EventStep(g);
        Updated(h, answers, Ok(e))
  }

  //
  // Properties of single steps.
  //

  lemma ValidInitial()
    ensures Valid(Initial)
  {
  }

  /** A begin_handshake with the wrong version is refused with BadVersion and no endpoint is recorded. */
  lemma BadVersionRefused(c: Config, f: Fields, cookie: RequestCookie, args: Document)
    requires AcceptsBeginHandshake(f)
    requires "version" in args && args["version"].BString? && args["version"].str != GOSLING_VERSION
    requires "client_identity" in args && args["client_identity"].BString?
    requires ServiceIdFromString(c.crypto, args["client_identity"].str).Some?
    requires "endpoint" in args && args["endpoint"].BString?
    ensures var r := ExecFunctionStep(c, f, "begin_handshake", 0, args, Some(cookie));
      r.1 == Err(RuntimeError(BadVersion)) && r.0.requestedEndpoint.None?
  {
  }

  /**
   * After a begin_handshake refused with BadVersion the client is recorded but no endpoint is,
   * so no arm of update's match applies and exec_function refuses every later call: the server
   * stays as it is until its RPC session fails.
   */
  lemma BadVersionStalls(c: Config, f: Fields, cookie: RequestCookie, args: Document,
                         name: string, version: int, laterArgs: Document, laterCookie: Option<RequestCookie>)
    requires AcceptsBeginHandshake(f)
    requires "version" in args && args["version"].BString? && args["version"].str != GOSLING_VERSION
    requires "client_identity" in args && args["client_identity"].BString?
    requires ServiceIdFromString(c.crypto, args["client_identity"].str).Some?
    requires "endpoint" in args && args["endpoint"].BString?
    ensures var g := ExecFunctionStep(c, f, "begin_handshake", 0, args, Some(cookie)).0;
      && g.state == WaitingForBeginHandshake && g.clientIdentity.Some? && g.requestedEndpoint.None?
      && EventStep(g) == (g, None)
      && ExecFunctionStep(c, g, name, version, laterArgs, laterCookie).0 == g
      && ExecFunctionStep(c, g, name, version, laterArgs, laterCookie).1.Err?
  {
  }

  /** A send_response whose client cookie is not 32 bytes is refused with InvalidArg and records nothing. */
  lemma ShortClientCookieRefused(c: Config, f: Fields, cookie: RequestCookie, args: Document)
    requires AcceptsSendResponse(f)
    requires GetSendResponseArgs(args).Some? && |GetSendResponseArgs(args).value.clientCookie| != CLIENT_COOKIE_SIZE
    ensures var r := ExecFunctionStep(c, f, "send_response", 0, args, Some(cookie));
      r.1 == Err(InvalidArgError()) && r.0.clientAuthKey.None? && r.0.challengeResponse.None?
  {
  }

  lemma EventStepKeepsValid(f: Fields)
    requires Valid(f)
    ensures Valid(EventStep(f).0)
  {
  }

  lemma ExecFunctionKeepsValid(c: Config, f: Fields, name: string, version: int, args: Document,
                               requestCookie: Option<RequestCookie>)
    requires Valid(f)
    ensures Valid(ExecFunctionStep(c, f, name, version, args, requestCookie).0)
  {
  }

  /** The source's unreachable arm of next_result is indeed unreachable. */
  lemma ValidChallengeReadyShape(f: Fields)
    requires Valid(f)
    ensures f.state == ChallengeReady ==> ChallengeReadyShape(f)
  {
  }

  lemma NextResultKeepsValid(c: Config, f: Fields, endpointKey: Ed25519PrivateKey)
    requires Valid(f)
    ensures Valid(NextResultStep(c, f, endpointKey).0)
    ensures Phase(NextResultStep(c, f, endpointKey).0.state) == Phase(f.state)
  {
  }

  lemma OwnerAnswersKeepValid(f: Fields, clientAllowed: bool, endpointValid: bool, challenge: Document,
                              serverCookie: Cookie, valid: bool)
    requires Valid(f)
    ensures Valid(SendChallengeStep(f, clientAllowed, endpointValid, challenge, serverCookie).0)
    ensures Valid(SendChallengeVerificationStep(f, valid).0)
  {
  }

  /**
   * Once the verification reply has gone out, the next event ends the handshake:
   * HandshakeCompleted when an endpoint key was generated (all five flags held), HandshakeRejected
   * carrying the five flags otherwise.
   */
  lemma ResponseSentEndsHandshake(f: Fields)
    requires Valid(f) && f.state == ChallengeVerificationResponseSent
    ensures var r := EventStep(f);
      r.0.state == HandshakeComplete && r.1.Some?
      && (r.1.value.HandshakeCompleted? <==> f.AllFlags())
      && (r.1.value.HandshakeRejected? <==>
            r.1.value == HandshakeRejected(f.clientAllowed, f.clientRequestedEndpointValid,
                                           f.clientProofSignatureValid, f.clientAuthSignatureValid,
                                           f.challengeResponseValid))
  {
  }

  /** The final match reports an event exactly when the phase advances, and the terminal one last. */
  lemma EventStepEvents(f: Fields)
    requires Valid(f)
    ensures var (g, e) := EventStep(f);
      e.Some? ==>
        Phase(g.state) == Phase(f.state) + 1
        && (e.value.EndpointRequestReceived? <==> Phase(g.state) == 1)
        && (e.value.ChallengeResponseReceived? <==> Phase(g.state) == 2)
        && (e.value.Terminal() <==> Phase(g.state) == 3)
        && (e.value.Terminal() ==> (e.value.HandshakeCompleted? <==> g.AllFlags()))
  {
    if f.state == ChallengeVerificationResponseSent {
      ResponseSentEndsHandshake(f);
    }
  }

  /** So does update as a whole: the RPC invocations before the match never change the phase. */
  lemma UpdateEvents(c: Config, f: Fields, io: UpdateIo)
    requires Valid(f)
    ensures var u := UpdateStep(c, f, io);
      u.result.Ok? && u.result.value.Some? ==>
        Phase(u.fields.state) == Phase(f.state) + 1
        && (u.result.value.value.EndpointRequestReceived? <==> Phase(u.fields.state) == 1)
        && (u.result.value.value.ChallengeResponseReceived? <==> Phase(u.fields.state) == 2)
        && (u.result.value.value.Terminal() <==> Phase(u.fields.state) == 3)
        && (u.result.value.value.Terminal() ==> (u.result.value.value.HandshakeCompleted? <==> u.fields.AllFlags()))
    ensures var u := UpdateStep(c, f, io);
      !(u.result.Ok? && u.result.value.Some?) ==>
        Phase(u.fields.state) == Phase(f.state)
        && (f.state == HandshakeComplete ==> u.fields.AllFlags() == f.AllFlags())
  {
    var g := if f.hasRpc then ServeRpc(c, f, io.invocations).0 else f;
    EventStepEvents(g);
  }

  //
  // Whole runs.
  //

  datatype Action =
    | Update(io: UpdateIo)
    | SendChallenge(clientAllowed: bool, endpointValid: bool, challenge: Document, serverCookie: Cookie)
    | SendChallengeVerification(valid: bool)

  /** The server after a sequence of calls; a failed update ends the run (the session is dropped). */
  datatype Run = Run(fields: Fields, events: seq<Event>, failed: bool)

  /** One more action of a run; a failed run stays as it is. */
  function Next(c: Config, before: Run, a: Action): (run: Run)
    requires Valid(before.fields)
    ensures Valid(run.fields)
  {
    if before.failed then before
    else
      match a
      case Update(io) =>
        var u := UpdateStep(c, before.fields, io);
        if u.result.Err? then Run(u.fields, before.events, true)
        else if u.result.value.None? then Run(u.fields, before.events, false)
        else Run(u.fields, before.events + [u.result.value.value], false)
      case SendChallenge(allowed, valid, challenge, cookie) =>
        OwnerAnswersKeepValid(before.fields, allowed, valid, challenge, cookie, false);
        Run(SendChallengeStep(before.fields, allowed, valid, challenge, cookie).0, before.events, false)
      case SendChallengeVerification(valid) =>
        OwnerAnswersKeepValid(before.fields, false, false, map[], seq(32, _ => 0), valid);
        Run(SendChallengeVerificationStep(before.fields, valid).0, before.events, false)
  }

  function RunFrom(c: Config, actions: seq<Action>): (run: Run)
    ensures Valid(run.fields)
    decreases |actions|
  {
    if actions == [] then ValidInitial(); Run(Initial, [], false)
    else Next(c, RunFrom(c, actions[..|actions| - 1]), actions[|actions| - 1])
  }

  /**
   * The events of a run: at most an endpoint request, a challenge response and one terminal
   * event, in that order, as many as the phase of the state says; the terminal event is
   * HandshakeCompleted exactly when all five verification flags hold.
   */
  predicate Ordered(run: Run) {
    && |run.events| == Phase(run.fields.state)
    && (|run.events| >= 1 ==> run.events[0].EndpointRequestReceived?)
    && (|run.events| >= 2 ==> run.events[1].ChallengeResponseReceived?)
    && (|run.events| == 3 ==> run.events[2].Terminal())
    && (|run.events| == 3 ==> (run.events[2].HandshakeCompleted? <==> run.fields.AllFlags()))
  }

  lemma NextKeepsOrdered(c: Config, before: Run, a: Action)
    requires Valid(before.fields) && Ordered(before)
    ensures Ordered(Next(c, before, a))
  {
    if !before.failed && a.Update? {
      UpdateEvents(c, before.fields, a.io);
    }
  }

  /** Every run of a new server reports its events in order and ends with at most one verdict. */
  lemma {:induction false} RunEventsInOrder(c: Config, actions: seq<Action>)
    ensures Ordered(RunFrom(c, actions))
    ensures RunFrom(c, actions).fields.state == HandshakeComplete <==> |RunFrom(c, actions).events| == 3
    decreases |actions|
  {
    if actions != [] {
      RunEventsInOrder(c, actions[..|actions| - 1]);
      NextKeepsOrdered(c, RunFrom(c, actions[..|actions| - 1]), actions[|actions| - 1]);
    }
  }

  //
  // The object.
  //

  class IdentityServer {
    const crypto: Crypto
    const serverIdentity: ServiceId

    /** Whether the server still holds its RPC session (the source's rpc: Option<Session>). */
    var hasRpc: bool
    var state: State
    var beginHandshakeRequestCookie: Option<RequestCookie>
    var requestedEndpoint: Option<string>
    var serverCookie: Option<Cookie>
    var endpointChallenge: Option<Document>
    var sendResponseRequestCookie: Option<RequestCookie>
    var clientIdentity: Option<ServiceId>
    var clientAuthKey: Option<X25519PublicKey>
    var challengeResponse: Option<Document>
    var endpointPrivateKey: Option<Ed25519PrivateKey>
    var clientAllowed: bool
    var clientRequestedEndpointValid: bool
    var clientProofSignatureValid: bool
    var clientAuthSignatureValid: bool
    var challengeResponseValid: bool

    function Settings(): Config {
      Config(crypto, serverIdentity)
    }

    function Snapshot(): Fields
      reads this
    {
      Fields(hasRpc, state, beginHandshakeRequestCookie, requestedEndpoint, serverCookie, endpointChallenge,
             sendResponseRequestCookie, clientIdentity, clientAuthKey, challengeResponse, endpointPrivateKey,
             clientAllowed, clientRequestedEndpointValid, clientProofSignatureValid, clientAuthSignatureValid,
             challengeResponseValid)
    }

    constructor (crypto: Crypto, serverIdentity: ServiceId)
      ensures Settings() == Config(crypto, serverIdentity) && Snapshot() == Initial
    {
      this.crypto := crypto;
      this.serverIdentity := serverIdentity;
      hasRpc := true;
      state := WaitingForBeginHandshake;
      beginHandshakeRequestCookie := None;
      clientIdentity := None;
      requestedEndpoint := None;
      serverCookie := None;
      endpointChallenge := None;
      sendResponseRequestCookie := None;
      clientAuthKey := None;
      challengeResponse := None;
      endpointPrivateKey := None;
      clientAllowed := false;
      clientRequestedEndpointValid := false;
      clientProofSignatureValid := false;
      clientAuthSignatureValid := false;
      challengeResponseValid := false;
    }

    /**
     * gosling.rs IdentityServer::update. A failed RPC update leaves the server without its
     * session (it was taken out for the update and is not put back).
     */
    method Update(io: UpdateIo) returns (answers: seq<Answer>, r: Result<Option<Event>, Fault>)
      requires Valid(Snapshot())
      modifies this
      ensures Updated(Snapshot(), answers, r) == UpdateStep(Settings(), old(Snapshot()), io)
    {
      answers := [];
      if hasRpc {
        answers := ServeAll(io.invocations);
        if !io.rpcOk {
          hasRpc := false;
          return answers, Err(RpcSessionFailed);
        }
      }
      var e := ReportEvent();
      return answers, Ok(e);
    }

    /** The RPC session's update: its invocations, in order. */
    method ServeAll(invocations: seq<Invocation>) returns (answers: seq<Answer>)
      requires Valid(Snapshot())
      modifies this
      ensures (Snapshot(), answers) == ServeRpc(Settings(), old(Snapshot()), invocations)
    {
      answers := [];
      var i := 0;
      while i < |invocations|
        invariant 0 <= i <= |invocations|
        invariant (Snapshot(), answers) == ServeRpc(Settings(), old(Snapshot()), invocations[..i])
      {
        assert invocations[..i + 1][..i] == invocations[..i];
        var answer := Serve(invocations[i]);
        answers := answers + [answer];
        i := i + 1;
      }
      assert invocations[..i] == invocations;
    }

    /** One invocation of the RPC session: exec_function or next_result. */
    method Serve(invocation: Invocation) returns (answer: Answer)
      requires Valid(Snapshot())
      modifies this
      ensures (Snapshot(), answer) == ServeOne(Settings(), old(Snapshot()), invocation)
    {
      match invocation {
        case Call(name, version, args, cookie) =>
          var result := ExecFunction(name, version, args, cookie);
          answer := CallAnswer(result);
        case Poll(key) =>
          var reply := NextResult(key);
          answer := PollAnswer(reply);
      }
    }

    /** The match at the end of update. */
    method ReportEvent() returns (e: Option<Event>)
      modifies this
      ensures (Snapshot(), e) == EventStep(old(Snapshot()))
    {
      match (state, beginHandshakeRequestCookie, clientIdentity, requestedEndpoint, serverCookie, endpointChallenge,
             sendResponseRequestCookie, clientAuthKey, challengeResponse, endpointPrivateKey) {
        case (WaitingForBeginHandshake, Some(_), Some(identity), Some(endpoint), None, None, None, None, None, None) =>
          state := GettingChallenge;
          return Some(EndpointRequestReceived(identity, endpoint));
        case (WaitingForSendResponse, Some(_), Some(_), Some(_), Some(_), Some(_), Some(_), Some(_), Some(response), None) =>
          state := GettingChallengeVerification;
          challengeResponse := Some(map[]);
          return Some(ChallengeResponseReceived(response));
        case (ChallengeVerificationResponseSent, Some(_), Some(identity), Some(endpoint), Some(_), Some(_), Some(_),
              Some(authKey), Some(_), Some(key)) =>
          state := HandshakeComplete;
          return Some(HandshakeCompleted(key, endpoint, identity, authKey));
        case (ChallengeVerificationResponseSent, Some(_), Some(_), Some(_), Some(_), Some(_), Some(_), Some(_), Some(_), None) =>
          state := HandshakeComplete;
          return Some(HandshakeRejected(clientAllowed, clientRequestedEndpointValid, clientProofSignatureValid,
                                        clientAuthSignatureValid, challengeResponseValid));
        case _ =>
      }
      return None;
    }

    /** gosling.rs IdentityServer::handle_begin_handshake: the version check, then the endpoint. */
    method HandleBeginHandshake(version: string, endpointName: string) returns (r: Result<(), GoslingError>)
      modifies this`requestedEndpoint
      ensures r.Ok? <==> version == GOSLING_VERSION
      ensures r.Err? ==> r.error == BadVersion && requestedEndpoint == old(requestedEndpoint)
      ensures r.Ok? ==> requestedEndpoint == Some(endpointName)
    {
      if version != GOSLING_VERSION {
        return Err(BadVersion);
      }
      requestedEndpoint := Some(endpointName);
      return Ok(());
    }

    /** gosling.rs IdentityServer::handle_send_response. */
    method HandleSendResponse(clientCookie: Cookie, identity: ServiceId, proofSignature: Ed25519Signature,
                              authKey: X25519PublicKey, signbit: byte, authSignature: Ed25519Signature,
                              response: Document)
      requires requestedEndpoint.Some? && serverCookie.Some?
      modifies this
      ensures Snapshot() == HandleSendResponseStep(Settings(), old(Snapshot()), clientCookie, identity, proofSignature,
                                                   authKey, signbit, authSignature, response)
    {
      var proofValid := clientProofSignatureValid;
      var identityKey := crypto.publicKeyOfServiceId(identity);
      if identityKey.Some? {
        var proof := BuildClientProof(GoslingIdentity, requestedEndpoint.value, identity, serverIdentity,
                                      clientCookie, serverCookie.value);
        if proof.Ok? {
          proofValid := crypto.ed25519Verify(proofSignature, proof.value, identityKey.value);
        }
      }
      assert proofValid == ProofFlag(Settings(), Snapshot(), clientCookie, identity, proofSignature);
      var authValid := crypto.x25519Verify(authSignature, ServiceIdBytes(identity), authKey, signbit);
      clientProofSignatureValid, clientAuthSignatureValid := proofValid, authValid;
      clientAuthKey, challengeResponse := Some(authKey), Some(response);
    }

    method ExecFunction(name: string, version: int, args: Document, requestCookie: Option<RequestCookie>)
      returns (r: Result<Option<Bson>, ErrorCode>)
      modifies this
      ensures (Snapshot(), r) == ExecFunctionStep(Settings(), old(Snapshot()), name, version, args, requestCookie)
    {
      if requestCookie.None? {
        return Err(RuntimeError(RequestCookieRequired));
      }
      if name == "begin_handshake" && version == 0 && AcceptsBeginHandshake(Snapshot()) {
        r := ExecBeginHandshake(requestCookie.value, args);
      } else if name == "send_response" && version == 0 && AcceptsSendResponse(Snapshot()) {
        r := ExecSendResponse(requestCookie.value, args);
      } else {
        r := Err(RuntimeError(Failure));
      }
    }

    /** The begin_handshake arm of exec_function. */
    method ExecBeginHandshake(cookie: RequestCookie, args: Document) returns (r: Result<Option<Bson>, ErrorCode>)
      modifies this
      ensures (Snapshot(), r) == BeginHandshakeCall(Settings(), old(Snapshot()), cookie, args)
    {
      var versionArg := StringArg(Get(args, "version"));
      var identityArg := StringArg(Get(args, "client_identity"));
      var endpointArg := StringArg(Get(args, "endpoint"));
      if versionArg.None? || identityArg.None? || endpointArg.None? {
        return Err(InvalidArgError());
      }
      beginHandshakeRequestCookie := Some(cookie);
      var identity := ServiceIdFromString(crypto, identityArg.value);
      if identity.None? {
        return Err(InvalidArgError());
      }
      clientIdentity := identity;
      var handled := HandleBeginHandshake(versionArg.value, endpointArg.value);
      if handled.Err? {
        return Err(RuntimeError(handled.error));
      }
      return Ok(None);
    }

    /** The send_response arm of exec_function: argument types, then sizes and encodings. */
    method ExecSendResponse(cookie: RequestCookie, args: Document) returns (r: Result<Option<Bson>, ErrorCode>)
      requires AcceptsSendResponse(Snapshot())
      modifies this
      ensures (Snapshot(), r) == SendResponseCall(Settings(), old(Snapshot()), cookie, args)
    {
      var a := GetSendResponseArgs(args);
      if a.None? {
        return Err(InvalidArgError());
      }
      sendResponseRequestCookie := Some(cookie);
      var v := a.value;
      if |v.clientCookie| != CLIENT_COOKIE_SIZE {
        return Err(InvalidArgError());
      }
      if |v.proofSignature| != ED25519_SIGNATURE_SIZE || !crypto.signatureFromRaw(v.proofSignature) {
        return Err(InvalidArgError());
      }
      if |v.authKey| != X25519_PUBLIC_KEY_SIZE {
        return Err(InvalidArgError());
      }
      if |v.authSignature| != ED25519_SIGNATURE_SIZE || !crypto.signatureFromRaw(v.authSignature) {
        return Err(InvalidArgError());
      }
      HandleSendResponse(v.clientCookie, clientIdentity.value, Ed25519Signature(v.proofSignature),
                         X25519PublicKey(v.authKey), if v.signbit then 1 else 0,
                         Ed25519Signature(v.authSignature), v.challengeResponse);
      return Ok(None);
    }

    method NextResult(endpointKey: Ed25519PrivateKey) returns (r: Option<Reply>)
      requires Valid(Snapshot())
      modifies this
      ensures (Snapshot(), r) == NextResultStep(Settings(), old(Snapshot()), endpointKey)
    {
      match (state, beginHandshakeRequestCookie, clientIdentity, requestedEndpoint, serverCookie, endpointChallenge,
             sendResponseRequestCookie, clientAuthKey, challengeResponse) {
        case (ChallengeReady, Some(_), Some(_), Some(_), Some(_), Some(_), None, None, None) =>
          r := ReturnChallenge(endpointKey);
        case (ChallengeVerificationReady, Some(_), Some(_), Some(_), Some(_), Some(_), Some(_), Some(_), Some(_)) =>
          r := ReturnVerification(endpointKey);
        case _ =>
          return None;
      }
    }

    /** The begin_handshake reply of next_result: the server cookie and the challenge, which is taken. */
    method ReturnChallenge(endpointKey: Ed25519PrivateKey) returns (r: Option<Reply>)
      requires state == ChallengeReady && ChallengeReadyShape(Snapshot())
      modifies this
      ensures (Snapshot(), r) == NextResultStep(Settings(), old(Snapshot()), endpointKey)
    {
      var reply := Reply(beginHandshakeRequestCookie.value,
                         Some(BDocument(map["server_cookie" := BBinary(Generic, serverCookie.value),
                                            "endpoint_challenge" := BDocument(endpointChallenge.value)])),
                         Success);
      state := WaitingForSendResponse;
      endpointChallenge := Some(map[]);
      return Some(reply);
    }

    /** The send_response reply of next_result: the endpoint's service id iff every check passed. */
    method ReturnVerification(endpointKey: Ed25519PrivateKey) returns (r: Option<Reply>)
      requires state == ChallengeVerificationReady && Snapshot().Responded()
      modifies this
      ensures (Snapshot(), r) == NextResultStep(Settings(), old(Snapshot()), endpointKey)
    {
      var sendCookie := sendResponseRequestCookie.value;
      var success := true;
      success := success && clientAllowed;
      success := success && clientRequestedEndpointValid;
      success := success && clientProofSignatureValid;
      success := success && clientAuthSignatureValid;
      success := success && challengeResponseValid;
      state := ChallengeVerificationResponseSent;
      if success {
        endpointPrivateKey := Some(endpointKey);
        return Some(Reply(sendCookie, Some(BString(crypto.serviceIdOfPrivateKey(endpointKey))), Success));
      }
      return Some(Reply(sendCookie, None, RuntimeError(Failure)));
    }

    method SendChallenge(allowed: bool, endpointValid: bool, challenge: Document, cookie: Cookie)
      returns (r: Result<(), Fault>)
      modifies this
      ensures (Snapshot(), r) == SendChallengeStep(old(Snapshot()), allowed, endpointValid, challenge, cookie)
    {
      match (state, beginHandshakeRequestCookie, clientIdentity, requestedEndpoint, serverCookie, endpointChallenge,
             clientAuthKey, challengeResponse, endpointPrivateKey) {
        case (GettingChallenge, Some(_), Some(_), Some(_), None, None, None, None, None) =>
          serverCookie := Some(cookie);
          endpointChallenge := Some(challenge);
          clientAllowed := allowed;
          clientRequestedEndpointValid := endpointValid;
          state := ChallengeReady;
          return Ok(());
        case _ =>
          return Err(UnexpectedState);
      }
    }

    method SendChallengeVerification(valid: bool) returns (r: Result<(), Fault>)
      modifies this
      ensures (Snapshot(), r) == SendChallengeVerificationStep(old(Snapshot()), valid)
    {
      match (state, beginHandshakeRequestCookie, clientIdentity, requestedEndpoint, serverCookie, endpointChallenge,
             clientAuthKey, challengeResponse, endpointPrivateKey) {
        case (GettingChallengeVerification, Some(_), Some(_), Some(_), Some(_), Some(_), Some(_), Some(_), None) =>
          challengeResponseValid := valid;
          state := ChallengeVerificationReady;
        case _ =>
          return Err(UnexpectedState);
      }
      return Ok(());
    }
  }
}
