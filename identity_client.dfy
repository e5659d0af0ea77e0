/**
 * The client side of the identity handshake (gosling.rs IdentityClient).
 *
 * The client asks an identity server for an endpoint, receives a server cookie and an
 * endpoint challenge, waits for its owner to answer the challenge, sends a signed proof with
 * the answer, and finally receives the endpoint's service id.
 *
 * The pure functions UpdateStep and SendResponseStep are the specification; the class
 * IdentityClient holds the source's fields and its methods are proved to follow them.
 * Everything the RPC session and the random number generator supply during one update is a
 * ClientIo record.
 */
module IdentityClient {
  import opened Types
  import opened ClientProof

  datatype State =
    | BeginHandshake
    | WaitingForChallenge
    | WaitingForChallengeResponse
    | WaitingForChallengeVerification
    | HandshakeComplete

  datatype Event =
    | ChallengeReceived(identityServiceId: ServiceId, endpointName: string, endpointChallenge: Document)
    | HandshakeCompleted(identityServiceId: ServiceId, endpointServiceId: ServiceId, endpointName: string,
                         clientAuthPrivateKey: X25519PrivateKey)

  /** The fields that never change after construction. */
  datatype Config = Config(
    crypto: Crypto,
    serverServiceId: ServiceId,
    requestedEndpoint: string,
    clientEd25519Private: Ed25519PrivateKey,
    clientX25519Private: X25519PrivateKey)
  {
    function ClientServiceId(): ServiceId {
      crypto.serviceIdOfPrivateKey(clientEd25519Private)
    }
  }

  /** The state machine's fields. */
  datatype Fields = Fields(
    state: State,
    beginHandshakeRequestCookie: Option<RequestCookie>,
    serverCookie: Option<Cookie>,
    endpointChallengeResponse: Option<Document>,
    sendResponseRequestCookie: Option<RequestCookie>)

  const Initial: Fields := Fields(BeginHandshake, None, None, None, None)

  /** One update: the new fields, the RPC call queued (if any) and what update returns. */
  datatype Step = Step(fields: Fields, call: Option<RpcCall>, result: Result<Option<Event>, Fault>)

  /** How many events a client in this state has emitted so far. */
  function Phase(s: State): nat {
    match s
    case BeginHandshake => 0
    case WaitingForChallenge => 0
    case WaitingForChallengeResponse => 1
    case WaitingForChallengeVerification => 1
    case HandshakeComplete => 2
  }

  function Rank(s: State): nat {
    match s
    case BeginHandshake => 0
    case WaitingForChallenge => 1
    case WaitingForChallengeResponse => 2
    case WaitingForChallengeVerification => 3
    case HandshakeComplete => 4
  }

  /** The field combinations each state is entered with; every successful step keeps them. */
  predicate Valid(f: Fields) {
    match f.state
    case BeginHandshake =>
      f.beginHandshakeRequestCookie.None? && f.serverCookie.None? && f.endpointChallengeResponse.None?
      && f.sendResponseRequestCookie.None?
    case WaitingForChallenge =>
      f.beginHandshakeRequestCookie.Some? && f.serverCookie.None? && f.endpointChallengeResponse.None?
      && f.sendResponseRequestCookie.None?
    case WaitingForChallengeResponse =>
      f.beginHandshakeRequestCookie.Some? && f.serverCookie.Some? && f.sendResponseRequestCookie.None?
    case WaitingForChallengeVerification =>
      f.beginHandshakeRequestCookie.Some? && f.serverCookie.Some? && f.endpointChallengeResponse.None?
      && f.sendResponseRequestCookie.Some?
    case HandshakeComplete =>
      f.beginHandshakeRequestCookie.Some? && f.serverCookie.Some? && f.endpointChallengeResponse.None?
      && f.sendResponseRequestCookie.Some?
  }

  function BeginHandshakeCall(c: Config): RpcCall {
    RpcCall("gosling_identity", "begin_handshake", 0,
            map["version" := BString(GOSLING_VERSION),
                "client_identity" := BString(c.ClientServiceId()),
                "endpoint" := BString(c.requestedEndpoint)])
  }

  function SendResponseCall(clientCookie: Cookie, proofSignature: Ed25519Signature, authKey: X25519PublicKey,
                            signbit: bool, authSignature: Ed25519Signature, challengeResponse: Document): RpcCall
  {
    RpcCall("gosling_identity", "send_response", 0,
            map["client_cookie" := BBinary(Generic, clientCookie),
                "client_identity_proof_signature" := BBinary(Generic, proofSignature.raw),
                "client_authorization_key" := BBinary(Generic, authKey.point),
                "client_authorization_key_signbit" := BBoolean(signbit),
                "client_authorization_signature" := BBinary(Generic, authSignature.raw),
                "challenge_response" := BDocument(challengeResponse)])
  }

  /** The proof the client signs with its identity key. */
  function IdentityProof(c: Config, clientCookie: Cookie, serverCookie: Cookie): Result<seq<byte>, Fault> {
    BuildClientProof(GoslingIdentity, c.requestedEndpoint, c.ClientServiceId(), c.serverServiceId,
                     clientCookie, serverCookie)
  }

  /** The begin_handshake reply: the server cookie is stored before the challenge is looked at. */
  function ChallengeReply(c: Config, g: Fields, reply: Document): Step {
    var sc := Get(reply, "server_cookie");
    if sc.None? then Step(g, None, Err(MissingServerCookie))
    else if !(sc.value.BBinary? && sc.value.subtype == Generic) then Step(g, None, Err(UnexpectedBsonType))
    else if |sc.value.bytes| != SERVER_COOKIE_SIZE then Step(g, None, Err(InvalidServerCookie))
    else
      var g1 := g.(serverCookie := Some(sc.value.bytes));
      var challenge := Get(reply, "endpoint_challenge");
      if challenge.None? then Step(g1, None, Err(MissingEndpointChallenge))
      else if !challenge.value.BDocument? then Step(g1, None, Err(UnexpectedBsonType))
      else Step(g1.(state := WaitingForChallengeResponse), None,
                Ok(Some(ChallengeReceived(c.serverServiceId, c.requestedEndpoint, challenge.value.doc))))
  }

  /** Answers the challenge: proof, signatures and the send_response call. */
  function Respond(c: Config, g: Fields, serverCookie: Cookie, challengeResponse: Document, io: ClientIo): Step {
    var proof := IdentityProof(c, io.clientCookie, serverCookie);
    if proof.Err? then Step(g, None, Err(proof.error))
    else
      var proofSignature := c.crypto.ed25519Sign(c.clientEd25519Private, proof.value);
      var authKey := c.crypto.x25519PublicOfPrivate(c.clientX25519Private);
      var signed := c.crypto.x25519Sign(c.clientX25519Private, ServiceIdBytes(c.ClientServiceId()));
      if signed.None? then Step(g, None, Err(SigningFailed))
      else if signed.value.1 > 1 then Step(g, None, Err(InvalidSignbit))
      else
        var call := SendResponseCall(io.clientCookie, proofSignature, authKey, signed.value.1 == 1,
                                     signed.value.0, challengeResponse);
        if io.callCookie.None? then Step(g, None, Err(RpcCallFailed))
        else Step(g.(sendResponseRequestCookie := io.callCookie, state := WaitingForChallengeVerification),
                  Some(call), Ok(None))
  }

  /** The send_response reply: the endpoint's service id. */
  function VerificationReply(c: Config, g: Fields, result: Bson): Step {
    if !result.BString? then Step(g, None, Err(UnexpectedBsonType))
    else
      var endpoint := ServiceIdFromString(c.crypto, result.str);
      if endpoint.None? then Step(g, None, Err(InvalidServiceId))
      else Step(g.(state := HandshakeComplete), None,
                Ok(Some(HandshakeCompleted(c.serverServiceId, endpoint.value, c.requestedEndpoint,
                                           c.clientX25519Private))))
  }

  /**
   * gosling.rs IdentityClient::update. Once the RPC session's update succeeds, the
   * challenge response field is taken (cleared) whatever happens next.
   */
  function UpdateStep(c: Config, f: Fields, io: ClientIo): (s: Step)
    ensures f.state == HandshakeComplete ==> s == Step(f, None, Err(HandshakeAlreadyComplete))
    ensures f.state != HandshakeComplete && !io.rpcUpdateOk ==> s == Step(f, None, Err(RpcSessionFailed))
    ensures Rank(f.state) <= Rank(s.fields.state) <= Rank(f.state) + 1
    ensures s.call.Some? ==> s.result.Ok? && Rank(s.fields.state) == Rank(f.state) + 1
  {
    if f.state == HandshakeComplete then Step(f, None, Err(HandshakeAlreadyComplete))
    else if !io.rpcUpdateOk then Step(f, None, Err(RpcSessionFailed))
    else
      var g := f.(endpointChallengeResponse := None);
      match (f.state, f.beginHandshakeRequestCookie, f.serverCookie, f.endpointChallengeResponse,
             f.sendResponseRequestCookie)
      case (BeginHandshake, None, None, None, None) =>
        if io.callCookie.None? then Step(g, None, Err(RpcCallFailed))
        else Step(g.(beginHandshakeRequestCookie := io.callCookie, state := WaitingForChallenge),
                  Some(BeginHandshakeCall(c)), Ok(None))
      case (WaitingForChallenge, Some(beginCookie), None, None, None) =>
        if io.nextResponse.None? then Step(g, None, Ok(None))
        else
          var checked := CheckResponse(beginCookie, io.nextResponse.value);
          if checked.Err? then Step(g, None, Err(checked.error))
          else if checked.value.None? then Step(g, None, Ok(None))
          else if !checked.value.value.BDocument? then Step(g, None, Err(UnexpectedBsonType))
          else ChallengeReply(c, g, checked.value.value.doc)
      case (WaitingForChallengeResponse, Some(_), Some(_), None, None) =>
        Step(g, None, Ok(None))
      case (WaitingForChallengeResponse, Some(_), Some(serverCookie), Some(challengeResponse), None) =>
        Respond(c, g, serverCookie, challengeResponse, io)
      case (WaitingForChallengeVerification, Some(_), Some(_), None, Some(sendCookie)) =>
        if io.nextResponse.None? then Step(g, None, Ok(None))
        else
          var checked := CheckResponse(sendCookie, io.nextResponse.value);
          if checked.Err? then Step(g, None, Err(checked.error))
          else if checked.value.None? then Step(g, None, Ok(None))
          else VerificationReply(c, g, checked.value.value)
      case _ =>
        Step(g, None, Err(UnexpectedState))
  }

  /** gosling.rs IdentityClient::send_response: the owner's answer to the challenge. */
  function SendResponseStep(f: Fields, challengeResponse: Document): (r: (Fields, Result<(), Fault>))
    ensures r.1.Ok? <==> f.state == WaitingForChallengeResponse
    ensures r.1.Ok? ==> r.0 == f.(endpointChallengeResponse := Some(challengeResponse))
    ensures r.1.Err? ==> r.0 == f
  {
    if f.state != WaitingForChallengeResponse then (f, Err(UnexpectedState))
    else (f.(endpointChallengeResponse := Some(challengeResponse)), Ok(()))
  }

  //
  // Properties of single steps.
  //

  /** A valid client never hits the catch-all arm, and every successful step keeps Valid. */
  lemma UpdateKeepsValid(c: Config, f: Fields, io: ClientIo)
    requires Valid(f)
    ensures UpdateStep(c, f, io).result != Err(UnexpectedState)
    ensures UpdateStep(c, f, io).result.Ok? ==> Valid(UpdateStep(c, f, io).fields)
  {
  }

  /** Events are emitted exactly when the phase advances: a challenge first, then the completion. */
  lemma UpdateEvents(c: Config, f: Fields, io: ClientIo)
    requires Valid(f)
    ensures var s := UpdateStep(c, f, io);
      s.result == Ok(None) ==> Phase(s.fields.state) == Phase(f.state)
    ensures var s := UpdateStep(c, f, io);
      s.result.Ok? && s.result.value.Some? ==>
        Phase(s.fields.state) == Phase(f.state) + 1
        && (s.result.value.value.ChallengeReceived? <==> Phase(s.fields.state) == 1)
        && (s.result.value.value.HandshakeCompleted? <==> Phase(s.fields.state) == 2)
  {
  }

  /** Until the owner answers the challenge an update changes nothing and reports nothing. */
  lemma AwaitingResponseIsQuiet(c: Config, f: Fields, io: ClientIo)
    requires Valid(f) && f.state == WaitingForChallengeResponse && f.endpointChallengeResponse.None?
    requires io.rpcUpdateOk
    ensures UpdateStep(c, f, io) == Step(f, None, Ok(None))
  {
  }

  /** A response for some other request, or an RPC error, fails the update. */
  lemma UnexpectedResponseFails(c: Config, f: Fields, io: ClientIo)
    requires Valid(f) && io.rpcUpdateOk && io.nextResponse.Some?
    requires f.state == WaitingForChallenge || f.state == WaitingForChallengeVerification
    requires var expected := if f.state == WaitingForChallenge then f.beginHandshakeRequestCookie
                             else f.sendResponseRequestCookie;
             io.nextResponse.value.Cookie() != expected.value || io.nextResponse.value.Error?
    ensures UpdateStep(c, f, io).result.Err?
  {
  }

  /**
   * The send_response call carries the ed25519 signature of the identity proof under the
   * client's identity key, the client's x25519 public key, and the x25519 signature over the
   * client's service id with its sign bit, together with the owner's challenge response.
   */
  lemma SendResponseSignsProof(c: Config, f: Fields, io: ClientIo)
    ensures var s := UpdateStep(c, f, io);
      s.call.Some? && f.state == WaitingForChallengeResponse ==>
        && f.serverCookie.Some? && f.endpointChallengeResponse.Some?
        && IdentityProof(c, io.clientCookie, f.serverCookie.value).Ok?
        && var signed := c.crypto.x25519Sign(c.clientX25519Private, ServiceIdBytes(c.ClientServiceId()));
        && signed.Some? && signed.value.1 <= 1
        && s.call == Some(SendResponseCall(
                            io.clientCookie,
                            c.crypto.ed25519Sign(c.clientEd25519Private,
                                                 IdentityProof(c, io.clientCookie, f.serverCookie.value).value),
                            c.crypto.x25519PublicOfPrivate(c.clientX25519Private),
                            signed.value.1 == 1, signed.value.0, f.endpointChallengeResponse.value))
  {
  }

  /** The begin_handshake reply must carry a generic binary server cookie of exactly 32 bytes. */
  lemma BadServerCookieFails(c: Config, f: Fields, io: ClientIo, reply: Document)
    requires Valid(f) && f.state == WaitingForChallenge && io.rpcUpdateOk
    requires io.nextResponse == Some(Succeeded(f.beginHandshakeRequestCookie.value, BDocument(reply)))
    requires "server_cookie" !in reply || !reply["server_cookie"].BBinary?
             || reply["server_cookie"].subtype != Generic || |reply["server_cookie"].bytes| != SERVER_COOKIE_SIZE
    ensures UpdateStep(c, f, io).result.Err?
    ensures UpdateStep(c, f, io).fields.state == WaitingForChallenge
  {
  }

  //
  // Whole runs.
  //

  datatype Action = Update(io: ClientIo) | SendResponse(challengeResponse: Document)

  /**
   * The client after a sequence of owner actions. A failed update ends the run (the owner drops
   * the session); a refused send_response changes nothing and the run goes on.
   */
  datatype Run = Run(fields: Fields, events: seq<Event>, failed: bool)

  function RunFrom(c: Config, start: Fields, actions: seq<Action>): Run
    decreases |actions|
  {
    if actions == [] then Run(start, [], false)
    else
      var before := RunFrom(c, start, actions[..|actions| - 1]);
      if before.failed then before
      else match actions[|actions| - 1]
        case Update(io) =>
          var s := UpdateStep(c, before.fields, io);
          if s.result.Err? then Run(s.fields, before.events, true)
          else if s.result.value.None? then Run(s.fields, before.events, false)
          else Run(s.fields, before.events + [s.result.value.value], false)
        case SendResponse(response) =>
          var (fields, _) := SendResponseStep(before.fields, response);
          Run(fields, before.events, false)
  }

  /**
   * Every run of a new client reports at most a challenge and then a completion, in that order;
   * the completion is reported exactly when the run has reached HandshakeComplete.
   */
  lemma {:induction false} RunEventsInOrder(c: Config, actions: seq<Action>)
    ensures var run := RunFrom(c, Initial, actions);
      |run.events| <= 2
      && (|run.events| >= 1 ==> run.events[0].ChallengeReceived?)
      && (|run.events| == 2 ==> run.events[1].HandshakeCompleted?)
      && (!run.failed ==> Valid(run.fields) && |run.events| == Phase(run.fields.state))
      && (run.fields.state == HandshakeComplete <==> |run.events| == 2)
    decreases |actions|
  {
    if actions != [] {
      var prefix := actions[..|actions| - 1];
      RunEventsInOrder(c, prefix);
      var before := RunFrom(c, Initial, prefix);
      if !before.failed {
        match actions[|actions| - 1]
        case Update(io) =>
          UpdateKeepsValid(c, before.fields, io);
          UpdateEvents(c, before.fields, io);
        case SendResponse(response) =>
      }
    }
  }

  //
  // The object.
  //

  class IdentityClient {
    const crypto: Crypto
    const serverServiceId: ServiceId
    const requestedEndpoint: string
    const clientServiceId: ServiceId
    const clientEd25519Private: Ed25519PrivateKey
    const clientX25519Private: X25519PrivateKey

    var state: State
    var beginHandshakeRequestCookie: Option<RequestCookie>
    var serverCookie: Option<Cookie>
    var endpointChallengeResponse: Option<Document>
    var sendResponseRequestCookie: Option<RequestCookie>
    /** The calls this client has queued on its RPC session, oldest first. */
    var rpcCalls: seq<RpcCall>

    function Settings(): Config {
      Config(crypto, serverServiceId, requestedEndpoint, clientEd25519Private, clientX25519Private)
    }

    function Snapshot(): Fields
      reads this
    {
      Fields(state, beginHandshakeRequestCookie, serverCookie, endpointChallengeResponse, sendResponseRequestCookie)
    }

    constructor (crypto: Crypto, serverServiceId: ServiceId, requestedEndpoint: string,
                 clientEd25519Private: Ed25519PrivateKey, clientX25519Private: X25519PrivateKey)
      ensures Settings() == Config(crypto, serverServiceId, requestedEndpoint, clientEd25519Private, clientX25519Private)
      ensures clientServiceId == Settings().ClientServiceId()
      ensures Snapshot() == Initial && rpcCalls == []
    {
      this.crypto := crypto;
      this.serverServiceId := serverServiceId;
      this.requestedEndpoint := requestedEndpoint;
      this.clientServiceId := crypto.serviceIdOfPrivateKey(clientEd25519Private);
      this.clientEd25519Private := clientEd25519Private;
      this.clientX25519Private := clientX25519Private;
      state := BeginHandshake;
      beginHandshakeRequestCookie := None;
      serverCookie := None;
      sendResponseRequestCookie := None;
      endpointChallengeResponse := None;
      rpcCalls := [];
    }

    method Update(io: ClientIo) returns (r: Result<Option<Event>, Fault>)
      requires clientServiceId == Settings().ClientServiceId()
      modifies this
      ensures var s := UpdateStep(Settings(), old(Snapshot()), io);
        Snapshot() == s.fields && r == s.result
        && rpcCalls == old(rpcCalls) + (if s.call.Some? then [s.call.value] else [])
    {
      if state == HandshakeComplete {
        return Err(HandshakeAlreadyComplete);
      }
      if !io.rpcUpdateOk {
        return Err(RpcSessionFailed);
      }
      var challengeResponse := endpointChallengeResponse;
      endpointChallengeResponse := None;
      match (state, beginHandshakeRequestCookie, serverCookie, challengeResponse, sendResponseRequestCookie) {
        case (BeginHandshake, None, None, None, None) =>
          if io.callCookie.None? {
            return Err(RpcCallFailed);
          }
          rpcCalls := rpcCalls + [BeginHandshakeCall(Settings())];
          beginHandshakeRequestCookie := io.callCookie;
          state := WaitingForChallenge;
        case (WaitingForChallenge, Some(beginCookie), None, None, None) =>
          if io.nextResponse.Some? {
            var checked := CheckResponse(beginCookie, io.nextResponse.value);
            if checked.Err? {
              return Err(checked.error);
            } else if checked.value.None? {
              return Ok(None);
            }
            var reply := checked.value.value;
            if !reply.BDocument? {
              return Err(UnexpectedBsonType);
            }
            r := ReadChallenge(reply.doc);
            return;
          }
        case (WaitingForChallengeResponse, Some(_), Some(_), None, None) =>
          return Ok(None);
        case (WaitingForChallengeResponse, Some(_), Some(sc), Some(response), None) =>
          r := RespondToChallenge(sc, response, io);
          return;
        case (WaitingForChallengeVerification, Some(_), Some(_), None, Some(sendCookie)) =>
          if io.nextResponse.Some? {
            var checked := CheckResponse(sendCookie, io.nextResponse.value);
            if checked.Err? {
              return Err(checked.error);
            } else if checked.value.None? {
              return Ok(None);
            }
            var reply := checked.value.value;
            if !reply.BString? {
              return Err(UnexpectedBsonType);
            }
            var endpoint := ServiceIdFromString(crypto, reply.str);
            if endpoint.None? {
              return Err(InvalidServiceId);
            }
            state := HandshakeComplete;
            return Ok(Some(HandshakeCompleted(serverServiceId, endpoint.value, requestedEndpoint,
                                              clientX25519Private)));
          }
        case _ =>
          return Err(UnexpectedState);
      }
      return Ok(None);
    }

    /** The begin_handshake reply of update: the server cookie, then the challenge. */
    method ReadChallenge(reply: Document) returns (r: Result<Option<Event>, Fault>)
      modifies this
      ensures var s := ChallengeReply(Settings(), old(Snapshot()), reply);
        Snapshot() == s.fields && r == s.result && s.call.None? && rpcCalls == old(rpcCalls)
    {
      var sc := Get(reply, "server_cookie");
      if sc.None? {
        return Err(MissingServerCookie);
      } else if !(sc.value.BBinary? && sc.value.subtype == Generic) {
        return Err(UnexpectedBsonType);
      } else if |sc.value.bytes| != SERVER_COOKIE_SIZE {
        return Err(InvalidServerCookie);
      }
      serverCookie := Some(sc.value.bytes);
      var challenge := Get(reply, "endpoint_challenge");
      if challenge.None? {
        return Err(MissingEndpointChallenge);
      } else if !challenge.value.BDocument? {
        return Err(UnexpectedBsonType);
      }
      state := WaitingForChallengeResponse;
      return Ok(Some(ChallengeReceived(serverServiceId, requestedEndpoint, challenge.value.doc)));
    }

    /** The challenge-response arm of update: proof, signatures and the send_response call. */
    method RespondToChallenge(sc: Cookie, response: Document, io: ClientIo) returns (r: Result<Option<Event>, Fault>)
      requires clientServiceId == Settings().ClientServiceId()
      modifies this
      ensures var s := Respond(Settings(), old(Snapshot()), sc, response, io);
        Snapshot() == s.fields && r == s.result
        && rpcCalls == old(rpcCalls) + (if s.call.Some? then [s.call.value] else [])
    {
      var proof := BuildClientProof(GoslingIdentity, requestedEndpoint, clientServiceId, serverServiceId,
                                    io.clientCookie, sc);
      if proof.Err? {
        return Err(proof.error);
      }
      var proofSignature := crypto.ed25519Sign(clientEd25519Private, proof.value);
      var authKey := crypto.x25519PublicOfPrivate(clientX25519Private);
      var signed := crypto.x25519Sign(clientX25519Private, ServiceIdBytes(clientServiceId));
      if signed.None? {
        return Err(SigningFailed);
      }
      var (authSignature, signbit) := signed.value;
      if signbit > 1 {
        return Err(InvalidSignbit);
      }
      if io.callCookie.None? {
        return Err(RpcCallFailed);
      }
      rpcCalls := rpcCalls + [SendResponseCall(io.clientCookie, proofSignature, authKey, signbit == 1,
                                               authSignature, response)];
      sendResponseRequestCookie := io.callCookie;
      state := WaitingForChallengeVerification;
      return Ok(None);
    }

    method SendResponse(challengeResponse: Document) returns (r: Result<(), Fault>)
      modifies this`endpointChallengeResponse
      ensures (Snapshot(), r) == SendResponseStep(old(Snapshot()), challengeResponse)
    {
      if state != WaitingForChallengeResponse {
        return Err(UnexpectedState);
      }
      endpointChallengeResponse := Some(challengeResponse);
      return Ok(());
    }
  }
}
