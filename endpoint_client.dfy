/**
 * The client side of the endpoint handshake (gosling.rs EndpointClient).
 *
 * The client asks an endpoint server for a channel, receives a server cookie, and answers
 * with a proof signed by its identity key; an empty reply document completes the handshake.
 * Unlike the identity handshake there is no challenge for the owner to answer, so update
 * alone drives the client.
 *
 * UpdateStep is the specification; the class EndpointClient holds the source's fields and its
 * update is proved to follow it.
 */
module EndpointClient {
  import opened Types
  import opened ClientProof

  datatype State =
    | BeginHandshake
    | WaitingForServerCookie
    | WaitingForProofVerification
    | HandshakeComplete

  datatype Event = HandshakeCompleted

  /** The fields that never change after construction. */
  datatype Config = Config(
    crypto: Crypto,
    serverServiceId: ServiceId,
    requestedChannel: string,
    clientEd25519Private: Ed25519PrivateKey)
  {
    function ClientServiceId(): ServiceId {
      crypto.serviceIdOfPrivateKey(clientEd25519Private)
    }
  }

  /** The state machine's fields. */
  datatype Fields = Fields(
    state: State,
    beginHandshakeRequestCookie: Option<RequestCookie>,
    sendResponseRequestCookie: Option<RequestCookie>)

  const Initial: Fields := Fields(BeginHandshake, None, None)

  /** One update: the new fields, the RPC call queued (if any) and what update returns. */
  datatype Step = Step(fields: Fields, call: Option<RpcCall>, result: Result<Option<Event>, Fault>)

  function Rank(s: State): nat {
    match s
    case BeginHandshake => 0
    case WaitingForServerCookie => 1
    case WaitingForProofVerification => 2
    case HandshakeComplete => 3
  }

  /** The request cookies each state is entered with. */
  predicate Valid(f: Fields) {
    match f.state
    case BeginHandshake => f.beginHandshakeRequestCookie.None? && f.sendResponseRequestCookie.None?
    case WaitingForServerCookie => f.beginHandshakeRequestCookie.Some? && f.sendResponseRequestCookie.None?
    case WaitingForProofVerification => f.beginHandshakeRequestCookie.Some? && f.sendResponseRequestCookie.Some?
    case HandshakeComplete => f.beginHandshakeRequestCookie.Some? && f.sendResponseRequestCookie.Some?
  }

  function BeginHandshakeCall(c: Config): RpcCall {
    RpcCall("gosling_endpoint", "begin_handshake", 0,
            map["version" := BString(GOSLING_VERSION), "channel" := BString(c.requestedChannel)])
  }

  function SendResponseCall(clientCookie: Cookie, clientIdentity: ServiceId, proofSignature: Ed25519Signature): RpcCall {
    RpcCall("gosling_endpoint", "send_response", 0,
            map["client_cookie" := BBinary(Generic, clientCookie),
                "client_identity" := BString(clientIdentity),
                "client_identity_proof_signature" := BBinary(Generic, proofSignature.raw)])
  }

  /** The proof the client signs with its identity key. */
  function EndpointProof(c: Config, clientCookie: Cookie, serverCookie: Cookie): Result<seq<byte>, Fault> {
    BuildClientProof(GoslingEndpoint, c.requestedChannel, c.ClientServiceId(), c.serverServiceId,
                     clientCookie, serverCookie)
  }

  /**
   * The begin_handshake reply. A document without a generic binary server cookie is ignored:
   * the response has been consumed and the client keeps waiting.
   */
  function ServerCookieReply(c: Config, f: Fields, reply: Document, io: ClientIo): Step {
    var sc := GenericBinary(Get(reply, "server_cookie"));
    if sc.None? then Step(f, None, Ok(None))
    else if |sc.value| != SERVER_COOKIE_SIZE then Step(f, None, Err(InvalidServerCookie))
    else
      var proof := EndpointProof(c, io.clientCookie, sc.value);
      if proof.Err? then Step(f, None, Err(proof.error))
      else
        var signature := c.crypto.ed25519Sign(c.clientEd25519Private, proof.value);
        if io.callCookie.None? then Step(f, None, Err(RpcCallFailed))
        else Step(f.(sendResponseRequestCookie := io.callCookie, state := WaitingForProofVerification),
                  Some(SendResponseCall(io.clientCookie, c.ClientServiceId(), signature)), Ok(None))
  }

  /** The send_response reply: an empty document completes the handshake; other values are ignored. */
  function VerificationReply(f: Fields, result: Bson): Step {
    if !result.BDocument? then Step(f, None, Ok(None))
    else if result.doc != map[] then Step(f, None, Err(NonEmptyResult))
    else Step(f.(state := HandshakeComplete), None, Ok(Some(HandshakeCompleted)))
  }

  /** gosling.rs EndpointClient::update. */
  function UpdateStep(c: Config, f: Fields, io: ClientIo): (s: Step)
    ensures f.state == HandshakeComplete ==> s == Step(f, None, Err(HandshakeAlreadyComplete))
    ensures f.state != HandshakeComplete && !io.rpcUpdateOk ==> s == Step(f, None, Err(RpcSessionFailed))
    ensures s.result.Err? ==> s.fields == f && s.call.None?
    ensures Rank(f.state) <= Rank(s.fields.state) <= Rank(f.state) + 1
    ensures s.call.Some? <==> s.result.Ok? && Rank(s.fields.state) == Rank(f.state) + 1 && s.fields.state != HandshakeComplete
    ensures s.result.Ok? && s.result.value.Some? <==> f.state != HandshakeComplete && s.fields.state == HandshakeComplete
  {
    if f.state == HandshakeComplete then Step(f, None, Err(HandshakeAlreadyComplete))
    else if !io.rpcUpdateOk then Step(f, None, Err(RpcSessionFailed))
    else
      match (f.state, f.beginHandshakeRequestCookie, f.sendResponseRequestCookie)
      case (BeginHandshake, None, None) =>
        if io.callCookie.None? then Step(f, None, Err(RpcCallFailed))
        else Step(f.(beginHandshakeRequestCookie := io.callCookie, state := WaitingForServerCookie),
                  Some(BeginHandshakeCall(c)), Ok(None))
      case (WaitingForServerCookie, Some(beginCookie), None) =>
        if io.nextResponse.None? then Step(f, None, Ok(None))
        else
          var checked := CheckResponse(beginCookie, io.nextResponse.value);
          if checked.Err? then Step(f, None, Err(checked.error))
          else if checked.value.None? then Step(f, None, Ok(None))
          else if !checked.value.value.BDocument? then Step(f, None, Err(UnexpectedBsonType))
          else ServerCookieReply(c, f, checked.value.value.doc, io)
      case (WaitingForProofVerification, Some(_), Some(sendCookie)) =>
        if io.nextResponse.None? then Step(f, None, Ok(None))
        else
          var checked := CheckResponse(sendCookie, io.nextResponse.value);
          if checked.Err? then Step(f, None, Err(checked.error))
          else if checked.value.None? then Step(f, None, Ok(None))
          else VerificationReply(f, checked.value.value)
      case _ =>
        Step(f, None, Err(UnexpectedState))
  }

  //
  // Properties of single steps.
  //

  /** A valid client never hits the catch-all arm, and every step keeps Valid. */
  lemma UpdateKeepsValid(c: Config, f: Fields, io: ClientIo)
    requires Valid(f)
    ensures UpdateStep(c, f, io).result != Err(UnexpectedState)
    ensures Valid(UpdateStep(c, f, io).fields)
  {
  }

  /**
   * The send_response call answers the begin_handshake reply it read: that reply succeeded
   * under the begin_handshake cookie with a document whose server_cookie is 32 bytes, and the
   * call carries the client's service id, the fresh client cookie, and the client's signature
   * over the endpoint proof built from the client cookie and that server cookie.
   */
  lemma SendResponseSignsProof(c: Config, f: Fields, io: ClientIo)
    requires Valid(f)
    ensures var s := UpdateStep(c, f, io);
      s.fields.state == WaitingForProofVerification && f.state == WaitingForServerCookie ==>
        && io.nextResponse.Some? && io.nextResponse.value.Succeeded?
        && io.nextResponse.value.cookie == f.beginHandshakeRequestCookie.value
        && io.nextResponse.value.result.BDocument?
        && var sc := GenericBinary(Get(io.nextResponse.value.result.doc, "server_cookie"));
        && sc.Some? && |sc.value| == SERVER_COOKIE_SIZE
        && EndpointProof(c, io.clientCookie, sc.value).Ok?
        && s.call == Some(SendResponseCall(io.clientCookie, c.ClientServiceId(),
                            c.crypto.ed25519Sign(c.clientEd25519Private,
                                                 EndpointProof(c, io.clientCookie, sc.value).value)))
  {
  }

  /** A begin_handshake reply without a server cookie is swallowed: nothing changes and nothing is reported. */
  lemma MissingServerCookieIgnored(c: Config, f: Fields, io: ClientIo, reply: Document)
    requires Valid(f) && f.state == WaitingForServerCookie && io.rpcUpdateOk
    requires io.nextResponse == Some(Succeeded(f.beginHandshakeRequestCookie.value, BDocument(reply)))
    requires "server_cookie" !in reply
    ensures UpdateStep(c, f, io) == Step(f, None, Ok(None))
  {
  }

  /** A server cookie of the wrong size fails the update. */
  lemma BadServerCookieFails(c: Config, f: Fields, io: ClientIo, reply: Document)
    requires Valid(f) && f.state == WaitingForServerCookie && io.rpcUpdateOk
    requires io.nextResponse == Some(Succeeded(f.beginHandshakeRequestCookie.value, BDocument(reply)))
    requires GenericBinary(Get(reply, "server_cookie")).Some?
    requires |GenericBinary(Get(reply, "server_cookie")).value| != SERVER_COOKIE_SIZE
    ensures UpdateStep(c, f, io).result == Err(InvalidServerCookie)
  {
  }

  /** Only an empty document completes the handshake; a non-empty one fails the update. */
  lemma VerificationNeedsEmptyDocument(c: Config, f: Fields, io: ClientIo)
    requires Valid(f) && f.state == WaitingForProofVerification && io.rpcUpdateOk
    requires io.nextResponse.Some? && io.nextResponse.value.Succeeded?
    requires io.nextResponse.value.cookie == f.sendResponseRequestCookie.value
    requires io.nextResponse.value.result.BDocument?
    ensures (UpdateStep(c, f, io).result.Ok? && UpdateStep(c, f, io).result.value.Some?) <==>
              io.nextResponse.value.result.doc == map[]
    ensures io.nextResponse.value.result.doc != map[] ==> UpdateStep(c, f, io).result == Err(NonEmptyResult)
  {
  }

  //
  // Whole runs.
  //

  /** A client after a sequence of updates; a failed update ends the run (the session is dropped). */
  datatype Run = Run(fields: Fields, calls: seq<RpcCall>, events: seq<Event>, failed: bool)

  /** One more update of a run that has not failed. */
  function Next(c: Config, before: Run, io: ClientIo): Run {
    var s := UpdateStep(c, before.fields, io);
    Run(s.fields,
        before.calls + (if s.call.Some? then [s.call.value] else []),
        before.events + (if s.result.Ok? && s.result.value.Some? then [s.result.value.value] else []),
        s.result.Err?)
  }

  function RunFrom(c: Config, ios: seq<ClientIo>): (run: Run)
    decreases |ios|
  {
    if ios == [] then Run(Initial, [], [], false)
    else
      var before := RunFrom(c, ios[..|ios| - 1]);
      if before.failed then before else Next(c, before, ios[|ios| - 1])
  }

  /** What every run of a new client satisfies. */
  predicate CallsAndEvents(c: Config, run: Run) {
    && Valid(run.fields)
    && |run.calls| == (if Rank(run.fields.state) >= 2 then 2 else Rank(run.fields.state))
    && (|run.calls| >= 1 ==> run.calls[0] == BeginHandshakeCall(c))
    && (|run.calls| == 2 ==> run.calls[1].name == "send_response")
    && |run.events| <= 1
    && (|run.events| == 1 <==> run.fields.state == HandshakeComplete)
  }

  /** A call made on an advance is begin_handshake from the start and send_response after it. */
  lemma AdvanceCall(c: Config, f: Fields, io: ClientIo)
    requires Valid(f)
    ensures var s := UpdateStep(c, f, io);
      s.call.Some? ==> (Rank(f.state) == 0 ==> s.call.value == BeginHandshakeCall(c))
                       && (Rank(f.state) == 1 ==> s.call.value.name == "send_response")
  {
  }

  lemma NextKeepsCallsAndEvents(c: Config, before: Run, io: ClientIo)
    requires CallsAndEvents(c, before)
    ensures CallsAndEvents(c, Next(c, before, io))
  {
    UpdateKeepsValid(c, before.fields, io);
    AdvanceCall(c, before.fields, io);
  }

  /**
   * Every run of a new client makes at most the two calls, begin_handshake first, and reports
   * HandshakeCompleted at most once, exactly when it has reached HandshakeComplete.
   */
  lemma {:induction false} RunCallsAndEvents(c: Config, ios: seq<ClientIo>)
    ensures CallsAndEvents(c, RunFrom(c, ios))
    decreases |ios|
  {
    if ios != [] {
      var prefix := ios[..|ios| - 1];
      RunCallsAndEvents(c, prefix);
      var before := RunFrom(c, prefix);
      if !before.failed {
        NextKeepsCallsAndEvents(c, before, ios[|ios| - 1]);
      }
    }
  }

  //
  // The object.
  //

  class EndpointClient {
    const crypto: Crypto
    const serverServiceId: ServiceId
    const requestedChannel: string
    const clientEd25519Private: Ed25519PrivateKey

    var state: State
    var beginHandshakeRequestCookie: Option<RequestCookie>
    var sendResponseRequestCookie: Option<RequestCookie>
    /** The calls this client has queued on its RPC session, oldest first. */
    var rpcCalls: seq<RpcCall>

    function Settings(): Config {
      Config(crypto, serverServiceId, requestedChannel, clientEd25519Private)
    }

    function Snapshot(): Fields
      reads this
    {
      Fields(state, beginHandshakeRequestCookie, sendResponseRequestCookie)
    }

    constructor (crypto: Crypto, serverServiceId: ServiceId, requestedChannel: string,
                 clientEd25519Private: Ed25519PrivateKey)
      ensures Settings() == Config(crypto, serverServiceId, requestedChannel, clientEd25519Private)
      ensures Snapshot() == Initial && rpcCalls == []
    {
      this.crypto := crypto;
      this.serverServiceId := serverServiceId;
      this.requestedChannel := requestedChannel;
      this.clientEd25519Private := clientEd25519Private;
      state := BeginHandshake;
      beginHandshakeRequestCookie := None;
      sendResponseRequestCookie := None;
      rpcCalls := [];
    }

    method Update(io: ClientIo) returns (r: Result<Option<Event>, Fault>)
      modifies this
      ensures var s := UpdateStep(Settings(), old(Snapshot()), io);
        Snapshot() == s.fields && r == s.result
        && rpcCalls == old(rpcCalls) + (if s.call.Some? then [s.call.value] else [])
    {
      if state == HandshakeComplete {
        return Err(HandshakeAlreadyComplete);
      }
      if !io.rpcUpdateOk {
        return Err(RpcSessionFailed);
      }
      match (state, beginHandshakeRequestCookie, sendResponseRequestCookie) {
        case (BeginHandshake, None, None) =>
          if io.callCookie.None? {
            return Err(RpcCallFailed);
          }
          rpcCalls := rpcCalls + [BeginHandshakeCall(Settings())];
          beginHandshakeRequestCookie := io.callCookie;
          state := WaitingForServerCookie;
        case (WaitingForServerCookie, Some(beginCookie), None) =>
          if io.nextResponse.Some? {
            var checked := CheckResponse(beginCookie, io.nextResponse.value);
            if checked.Err? {
              return Err(checked.error);
            } else if checked.value.None? {
              return Ok(None);
            }
            var reply := checked.value.value;
            if !reply.BDocument? {
              return Err(UnexpectedBsonType);
            }
            var sc := GenericBinary(Get(reply.doc, "server_cookie"));
            if sc.Some? {
              var clientServiceId := crypto.serviceIdOfPrivateKey(clientEd25519Private);
              if |sc.value| != SERVER_COOKIE_SIZE {
                return Err(InvalidServerCookie);
              }
              var proof := BuildClientProof(GoslingEndpoint, requestedChannel, clientServiceId, serverServiceId,
                                            io.clientCookie, sc.value);
              if proof.Err? {
                return Err(proof.error);
              }
              var signature := crypto.ed25519Sign(clientEd25519Private, proof.value);
              if io.callCookie.None? {
                return Err(RpcCallFailed);
              }
              rpcCalls := rpcCalls + [SendResponseCall(io.clientCookie, clientServiceId, signature)];
              sendResponseRequestCookie := io.callCookie;
              state := WaitingForProofVerification;
            }
          }
        case (WaitingForProofVerification, Some(_), Some(sendCookie)) =>
          if io.nextResponse.Some? {
            var checked := CheckResponse(sendCookie, io.nextResponse.value);
            if checked.Err? {
              return Err(checked.error);
            } else if checked.value.None? {
              return Ok(None);
            }
            var reply := checked.value.value;
            if reply.BDocument? {
              if reply.doc != map[] {
                return Err(NonEmptyResult);
              }
              state := HandshakeComplete;
              return Ok(Some(HandshakeCompleted));
            }
          }
        case _ =>
          return Err(UnexpectedState);
      }
      return Ok(None);
    }
  }
}
