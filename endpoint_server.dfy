/**
 * The server side of the endpoint handshake as the session table uses it (gosling.rs
 * EndpointServer).
 *
 * Each server is created for one endpoint and one allowed client, with a random server
 * cookie. The RPC layer drives it through exec_function (begin_handshake, then send_response);
 * next_result never has anything to say, because both calls are answered at once. The
 * handshake succeeds exactly when the caller is the allowed client and its proof signature
 * verifies.
 *
 * The pure step functions are the specification; the class EndpointServer holds the source's
 * fields and its methods are proved to follow them.
 */
module EndpointServer {
  import opened Types
  import opened ClientProof

  datatype State =
    | WaitingForBeginHandshake
    | WaitingForSendResponse
    | HandledSendResponse
    | HandshakeComplete

  datatype Event =
    | ChannelRequestReceived(requestedChannel: string)
    | HandshakeCompleted(clientServiceId: ServiceId, channelName: string)
    | HandshakeRejected(clientAllowed: bool, clientRequestedChannelValid: bool, clientProofSignatureValid: bool)

  /** The fields that never change after construction; clientIdentity is the one allowed client. */
  datatype Config = Config(crypto: Crypto, serverCookie: Cookie, clientIdentity: ServiceId, serverIdentity: ServiceId)

  /** The state machine's fields; hasRpc is false once the RPC session's update has failed. */
  datatype Fields = Fields(
    hasRpc: bool,
    state: State,
    requestedChannel: Option<string>,
    handshakeSucceeded: Option<bool>)

  const Initial: Fields := Fields(true, WaitingForBeginHandshake, None, None)

  /** The field combinations each state is entered with. */
  predicate Valid(f: Fields) {
    match f.state
    case WaitingForBeginHandshake => f.requestedChannel.None? && f.handshakeSucceeded.None?
    case WaitingForSendResponse => f.requestedChannel.Some? && f.handshakeSucceeded.None?
    case HandledSendResponse => f.requestedChannel.Some? && f.handshakeSucceeded.Some?
    case HandshakeComplete => f.requestedChannel.Some? && f.handshakeSucceeded.Some?
  }

  function Rank(s: State): nat {
    match s
    case WaitingForBeginHandshake => 0
    case WaitingForSendResponse => 1
    case HandledSendResponse => 2
    case HandshakeComplete => 3
  }

  //
  // exec_function
  //

  /** gosling.rs EndpointServer::handle_begin_handshake: the version check, then the channel and the cookie. */
  function HandleBeginHandshakeStep(c: Config, f: Fields, version: string, channel: string)
    : (r: (Fields, Result<Bson, GoslingError>))
    ensures r.1.Err? <==> version != GOSLING_VERSION
    ensures r.1.Err? ==> r.1.error == BadVersion && r.0 == f
    ensures r.1.Ok? ==> r.0 == f.(requestedChannel := Some(channel), state := WaitingForSendResponse)
    ensures r.1.Ok? ==> r.1.value == BDocument(map["server_cookie" := BBinary(Generic, c.serverCookie)])
  {
    if version != GOSLING_VERSION then (f, Err(BadVersion))
    else
      (f.(requestedChannel := Some(channel), state := WaitingForSendResponse),
       Ok(BDocument(map["server_cookie" := BBinary(Generic, c.serverCookie)])))
  }

  /**
   * Whether a send_response proves the allowed client asked for this channel: the caller is the
   * allowed client, its service id yields a public key, the proof can be built, and the
   * signature over it verifies.
   */
  predicate ProofAccepted(c: Config, channel: string, clientCookie: Cookie, clientIdentity: ServiceId,
                          signature: Ed25519Signature)
  {
    var key := c.crypto.publicKeyOfServiceId(clientIdentity);
    var proof := BuildClientProof(GoslingEndpoint, channel, clientIdentity, c.serverIdentity, clientCookie,
                                  c.serverCookie);
    clientIdentity == c.clientIdentity && key.Some? && proof.Ok?
    && c.crypto.ed25519Verify(signature, proof.value, key.value)
  }

  /** gosling.rs EndpointServer::handle_send_response: records the verdict and answers at once. */
  function HandleSendResponseStep(c: Config, f: Fields, clientCookie: Cookie, clientIdentity: ServiceId,
                                  signature: Ed25519Signature): (r: (Fields, Result<Bson, GoslingError>))
    requires f.requestedChannel.Some?
    ensures r.0 == f.(state := HandledSendResponse, handshakeSucceeded := Some(r.1.Ok?))
    ensures r.1.Ok? <==> ProofAccepted(c, f.requestedChannel.value, clientCookie, clientIdentity, signature)
    ensures r.1.Ok? ==> r.1.value == BDocument(map[])
    ensures r.1.Err? ==> r.1.error == Failure
  {
    var allowed := clientIdentity == c.clientIdentity;
    var key := c.crypto.publicKeyOfServiceId(clientIdentity);
    var proof := BuildClientProof(GoslingEndpoint, f.requestedChannel.value, clientIdentity, c.serverIdentity,
                                  clientCookie, c.serverCookie);
    if key.Some? && proof.Ok? && allowed && c.crypto.ed25519Verify(signature, proof.value, key.value) then
      (f.(handshakeSucceeded := Some(true), state := HandledSendResponse), Ok(BDocument(map[])))
    else
      (f.(handshakeSucceeded := Some(false), state := HandledSendResponse), Err(Failure))
  }

  /** The three send_response arguments, each of the type the server expects. */
  datatype SendResponseArgs = SendResponseArgs(clientCookie: seq<byte>, clientIdentity: string, proofSignature: seq<byte>)

  function GetSendResponseArgs(args: Document): Option<SendResponseArgs> {
    var clientCookie := GenericBinary(Get(args, "client_cookie"));
    var identity := StringArg(Get(args, "client_identity"));
    var signature := GenericBinary(Get(args, "client_identity_proof_signature"));
    if clientCookie.None? || identity.None? || signature.None? then None
    else Some(SendResponseArgs(clientCookie.value, identity.value, signature.value))
  }

  /** Converts a Result of a handler into what exec_function returns. */
  function ToRpc(r: Result<Bson, GoslingError>): Result<Option<Bson>, ErrorCode> {
    if r.Ok? then Ok(Some(r.value)) else Err(RuntimeError(r.error))
  }

  function BeginHandshakeCall(c: Config, f: Fields, args: Document): (Fields, Result<Option<Bson>, ErrorCode>) {
    var version := StringArg(Get(args, "version"));
    var channel := StringArg(Get(args, "channel"));
    if version.None? || channel.None? then (f, Err(RuntimeError(InvalidArg)))
    else
      var (g, r) := HandleBeginHandshakeStep(c, f, version.value, channel.value);
      (g, ToRpc(r))
  }

  function SendResponseCall(c: Config, f: Fields, args: Document): (Fields, Result<Option<Bson>, ErrorCode>)
    requires f.requestedChannel.Some?
  {
    var a := GetSendResponseArgs(args);
    if a.None? then (f, Err(RuntimeError(InvalidArg)))
    else if |a.value.clientCookie| != CLIENT_COOKIE_SIZE then (f, Err(RuntimeError(InvalidArg)))
    else
      var identity := ServiceIdFromString(c.crypto, a.value.clientIdentity);
      if identity.None? then (f, Err(RuntimeError(InvalidArg)))
      else if |a.value.proofSignature| != ED25519_SIGNATURE_SIZE || !c.crypto.signatureFromRaw(a.value.proofSignature)
      then (f, Err(RuntimeError(InvalidArg)))
      else
        var (g, r) := HandleSendResponseStep(c, f, a.value.clientCookie, identity.value,
                                             Ed25519Signature(a.value.proofSignature));
        (g, ToRpc(r))
  }

  /** The server is ready for the function called: its name, version 0, and the matching state. */
  predicate Accepts(f: Fields, name: string, version: int) {
    || (name == "begin_handshake" && version == 0 && f.state == WaitingForBeginHandshake && f.requestedChannel.None?)
    || (name == "send_response" && version == 0 && f.state == WaitingForSendResponse && f.requestedChannel.Some?)
  }

  /**
   * gosling.rs EndpointServer::exec_function. A call the server is not ready for is answered
   * with no value and changes nothing; a malformed argument is refused with InvalidArg and
   * changes nothing either.
   */
  function ExecFunctionStep(c: Config, f: Fields, name: string, version: int, args: Document,
                            requestCookie: Option<RequestCookie>): (r: (Fields, Result<Option<Bson>, ErrorCode>))
    ensures requestCookie.None? ==> r == (f, Err(RuntimeError(RequestCookieRequired)))
    ensures requestCookie.Some? && !Accepts(f, name, version) ==> r == (f, Ok(None))
    ensures r.0.hasRpc == f.hasRpc
    ensures r.0 != f ==> Accepts(f, name, version) && Rank(r.0.state) == Rank(f.state) + 1
    ensures r.1 == Err(RuntimeError(InvalidArg)) ==> r.0 == f
    ensures requestCookie.Some? && name == "begin_handshake" && version == 0
            && f.state == WaitingForBeginHandshake && f.requestedChannel.None? ==>
              var v := StringArg(Get(args, "version"));
              var channel := StringArg(Get(args, "channel"));
              && (v.None? || channel.None? ==> r == (f, Err(RuntimeError(InvalidArg))))
              && (v.Some? && channel.Some? && v.value != GOSLING_VERSION ==> r == (f, Err(RuntimeError(BadVersion))))
              && (v.Some? && channel.Some? && v.value == GOSLING_VERSION ==>
                    && r.0 == f.(requestedChannel := channel, state := WaitingForSendResponse)
                    && r.1 == Ok(Some(BDocument(map["server_cookie" := BBinary(Generic, c.serverCookie)]))))
    ensures requestCookie.Some? && name == "send_response" && version == 0
            && f.state == WaitingForSendResponse && f.requestedChannel.Some? && r.1 != Err(RuntimeError(InvalidArg)) ==>
              r.0 == f.(state := HandledSendResponse, handshakeSucceeded := Some(r.1.Ok?))
  {
    if requestCookie.None? then (f, Err(RuntimeError(RequestCookieRequired)))
    else if name == "begin_handshake" && version == 0 && f.state == WaitingForBeginHandshake && f.requestedChannel.None?
    then BeginHandshakeCall(c, f, args)
    else if name == "send_response" && version == 0 && f.state == WaitingForSendResponse && f.requestedChannel.Some?
    then SendResponseCall(c, f, args)
    else (f, Ok(None))
  }

  //
  // update
  //

  /** One call the RPC session makes into the server while it updates. */
  datatype Invocation =
    | Call(name: string, version: int, args: Document, requestCookie: Option<RequestCookie>)
    | Poll

  /** The server after one invocation; next_result always answers None. */
  function ServeOne(c: Config, f: Fields, invocation: Invocation): (r: (Fields, Answer))
    ensures invocation.Poll? ==> r == (f, PollAnswer(None))
  {
    match invocation
    case Call(name, version, args, cookie) =>
      var (g, result) := ExecFunctionStep(c, f, name, version, args, cookie);
      (g, CallAnswer(result))
    case Poll => (f, PollAnswer(None))
  }

  function ServeRpc(c: Config, f: Fields, invocations: seq<Invocation>): (r: (Fields, seq<Answer>))
    ensures |r.1| == |invocations|
    decreases |invocations|
  {
    if invocations == [] then (f, [])
    else
      var (g, answers) := ServeRpc(c, f, invocations[..|invocations| - 1]);
      var (h, answer) := ServeOne(c, g, invocations[|invocations| - 1]);
      (h, answers + [answer])
  }

  /**
   * The match at the end of gosling.rs EndpointServer::update: after send_response the
   * handshake is complete, reported only when it succeeded. Every other combination fails.
   */
  function EventStep(c: Config, f: Fields): (r: (Fields, Result<Option<Event>, Fault>))
    ensures r.1.Err? ==> r.0 == f
    ensures r.1.Ok? && r.1.value.Some? ==>
              f.state == HandledSendResponse && f.handshakeSucceeded == Some(true) && f.requestedChannel.Some?
              && r.1.value.value == HandshakeCompleted(c.clientIdentity, f.requestedChannel.value)
  {
    match (f.state, f.requestedChannel, f.handshakeSucceeded)
    case (WaitingForBeginHandshake, None, None) => (f, Ok(None))
    case (WaitingForSendResponse, Some(_), None) => (f, Ok(None))
    case (HandledSendResponse, Some(channel), Some(succeeded)) =>
      if succeeded then (f.(state := HandshakeComplete), Ok(Some(HandshakeCompleted(c.clientIdentity, channel))))
      else (f.(state := HandshakeComplete), Ok(None))
    case _ => (f, Err(UnexpectedState))
  }

  /** What one update of the server sees: the RPC session's invocations, and whether its update succeeded. */
  datatype UpdateIo = UpdateIo(invocations: seq<Invocation>, rpcOk: bool)

  datatype Updated = Updated(fields: Fields, answers: seq<Answer>, result: Result<Option<Event>, Fault>)

  /** gosling.rs EndpointServer::update. A failed RPC update loses the session for good. */
  function UpdateStep(c: Config, f: Fields, io: UpdateIo): (u: Updated)
    ensures f.hasRpc && !io.rpcOk ==> u.result == Err(RpcSessionFailed) && !u.fields.hasRpc
    ensures !f.hasRpc ==> u.answers == []
  {
    if !f.hasRpc then
      var (g, r) := EventStep(c, f);
      Updated(g, [], r)
    else
      var (g, answers) := ServeRpc(c, f, io.invocations);
      if !io.rpcOk then Updated(g.(hasRpc := false), answers, Err(RpcSessionFailed))
      else
        var (h, r) := EventStep(c, g);
        Updated(h, answers, r)
  }

  //
  // Properties.
  //

  lemma ExecFunctionKeepsValid(c: Config, f: Fields, name: string, version: int, args: Document,
                               requestCookie: Option<RequestCookie>)
    requires Valid(f)
    ensures Valid(ExecFunctionStep(c, f, name, version, args, requestCookie).0)
  {
  }

  lemma {:induction false} ServeRpcKeepsValid(c: Config, f: Fields, invocations: seq<Invocation>)
    requires Valid(f)
    ensures Valid(ServeRpc(c, f, invocations).0)
    ensures ServeRpc(c, f, invocations).0.hasRpc == f.hasRpc
    ensures Rank(ServeRpc(c, f, invocations).0.state) >= Rank(f.state)
    ensures f.state == HandledSendResponse || f.state == HandshakeComplete ==> ServeRpc(c, f, invocations).0 == f
    decreases |invocations|
  {
    if invocations != [] {
      var prefix := invocations[..|invocations| - 1];
      ServeRpcKeepsValid(c, f, prefix);
      var g := ServeRpc(c, f, prefix).0;
      match invocations[|invocations| - 1]
      case Call(name, version, args, cookie) => ExecFunctionKeepsValid(c, g, name, version, args, cookie);
      case Poll =>
    }
  }

  /**
   * The verdict send_response records is exactly ProofAccepted: the allowed client, a usable
   * key, and a signature over the endpoint proof of this channel and both cookies.
   */
  lemma SendResponseVerdict(c: Config, f: Fields, cookie: RequestCookie, args: Document)
    requires Valid(f) && f.state == WaitingForSendResponse
    requires GetSendResponseArgs(args).Some?
    requires var a := GetSendResponseArgs(args).value;
      |a.clientCookie| == CLIENT_COOKIE_SIZE && ServiceIdFromString(c.crypto, a.clientIdentity).Some?
      && |a.proofSignature| == ED25519_SIGNATURE_SIZE && c.crypto.signatureFromRaw(a.proofSignature)
    ensures var a := GetSendResponseArgs(args).value;
      var r := ExecFunctionStep(c, f, "send_response", 0, args, Some(cookie));
      r.0.state == HandledSendResponse
      && (r.0.handshakeSucceeded == Some(true) <==>
            ProofAccepted(c, f.requestedChannel.value, a.clientCookie, a.clientIdentity,
                          Ed25519Signature(a.proofSignature)))
      && (r.1.Ok? <==> r.0.handshakeSucceeded == Some(true))
  {
  }

  /** A caller other than the allowed client is always refused, whatever it signs. */
  lemma OtherClientRefused(c: Config, f: Fields, cookie: RequestCookie, args: Document)
    requires Valid(f) && f.state == WaitingForSendResponse
    requires GetSendResponseArgs(args).Some? && GetSendResponseArgs(args).value.clientIdentity != c.clientIdentity
    ensures ExecFunctionStep(c, f, "send_response", 0, args, Some(cookie)).0.handshakeSucceeded != Some(true)
  {
  }

  /**
   * The server never reports a rejection: a failed send_response completes the handshake
   * without any event, and the update after completion fails.
   */
  lemma RejectionIsSilent(c: Config, f: Fields)
    requires Valid(f) && f.state == HandledSendResponse && f.handshakeSucceeded == Some(false)
    ensures EventStep(c, f) == (f.(state := HandshakeComplete), Ok(None))
    ensures var g := EventStep(c, f).0; EventStep(c, g) == (g, Err(UnexpectedState))
  {
  }

  //
  // Whole runs.
  //

  /** A server after a sequence of updates; a failed update ends the run (the session is dropped). */
  datatype Run = Run(fields: Fields, events: seq<Event>, failed: bool)

  function RunFrom(c: Config, ios: seq<UpdateIo>): (run: Run)
    decreases |ios|
  {
    if ios == [] then Run(Initial, [], false)
    else
      var before := RunFrom(c, ios[..|ios| - 1]);
      if before.failed then before
      else
        var u := UpdateStep(c, before.fields, ios[|ios| - 1]);
        Run(u.fields,
            before.events + (if u.result.Ok? && u.result.value.Some? then [u.result.value.value] else []),
            u.result.Err?)
  }

  /**
   * Every run of a new server reports at most one event, HandshakeCompleted for the allowed
   * client and the channel it requested, and only after a send_response that succeeded.
   */
  lemma {:induction false} RunReportsOnlySuccess(c: Config, ios: seq<UpdateIo>)
    ensures var run := RunFrom(c, ios);
      Valid(run.fields)
      && |run.events| <= 1
      && (|run.events| == 1 ==>
            run.fields.state == HandshakeComplete && run.fields.handshakeSucceeded == Some(true)
            && run.events[0] == HandshakeCompleted(c.clientIdentity, run.fields.requestedChannel.value))
      && (!run.failed && run.fields.state == HandshakeComplete ==>
            (|run.events| == 1 <==> run.fields.handshakeSucceeded == Some(true)))
    decreases |ios|
  {
    if ios != [] {
      var prefix := ios[..|ios| - 1];
      RunReportsOnlySuccess(c, prefix);
      var before := RunFrom(c, prefix);
      if !before.failed {
        var io := ios[|ios| - 1];
        if before.fields.hasRpc {
          ServeRpcKeepsValid(c, before.fields, io.invocations);
        }
      }
    }
  }

  //
  // The object.
  //

  class EndpointServer {
    const crypto: Crypto
    const serverCookie: Cookie
    const clientIdentity: ServiceId
    const serverIdentity: ServiceId

    /** Whether the server still holds its RPC session (the source's rpc: Option<Session>). */
    var hasRpc: bool
    var state: State
    var requestedChannel: Option<string>
    var handshakeSucceeded: Option<bool>

    function Settings(): Config {
      Config(crypto, serverCookie, clientIdentity, serverIdentity)
    }

    function Snapshot(): Fields
      reads this
    {
      Fields(hasRpc, state, requestedChannel, handshakeSucceeded)
    }

    /** The server cookie is the random number generator's output, a parameter here. */
    constructor (crypto: Crypto, clientIdentity: ServiceId, serverIdentity: ServiceId, serverCookie: Cookie)
      ensures Settings() == Config(crypto, serverCookie, clientIdentity, serverIdentity)
      ensures Snapshot() == Initial
    {
      this.crypto := crypto;
      this.serverCookie := serverCookie;
      this.clientIdentity := clientIdentity;
      this.serverIdentity := serverIdentity;
      hasRpc := true;
      state := WaitingForBeginHandshake;
      requestedChannel := None;
      handshakeSucceeded := None;
    }

    method Update(io: UpdateIo) returns (answers: seq<Answer>, r: Result<Option<Event>, Fault>)
      modifies this
      ensures Updated(Snapshot(), answers, r) == UpdateStep(Settings(), old(Snapshot()), io)
    {
      answers := [];
      if hasRpc {
        answers := ServeAll(io.invocations);
        if !io.rpcOk {
          hasRpc := false;
          return answers, Err(RpcSessionFailed);
        }
      }
      match (state, requestedChannel, handshakeSucceeded) {
        case (WaitingForBeginHandshake, None, None) =>
        case (WaitingForSendResponse, Some(_), None) =>
        case (HandledSendResponse, Some(channel), Some(succeeded)) =>
          state := HandshakeComplete;
          if succeeded {
            return answers, Ok(Some(HandshakeCompleted(clientIdentity, channel)));
          }
        case _ =>
          return answers, Err(UnexpectedState);
      }
      return answers, Ok(None);
    }

    /** The RPC session's update: its invocations, in order. */
    method ServeAll(invocations: seq<Invocation>) returns (answers: seq<Answer>)
      modifies this
      ensures (Snapshot(), answers) == ServeRpc(Settings(), old(Snapshot()), invocations)
    {
      answers := [];
      var i := 0;
      while i < |invocations|
        invariant 0 <= i <= |invocations|
        invariant (Snapshot(), answers) == ServeRpc(Settings(), old(Snapshot()), invocations[..i])
      {
        assert invocations[..i + 1][..i] == invocations[..i];
        var answer: Answer;
        match invocations[i] {
          case Call(name, version, args, cookie) =>
            var result := ExecFunction(name, version, args, cookie);
            answer := CallAnswer(result);
          case Poll =>
            var reply := NextResult();
            answer := PollAnswer(reply);
        }
        answers := answers + [answer];
        i := i + 1;
      }
      assert invocations[..i] == invocations;
    }

    method HandleBeginHandshake(version: string, channel: string) returns (r: Result<Bson, GoslingError>)
      modifies this
      ensures (Snapshot(), r) == HandleBeginHandshakeStep(Settings(), old(Snapshot()), version, channel)
    {
      if version != GOSLING_VERSION {
        return Err(BadVersion);
      }
      requestedChannel := Some(channel);
      var retval := BDocument(map["server_cookie" := BBinary(Generic, serverCookie)]);
      state := WaitingForSendResponse;
      return Ok(retval);
    }

    method HandleSendResponse(clientCookie: Cookie, identity: ServiceId, signature: Ed25519Signature)
      returns (r: Result<Bson, GoslingError>)
      requires requestedChannel.Some?
      modifies this
      ensures (Snapshot(), r) == HandleSendResponseStep(Settings(), old(Snapshot()), clientCookie, identity, signature)
    {
      var allowed := identity == clientIdentity;
      var key := crypto.publicKeyOfServiceId(identity);
      if key.Some? {
        var proof := BuildClientProof(GoslingEndpoint, requestedChannel.value, identity, serverIdentity,
                                      clientCookie, serverCookie);
        if proof.Ok? {
          var valid := crypto.ed25519Verify(signature, proof.value, key.value);
          if allowed && valid {
            handshakeSucceeded := Some(true);
            state := HandledSendResponse;
            return Ok(BDocument(map[]));
          }
        }
      }
      handshakeSucceeded := Some(false);
      state := HandledSendResponse;
      return Err(Failure);
    }

    method ExecFunction(name: string, version: int, args: Document, requestCookie: Option<RequestCookie>)
      returns (r: Result<Option<Bson>, ErrorCode>)
      modifies this
      ensures (Snapshot(), r) == ExecFunctionStep(Settings(), old(Snapshot()), name, version, args, requestCookie)
    {
      if requestCookie.None? {
        return Err(RuntimeError(RequestCookieRequired));
      }
      if name == "begin_handshake" && version == 0 && state == WaitingForBeginHandshake && requestedChannel.None? {
        var versionArg := StringArg(Get(args, "version"));
        var channelArg := StringArg(Get(args, "channel"));
        if versionArg.None? || channelArg.None? {
          return Err(RuntimeError(InvalidArg));
        }
        var handled := HandleBeginHandshake(versionArg.value, channelArg.value);
        return ToRpc(handled);
      } else if name == "send_response" && version == 0 && state == WaitingForSendResponse && requestedChannel.Some? {
        var a := GetSendResponseArgs(args);
        if a.None? || |a.value.clientCookie| != CLIENT_COOKIE_SIZE {
          return Err(RuntimeError(InvalidArg));
        }
        var identity := ServiceIdFromString(crypto, a.value.clientIdentity);
        if identity.None? {
          return Err(RuntimeError(InvalidArg));
        }
        if |a.value.proofSignature| != ED25519_SIGNATURE_SIZE || !crypto.signatureFromRaw(a.value.proofSignature) {
          return Err(RuntimeError(InvalidArg));
        }
        var handled := HandleSendResponse(a.value.clientCookie, identity.value, Ed25519Signature(a.value.proofSignature));
        return ToRpc(handled);
      }
      return Ok(None);
    }

    /** gosling.rs EndpointServer::next_result: both calls are answered at once, so there is never a deferred reply. */
    method NextResult() returns (r: Option<Reply>)
      ensures r.None?
    {
      return None;
    }
  }
}
