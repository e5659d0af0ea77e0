/**
 * Values shared by every Gosling handshake machine: bytes and cookies, onion service ids,
 * the subset of BSON the handshakes exchange, the RPC vocabulary, and the cryptographic
 * primitives, which the model treats as an oracle of total functions.
 */
module Types {

  datatype Option<+T> = None | Some(value: T)

  datatype Result<+T, +E> = Ok(value: T) | Err(error: E)

  type byte = x: int | 0 <= x < 256

  /** The protocol version both handshakes require (gosling.rs GOSLING_VERSION). */
  const GOSLING_VERSION: string := "0.0.0.1"

  const CLIENT_COOKIE_SIZE: nat := 32
  const SERVER_COOKIE_SIZE: nat := 32
  /** Ed25519 signatures are 64 bytes and X25519 public keys 32 bytes (RFC 8032, RFC 7748). */
  const ED25519_SIGNATURE_SIZE: nat := 64
  const X25519_PUBLIC_KEY_SIZE: nat := 32

  /** A client or server cookie: exactly 32 bytes. */
  type Cookie = s: seq<byte> | |s| == 32 witness seq(32, _ => 0)

  predicate IsAscii(s: string) {
    forall i :: 0 <= i < |s| ==> s[i] as int < 128
  }

  /** A string the type system already knows to be ASCII (the crate's AsciiString). */
  type AsciiString = s: string | IsAscii(s)

  /** The bytes of an ASCII string: one byte per character. */
  function AsciiBytes(s: string): (r: seq<byte>)
    requires IsAscii(s)
    ensures |r| == |s| && forall i :: 0 <= i < |s| ==> r[i] == s[i] as int
  {
    seq(|s|, i requires 0 <= i < |s| => s[i] as int)
  }

  /** The characters of a byte string whose bytes are all ASCII. */
  function AsciiChars(b: seq<byte>): (r: string)
    requires forall i :: 0 <= i < |b| ==> b[i] < 128
    ensures |r| == |b| && IsAscii(r) && AsciiBytes(r) == b
  {
    seq(|b|, i requires 0 <= i < |b| => b[i] as char)
  }

  //
  // Onion service ids: 56 characters of lower-case base32 (section 6 of Tor's rend-spec-v3).
  // Whether the embedded checksum and version byte are right is left to the crypto oracle.
  //

  const SERVICE_ID_LENGTH: nat := 56

  predicate IsBase32Char(c: char) {
    ('a' <= c <= 'z') || ('2' <= c <= '7')
  }

  predicate IsServiceIdText(s: string) {
    |s| == SERVICE_ID_LENGTH && forall i :: 0 <= i < |s| ==> IsBase32Char(s[i])
  }

  type ServiceId = s: string | IsServiceIdText(s)
    witness seq(56, _ => 'a')

  lemma ServiceIdIsAscii(id: ServiceId)
    ensures IsAscii(id)
    ensures forall i :: 0 <= i < |id| ==> id[i] as int != 0
  {
  }

  /** The ASCII bytes of a service id (V3OnionServiceId::as_bytes). */
  function ServiceIdBytes(id: ServiceId): (r: seq<byte>)
    ensures |r| == SERVICE_ID_LENGTH
  {
    ServiceIdIsAscii(id);
    AsciiBytes(id)
  }

  //
  // Key material is opaque; the operations on it are supplied by a Crypto oracle.
  //

  datatype Ed25519PrivateKey = Ed25519PrivateKey(secret: seq<byte>)
  datatype Ed25519PublicKey = Ed25519PublicKey(point: seq<byte>)
  datatype X25519PrivateKey = X25519PrivateKey(secret: seq<byte>)
  datatype X25519PublicKey = X25519PublicKey(point: seq<byte>)
  datatype Ed25519Signature = Ed25519Signature(raw: seq<byte>)

  datatype Crypto = Crypto(
    // V3OnionServiceId::from_string: checksum and version of a well-formed 56-character id
    serviceIdChecksumValid: ServiceId -> bool,
    // Ed25519PublicKey::from_service_id
    publicKeyOfServiceId: ServiceId -> Option<Ed25519PublicKey>,
    // V3OnionServiceId::from_private_key
    serviceIdOfPrivateKey: Ed25519PrivateKey -> ServiceId,
    // Ed25519Signature::from_raw on 64 bytes
    signatureFromRaw: seq<byte> -> bool,
    // Ed25519PrivateKey::sign_message and Ed25519Signature::verify
    ed25519Sign: (Ed25519PrivateKey, seq<byte>) -> Ed25519Signature,
    ed25519Verify: (Ed25519Signature, seq<byte>, Ed25519PublicKey) -> bool,
    // X25519PublicKey::from_private_key (from_raw only wraps 32 bytes, so it needs no oracle)
    x25519PublicOfPrivate: X25519PrivateKey -> X25519PublicKey,
    // X25519PrivateKey::sign_message (signature and sign bit) and Ed25519Signature::verify_x25519
    x25519Sign: (X25519PrivateKey, seq<byte>) -> Option<(Ed25519Signature, byte)>,
    x25519Verify: (Ed25519Signature, seq<byte>, X25519PublicKey, byte) -> bool)

  /** V3OnionServiceId::from_string: a well-formed id whose checksum the oracle accepts. */
  function ServiceIdFromString(crypto: Crypto, s: string): (r: Option<ServiceId>)
    ensures r.Some? <==> IsServiceIdText(s) && crypto.serviceIdChecksumValid(s)
    ensures r.Some? ==> r.value == s
  {
    if IsServiceIdText(s) && crypto.serviceIdChecksumValid(s) then Some(s) else None
  }

  //
  // BSON values, as far as the handshakes look into them.
  //

  datatype BinarySubtype = Generic | OtherSubtype(tag: byte)

  datatype Bson =
    | BString(str: string)
    | BBinary(subtype: BinarySubtype, bytes: seq<byte>)
    | BBoolean(b: bool)
    | BInt32(i: int)
    | BDocument(doc: map<string, Bson>)
    | BNull

  type Document = map<string, Bson>

  /** Looks a key up in a document (Document::get, Document::remove's result). */
  function Get(d: Document, key: string): Option<Bson> {
    if key in d then Some(d[key]) else None
  }

  /** A generic-subtype binary argument, the only binary shape the handshakes accept. */
  function GenericBinary(v: Option<Bson>): Option<seq<byte>> {
    if v.Some? && v.value.BBinary? && v.value.subtype == Generic then Some(v.value.bytes) else None
  }

  function StringArg(v: Option<Bson>): Option<string> {
    if v.Some? && v.value.BString? then Some(v.value.str) else None
  }

  //
  // The RPC layer's vocabulary.
  //

  type RequestCookie = int

  datatype ErrorCode = Success | Runtime(code: int)

  /** The handshake's own error codes, by their discriminants. */
  datatype GoslingError = BadVersion | RequestCookieRequired | InvalidArg | Failure {
    function Code(): int {
      match this
      case BadVersion => 0
      case RequestCookieRequired => 1
      case InvalidArg => 2
      case Failure => 3
    }
  }

  function RuntimeError(e: GoslingError): ErrorCode {
    Runtime(e.Code())
  }

  /** A response the client side of the RPC session hands back for one of its calls. */
  datatype Response =
    | Pending(cookie: RequestCookie)
    | Error(cookie: RequestCookie, errorCode: int)
    | Succeeded(cookie: RequestCookie, result: Bson)
  {
    function Cookie(): RequestCookie {
      match this
      case Pending(c) => c
      case Error(c, _) => c
      case Succeeded(c, _) => c
    }
  }

  /** A call the client side issued through its RPC session. */
  datatype RpcCall = RpcCall(namespace: string, name: string, version: int, args: Document)

  /**
   * What a handshake client's RPC session and the random number generator supply during one
   * update: whether the session's own update succeeds, the request cookie client_call returns
   * (None when it fails), the next response the session hands back, and fresh random bytes for
   * the client cookie.
   */
  datatype ClientIo = ClientIo(rpcUpdateOk: bool, callCookie: Option<RequestCookie>,
                               nextResponse: Option<Response>, clientCookie: Cookie)

  /** Checks a response's cookie against the client's outstanding request. */
  function CheckResponse(expected: RequestCookie, response: Response): (r: Result<Option<Bson>, Fault>)
    ensures r.Err? <==> response.Cookie() != expected || response.Error?
    ensures r.Ok? && r.value.Some? <==> response.Cookie() == expected && response.Succeeded?
    ensures r.Ok? && r.value.Some? ==> r.value.value == response.result
  {
    match response
    case Pending(cookie) => if cookie != expected then Err(UnexpectedResponseCookie) else Ok(None)
    case Error(cookie, code) => if cookie != expected then Err(UnexpectedResponseCookie) else Err(RpcErrorCode(code))
    case Succeeded(cookie, result) => if cookie != expected then Err(UnexpectedResponseCookie) else Ok(Some(result))
  }

  /** A deferred reply a server's next_result hands to its RPC session. */
  datatype Reply = Reply(cookie: RequestCookie, result: Option<Bson>, code: ErrorCode)

  /** What a server hands back to its RPC session for one invocation of exec_function or next_result. */
  datatype Answer =
    | CallAnswer(result: Result<Option<Bson>, ErrorCode>)
    | PollAnswer(reply: Option<Reply>)

  /** The reasons a handshake driver (`update`, `send_challenge`, ...) fails. */
  datatype Fault =
    | HandshakeAlreadyComplete
    | RpcSessionFailed
    | RpcCallFailed
    | UnexpectedResponseCookie
    | RpcErrorCode(code: int)
    | UnexpectedBsonType
    | MissingServerCookie
    | InvalidServerCookie
    | MissingEndpointChallenge
    | NonAsciiRequest
    | SigningFailed
    | InvalidSignbit
    | InvalidServiceId
    | NonEmptyResult
    | UnexpectedState
    | InvalidState
    | IncorrectUsage
    | NotFound
    | NotImplemented
    | BootstrapIncomplete
    | ListenerAlreadyRunning
    | TransportFailure
}
