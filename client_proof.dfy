/**
 * The client proof both handshakes sign (gosling.rs build_client_proof): a domain separator,
 * the requested endpoint or channel, both service ids and both cookies in lower-case hex
 * (section 8 of RFC 4648, Base 16), joined by NUL bytes.
 *
 * Because service ids have a fixed length and the cookies a fixed size, the proof can be
 * taken apart again from both ends; ParseClientProof does so, and the round trip shows the
 * encoding is injective, so one signed proof cannot stand for two different requests.
 */
module ClientProof {
  import opened Types

  datatype DomainSeparator = GoslingIdentity | GoslingEndpoint

  function SeparatorText(sep: DomainSeparator): (r: string)
    ensures |r| == 16 && IsAscii(r)
  {
    match sep
    case GoslingIdentity => "gosling-identity"
    case GoslingEndpoint => "gosling-endpoint"
  }

  function SeparatorBytes(sep: DomainSeparator): (r: seq<byte>)
    ensures |r| == 16
  {
    AsciiBytes(SeparatorText(sep))
  }

  /** Recognises one of the two separators; the two differ at their ninth byte. */
  function ParseSeparator(b: seq<byte>): (r: Option<DomainSeparator>)
    ensures r.Some? ==> SeparatorBytes(r.value) == b
  {
    if b == SeparatorBytes(GoslingIdentity) then Some(GoslingIdentity)
    else if b == SeparatorBytes(GoslingEndpoint) then Some(GoslingEndpoint)
    else None
  }

  lemma ParseSeparatorInverse(sep: DomainSeparator)
    ensures ParseSeparator(SeparatorBytes(sep)) == Some(sep)
  {
    assert SeparatorBytes(GoslingIdentity)[8] != SeparatorBytes(GoslingEndpoint)[8];
  }

  //
  // Lower-case Base 16 (section 8 of RFC 4648): each byte becomes two digits, high nibble first.
  //

  predicate IsLowerHexDigit(b: byte) {
    (48 <= b <= 57) || (97 <= b <= 102)
  }

  function HexDigit(n: int): (r: byte)
    requires 0 <= n < 16
    ensures IsLowerHexDigit(r)
  {
    if n < 10 then 48 + n else 87 + n
  }

  function HexValue(b: byte): (r: int)
    requires IsLowerHexDigit(b)
    ensures 0 <= r < 16 && HexDigit(r) == b
  {
    if b <= 57 then b - 48 else b - 87
  }

  function HexLower(bytes: seq<byte>): (r: seq<byte>)
    ensures |r| == 2 * |bytes|
    ensures forall i :: 0 <= i < |r| ==> IsLowerHexDigit(r[i])
  {
    if bytes == [] then []
    else [HexDigit(bytes[0] / 16), HexDigit(bytes[0] % 16)] + HexLower(bytes[1..])
  }

  /** The decoder HexLower is checked against: None for odd length or a non-digit. */
  function HexDecode(s: seq<byte>): (r: Option<seq<byte>>)
    ensures r.Some? ==> 2 * |r.value| == |s|
    decreases |s|
  {
    if s == [] then Some([])
    else if |s| < 2 || !IsLowerHexDigit(s[0]) || !IsLowerHexDigit(s[1]) then None
    else
      var rest := HexDecode(s[2..]);
      if rest.None? then None else Some([16 * HexValue(s[0]) + HexValue(s[1])] + rest.value)
  }

  lemma {:induction false} HexRoundTrip(bytes: seq<byte>)
    ensures HexDecode(HexLower(bytes)) == Some(bytes)
  {
    if bytes != [] {
      var h := HexLower(bytes);
      assert h[2..] == HexLower(bytes[1..]);
      HexRoundTrip(bytes[1..]);
      assert HexValue(h[0]) == bytes[0] / 16 && HexValue(h[1]) == bytes[0] % 16;
      assert [bytes[0]] + bytes[1..] == bytes;
    }
  }

  //
  // The proof itself.
  //

  datatype ProofParts = ProofParts(
    separator: DomainSeparator,
    request: AsciiString,
    clientServiceId: ServiceId,
    serverServiceId: ServiceId,
    clientCookie: Cookie,
    serverCookie: Cookie)

  /** sep || 0 || request || 0 || client id || 0 || server id || 0 || hex(client cookie) || 0 || hex(server cookie) */
  function ProofBytes(p: ProofParts): seq<byte> {
    ServiceIdIsAscii(p.clientServiceId);
    ServiceIdIsAscii(p.serverServiceId);
    SeparatorBytes(p.separator) + [0] + AsciiBytes(p.request) + [0]
      + AsciiBytes(p.clientServiceId) + [0] + AsciiBytes(p.serverServiceId) + [0]
      + HexLower(p.clientCookie) + [0] + HexLower(p.serverCookie)
  }

  /** Everything after the request: NUL, two 56-byte ids, two 64-digit cookies, and their separators. */
  const PROOF_SUFFIX_LENGTH: nat := 244
  /** Everything before the request: the 16-byte separator and a NUL. */
  const PROOF_PREFIX_LENGTH: nat := 17

  predicate AllAscii(b: seq<byte>) {
    forall i :: 0 <= i < |b| ==> b[i] < 128
  }

  /** Takes a proof apart by position; None for anything ProofBytes cannot produce. */
  function ParseClientProof(p: seq<byte>): Option<ProofParts> {
    if |p| < PROOF_PREFIX_LENGTH + PROOF_SUFFIX_LENGTH then None
    else
      var n := |p|;
      var sep := ParseSeparator(p[..16]);
      var request := p[17..n - 244];
      var client := p[n - 243..n - 187];
      var server := p[n - 186..n - 130];
      var clientCookie := HexDecode(p[n - 129..n - 65]);
      var serverCookie := HexDecode(p[n - 64..]);
      if sep.None? || p[16] != 0 || p[n - 244] != 0 || p[n - 187] != 0 || p[n - 130] != 0 || p[n - 65] != 0 then None
      else if !AllAscii(request) || !AllAscii(client) || !AllAscii(server) then None
      else if !IsServiceIdText(AsciiChars(client)) || !IsServiceIdText(AsciiChars(server)) then None
      else if clientCookie.None? || serverCookie.None? then None
      else Some(ProofParts(sep.value, AsciiChars(request), AsciiChars(client), AsciiChars(server),
                           clientCookie.value, serverCookie.value))
  }

  lemma AsciiCharsOfBytes(s: string)
    requires IsAscii(s)
    ensures AllAscii(AsciiBytes(s)) && AsciiChars(AsciiBytes(s)) == s
  {
  }

  lemma ParseProofBytes(p: ProofParts)
    ensures |ProofBytes(p)| == PROOF_PREFIX_LENGTH + |p.request| + PROOF_SUFFIX_LENGTH
    ensures ParseClientProof(ProofBytes(p)) == Some(p)
  {
    ServiceIdIsAscii(p.clientServiceId);
    ServiceIdIsAscii(p.serverServiceId);
    var a := SeparatorBytes(p.separator);
    var r := AsciiBytes(p.request);
    var c := AsciiBytes(p.clientServiceId);
    var s := AsciiBytes(p.serverServiceId);
    var h1 := HexLower(p.clientCookie);
    var h2 := HexLower(p.serverCookie);
    var b := ProofBytes(p);
    assert b == a + [0] + r + [0] + c + [0] + s + [0] + h1 + [0] + h2;
    var n := |b|;
    assert n == 17 + |r| + 244;
    assert b[..16] == a;
    assert b[17..n - 244] == r;
    assert b[n - 243..n - 187] == c;
    assert b[n - 186..n - 130] == s;
    assert b[n - 129..n - 65] == h1;
    assert b[n - 64..] == h2;
    ParseSeparatorInverse(p.separator);
    HexRoundTrip(p.clientCookie);
    HexRoundTrip(p.serverCookie);
    AsciiCharsOfBytes(p.request);
    AsciiCharsOfBytes(p.clientServiceId);
    AsciiCharsOfBytes(p.serverServiceId);
  }

  /** gosling.rs build_client_proof: refuses a non-ASCII request, otherwise joins the six parts. */
  function BuildClientProof(
    separator: DomainSeparator,
    request: string,
    clientServiceId: ServiceId,
    serverServiceId: ServiceId,
    clientCookie: Cookie,
    serverCookie: Cookie): (r: Result<seq<byte>, Fault>)
    ensures r.Err? <==> !IsAscii(request)
    ensures r.Err? ==> r.error == NonAsciiRequest
    ensures r.Ok? ==> |r.value| == PROOF_PREFIX_LENGTH + |request| + PROOF_SUFFIX_LENGTH
    ensures r.Ok? ==> ParseClientProof(r.value)
                        == Some(ProofParts(separator, request, clientServiceId, serverServiceId, clientCookie, serverCookie))
  {
    if !IsAscii(request) then Err(NonAsciiRequest)
    else
      var parts := ProofParts(separator, request, clientServiceId, serverServiceId, clientCookie, serverCookie);
      ParseProofBytes(parts);
      Ok(ProofBytes(parts))
  }

  /** Two requests that differ in anything (separator, request, ids, cookies) never share a proof. */
  lemma ProofBytesInjective(p: ProofParts, q: ProofParts)
    requires ProofBytes(p) == ProofBytes(q)
    ensures p == q
  {
    ParseProofBytes(p);
    ParseProofBytes(q);
  }

  /** An identity-handshake proof can never be replayed as an endpoint-handshake proof. */
  lemma DomainSeparation(p: ProofParts, q: ProofParts)
    requires p.separator == GoslingIdentity && q.separator == GoslingEndpoint
    ensures ProofBytes(p) != ProofBytes(q)
  {
    if ProofBytes(p) == ProofBytes(q) {
      ProofBytesInjective(p, q);
    }
  }
}
