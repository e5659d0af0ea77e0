/**
 * The two ends of the identity handshake together: what the server's next_result answers to a
 * begin_handshake is what the client's update expects. The RPC session that carries the reply
 * is not modelled; a successful reply reaches the client as a `Succeeded` response with the
 * same cookie and result.
 */
module IdentityHandshake {
  import opened Types
  import IC = IdentityClient
  import IS = IdentityServer

  /**
   * The server's challenge reply, delivered to a client waiting under the same begin_handshake
   * cookie, is accepted: the client stores the server's cookie, reports the server's challenge
   * and waits for its owner's response, making no call.
   */
  lemma ChallengeReplyAccepted(cc: IC.Config, cf: IC.Fields, io: ClientIo,
                               sc: IS.Config, sf: IS.Fields, endpointKey: Ed25519PrivateKey)
    requires sf.state == IS.ChallengeReady && IS.ChallengeReadyShape(sf)
    requires cf == IC.Fields(IC.WaitingForChallenge, sf.beginHandshakeRequestCookie, None, None, None)
    requires io.rpcUpdateOk
    requires var reply := IS.NextResultStep(sc, sf, endpointKey).1.value;
      io.nextResponse == Some(Succeeded(reply.cookie, reply.result.value))
    ensures var s := IC.UpdateStep(cc, cf, io);
      && s.fields == cf.(serverCookie := sf.serverCookie, state := IC.WaitingForChallengeResponse)
      && s.call.None?
      && s.result == Ok(Some(IC.ChallengeReceived(cc.serverServiceId, cc.requestedEndpoint,
                                                  sf.endpointChallenge.value)))
  {
    var doc := map["server_cookie" := BBinary(Generic, sf.serverCookie.value),
                   "endpoint_challenge" := BDocument(sf.endpointChallenge.value)];
    assert "server_cookie" != "endpoint_challenge";
    assert Get(doc, "server_cookie") == Some(BBinary(Generic, sf.serverCookie.value));
    assert Get(doc, "endpoint_challenge") == Some(BDocument(sf.endpointChallenge.value));
  }
}
