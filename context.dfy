/**
 * The Gosling Context of gosling.rs: the owner's single entry point. It hands out handshake
 * handles from an increasing counter, keeps the in-flight sessions of the four handshake kinds
 * in maps keyed by handle, starts and stops the identity and endpoint listeners, and its update
 * accepts new connections, translates tor's events and steps every session, removing the ones
 * that end.
 *
 * Sessions are held as values (each session's settings and fields), as the Context owns them
 * outright. The tor manager, the listeners' accept calls and the RPC sessions are not modelled:
 * what they answer is passed in.
 */
module GoslingContext {
  import opened Types
  import IC = IdentityClient
  import IS = IdentityServer
  import EC = EndpointClient
  import ES = EndpointServer
  import TM = TorManager

  //
  // Sessions and events.
  //

  datatype IdentityClientSession = IdentityClientSession(config: IC.Config, fields: IC.Fields)

  /** An identity server's fields; the server's settings are the Context's own. */
  type IdentityServerSession = f: IS.Fields | IS.Valid(f) witness IS.Initial

  datatype EndpointClientSession = EndpointClientSession(config: EC.Config, fields: EC.Fields)

  datatype EndpointServerSession = EndpointServerSession(config: ES.Config, fields: ES.Fields)

  /** An endpoint listener's name and the one client it lets in. */
  datatype EndpointListener = EndpointListener(name: string, allowedClient: ServiceId)

  datatype ContextEvent =
    | TorBootstrapStatusReceived(progress: nat, tag: string, summary: string)
    | TorBootstrapCompleted
    | TorLogReceived(line: string)
    | IdentityClientChallengeReceived(handle: nat, identityServiceId: ServiceId, endpointName: string,
                                      endpointChallenge: Document)
    | IdentityClientHandshakeCompleted(handle: nat, identityServiceId: ServiceId, endpointServiceId: ServiceId,
                                       endpointName: string, clientAuthPrivateKey: X25519PrivateKey)
    | IdentityClientHandshakeFailed(handle: nat, reason: Fault)
    | IdentityServerPublished
    | IdentityServerHandshakeStarted(handle: nat)
    | IdentityServerEndpointRequestReceived(handle: nat, clientServiceId: ServiceId, requestedEndpoint: string)
    | IdentityServerChallengeResponseReceived(handle: nat, challengeResponse: Document)
    | IdentityServerHandshakeCompleted(handle: nat, endpointPrivateKey: Ed25519PrivateKey, endpointName: string,
                                       clientServiceId: ServiceId, clientAuthPublicKey: X25519PublicKey)
    | IdentityServerHandshakeRejected(handle: nat, clientAllowed: bool, clientRequestedEndpointValid: bool,
                                      clientProofSignatureValid: bool, clientAuthSignatureValid: bool,
                                      challengeResponseValid: bool)
    | IdentityServerHandshakeFailed(handle: nat, reason: Fault)
    | EndpointClientHandshakeCompleted(endpointServiceId: ServiceId, channelName: string)
    | EndpointClientHandshakeFailed(handle: nat, reason: Fault)
    | EndpointServerPublished(endpointServiceId: ServiceId, endpointName: string)
    | EndpointServerHandshakeStarted(handle: nat)
    | EndpointServerChannelRequestReceived(handle: nat, endpointServiceId: ServiceId, requestedChannel: string)
    | EndpointServerHandshakeCompleted(handle: nat, endpointServiceId: ServiceId, clientServiceId: ServiceId,
                                       channelName: string)
    | EndpointServerHandshakeRejected(handle: nat, clientAllowed: bool, clientRequestedChannelValid: bool,
                                      clientProofSignatureValid: bool)
    | EndpointServerRequestFailed(handle: nat, reason: Fault)
  {
    /** An event that ends a handshake session. */
    predicate Terminal() {
      || IdentityClientHandshakeCompleted? || IdentityClientHandshakeFailed?
      || IdentityServerHandshakeCompleted? || IdentityServerHandshakeRejected? || IdentityServerHandshakeFailed?
      || EndpointClientHandshakeCompleted? || EndpointClientHandshakeFailed?
      || EndpointServerHandshakeCompleted? || EndpointServerHandshakeRejected? || EndpointServerRequestFailed?
    }
  }

  /** How many of the events end a session. */
  function TerminalCount(events: seq<ContextEvent>): (n: nat)
    ensures n <= |events|
    decreases |events|
  {
    if events == [] then 0
    else TerminalCount(events[..|events| - 1]) + (if events[|events| - 1].Terminal() then 1 else 0)
  }

  lemma {:induction false} TerminalCountAppend(a: seq<ContextEvent>, b: seq<ContextEvent>)
    ensures TerminalCount(a + b) == TerminalCount(a) + TerminalCount(b)
    decreases |b|
  {
    if b == [] {
      assert a + b == a;
    } else {
      assert (a + b)[..|a + b| - 1] == a + b[..|b| - 1];
      assert (a + b)[|a + b| - 1] == b[|b| - 1];
      TerminalCountAppend(a, b[..|b| - 1]);
    }
  }

  //
  // What update does with one session's result.
  //

  /** Whether update drops the session, and what it reports about it. */
  datatype Outcome = Outcome(remove: bool, events: seq<ContextEvent>)

  /** The owner hears of every session that ends: by exactly one terminal event, and of no other by one. */
  predicate Reported(o: Outcome) {
    |o.events| <= 1 && (o.remove <==> |o.events| == 1 && o.events[0].Terminal())
  }

  /** The owner hears of a session ending only when it ends, and by one event at most; it may hear of none. */
  predicate Sound(o: Outcome) {
    |o.events| <= 1 && (|o.events| == 1 && o.events[0].Terminal() ==> o.remove)
  }

  function IdentityClientOutcome(h: nat, r: Result<Option<IC.Event>, Fault>): (o: Outcome)
    ensures Reported(o)
    ensures o.remove <==> r.Err? || (r.value.Some? && r.value.value.HandshakeCompleted?)
    ensures r.Err? ==> o.events == [IdentityClientHandshakeFailed(h, r.error)]
  {
    match r
    case Ok(Some(ChallengeReceived(identity, name, challenge))) =>
      Outcome(false, [IdentityClientChallengeReceived(h, identity, name, challenge)])
    case Ok(Some(HandshakeCompleted(identity, endpoint, name, key))) =>
      Outcome(true, [IdentityClientHandshakeCompleted(h, identity, endpoint, name, key)])
    case Ok(None) => Outcome(false, [])
    case Err(e) => Outcome(true, [IdentityClientHandshakeFailed(h, e)])
  }

  /** The identity-server arm of gosling.rs Context::update as written: a rejection only prints. */
  function IdentityServerOutcomeAsWritten(h: nat, r: Result<Option<IS.Event>, Fault>): (o: Outcome)
    ensures Sound(o)
    ensures o.remove <==> r.Err? || (r.value.Some? && r.value.value.Terminal())
  {
    match r
    case Ok(Some(EndpointRequestReceived(client, endpoint))) =>
      Outcome(false, [IdentityServerEndpointRequestReceived(h, client, endpoint)])
    case Ok(Some(ChallengeResponseReceived(response))) =>
      Outcome(false, [IdentityServerChallengeResponseReceived(h, response)])
    case Ok(Some(HandshakeCompleted(key, name, client, authKey))) =>
      Outcome(true, [IdentityServerHandshakeCompleted(h, key, name, client, authKey)])
    case Ok(Some(HandshakeRejected(_, _, _, _, _))) => Outcome(true, [])
    case Ok(None) => Outcome(false, [])
    case Err(e) => Outcome(true, [IdentityServerHandshakeFailed(h, e)])
  }

  /** As written, a rejected identity handshake disappears without the owner hearing of it. */
  lemma IdentityServerRejectionUnreported(h: nat, a: bool, b: bool, c: bool, d: bool, e: bool)
    ensures var o := IdentityServerOutcomeAsWritten(h, Ok(Some(IS.HandshakeRejected(a, b, c, d, e))));
      o.remove && o.events == [] && !Reported(o)
  {
  }

  /** The identity-server arm as intended: a rejection is reported with its five flags. */
  function IdentityServerOutcome(h: nat, r: Result<Option<IS.Event>, Fault>): (o: Outcome)
    ensures Reported(o)
    ensures o.remove <==> r.Err? || (r.value.Some? && r.value.value.Terminal())
    ensures r.Ok? && r.value.Some? && r.value.value.HandshakeRejected? ==>
              var v := r.value.value;
              o.events == [IdentityServerHandshakeRejected(h, v.clientAllowed, v.clientRequestedEndpointValid,
                                                           v.clientProofSignatureValid, v.clientAuthSignatureValid,
                                                           v.challengeResponseValid)]
    ensures !(r.Ok? && r.value.Some? && r.value.value.HandshakeRejected?) ==> o == IdentityServerOutcomeAsWritten(h, r)
  {
    match r
    case Ok(Some(HandshakeRejected(a, b, c, d, e))) =>
      Outcome(true, [IdentityServerHandshakeRejected(h, a, b, c, d, e)])
    case _ => IdentityServerOutcomeAsWritten(h, r)
  }

  /** The endpoint-client arm as written: an error only prints. */
  function EndpointClientOutcomeAsWritten(c: EC.Config, r: Result<Option<EC.Event>, Fault>): (o: Outcome)
    ensures Sound(o)
    ensures o.remove <==> r.Err? || r.value.Some?
  {
    match r
    case Ok(Some(HandshakeCompleted)) =>
      Outcome(true, [EndpointClientHandshakeCompleted(c.serverServiceId, c.requestedChannel)])
    case Ok(None) => Outcome(false, [])
    case Err(_) => Outcome(true, [])
  }

  /** As written, a failed endpoint client disappears without the owner hearing of it. */
  lemma EndpointClientFailureUnreported(c: EC.Config, e: Fault)
    ensures var o := EndpointClientOutcomeAsWritten(c, Err(e));
      o.remove && o.events == [] && !Reported(o)
  {
  }

  /** The endpoint-client arm as intended: a failure is reported with its handle and reason. */
  function EndpointClientOutcome(h: nat, c: EC.Config, r: Result<Option<EC.Event>, Fault>): (o: Outcome)
    ensures Reported(o)
    ensures o.remove <==> r.Err? || r.value.Some?
    ensures r.Err? ==> o.events == [EndpointClientHandshakeFailed(h, r.error)]
    ensures r.Ok? ==> o == EndpointClientOutcomeAsWritten(c, r)
  {
    if r.Err? then Outcome(true, [EndpointClientHandshakeFailed(h, r.error)])
    else EndpointClientOutcomeAsWritten(c, r)
  }

  /** The endpoint-server arm as written: an error is dropped silently. */
  function EndpointServerOutcomeAsWritten(h: nat, c: ES.Config, r: Result<Option<ES.Event>, Fault>): (o: Outcome)
    ensures Sound(o)
    ensures o.remove <==> r.Err? || (r.value.Some? && !r.value.value.ChannelRequestReceived?)
  {
    match r
    case Ok(Some(ChannelRequestReceived(channel))) =>
      Outcome(false, [EndpointServerChannelRequestReceived(h, c.serverIdentity, channel)])
    case Ok(Some(HandshakeCompleted(client, channel))) =>
      Outcome(true, [EndpointServerHandshakeCompleted(h, c.serverIdentity, client, channel)])
    case Ok(Some(HandshakeRejected(a, b, d))) =>
      Outcome(true, [EndpointServerHandshakeRejected(h, a, b, d)])
    case Ok(None) => Outcome(false, [])
    case Err(_) => Outcome(true, [])
  }

  /** As written, a failed endpoint server disappears without the owner hearing of it. */
  lemma EndpointServerFailureUnreported(h: nat, c: ES.Config, e: Fault)
    ensures var o := EndpointServerOutcomeAsWritten(h, c, Err(e));
      o.remove && o.events == [] && !Reported(o)
  {
  }

  /** The endpoint-server arm as intended: a failure is reported with its handle and reason. */
  function EndpointServerOutcome(h: nat, c: ES.Config, r: Result<Option<ES.Event>, Fault>): (o: Outcome)
    ensures Reported(o)
    ensures o.remove <==> r.Err? || (r.value.Some? && !r.value.value.ChannelRequestReceived?)
    ensures r.Err? ==> o.events == [EndpointServerRequestFailed(h, r.error)]
    ensures r.Ok? ==> o == EndpointServerOutcomeAsWritten(h, c, r)
  {
    if r.Err? then Outcome(true, [EndpointServerRequestFailed(h, r.error)])
    else EndpointServerOutcomeAsWritten(h, c, r)
  }

  /** Which arms of update's match a model follows: the code as written, or as its events intend. */
  datatype Arms = AsWritten | Intended

  function IdentityServerArm(arms: Arms, h: nat, r: Result<Option<IS.Event>, Fault>): Outcome {
    if arms.AsWritten? then IdentityServerOutcomeAsWritten(h, r) else IdentityServerOutcome(h, r)
  }

  function EndpointClientArm(arms: Arms, h: nat, c: EC.Config, r: Result<Option<EC.Event>, Fault>): Outcome {
    if arms.AsWritten? then EndpointClientOutcomeAsWritten(c, r) else EndpointClientOutcome(h, c, r)
  }

  function EndpointServerArm(arms: Arms, h: nat, c: ES.Config, r: Result<Option<ES.Event>, Fault>): Outcome {
    if arms.AsWritten? then EndpointServerOutcomeAsWritten(h, c, r) else EndpointServerOutcome(h, c, r)
  }

  //
  // Stepping every session of one kind.
  //

  /** One session's update: its new value if it is kept, and what is reported. */
  datatype Tick<S> = Tick(kept: Option<S>, events: seq<ContextEvent>)

  predicate Accounted<S>(t: Tick<S>) {
    Reported(Outcome(t.kept.None?, t.events))
  }

  predicate SoundTick<S>(t: Tick<S>) {
    Sound(Outcome(t.kept.None?, t.events))
  }

  function Ticked<S>(s: S, updated: S, o: Outcome): (t: Tick<S>)
    ensures Reported(o) ==> Accounted(t)
    ensures Sound(o) ==> SoundTick(t)
  {
    Tick(if o.remove then None else Some(updated), o.events)
  }

  function IdentityClientTick(io: nat -> ClientIo, h: nat, s: IdentityClientSession): Tick<IdentityClientSession> {
    var step := IC.UpdateStep(s.config, s.fields, io(h));
    Ticked(s, s.(fields := step.fields), IdentityClientOutcome(h, step.result))
  }

  function IdentityServerTick(arms: Arms, c: IS.Config, io: nat -> IS.UpdateIo, h: nat, s: IdentityServerSession)
    : Tick<IdentityServerSession>
  {
    var u := IS.UpdateStep(c, s, io(h));
    Ticked(s, u.fields, IdentityServerArm(arms, h, u.result))
  }

  function EndpointClientTick(arms: Arms, io: nat -> ClientIo, h: nat, s: EndpointClientSession)
    : Tick<EndpointClientSession>
  {
    var step := EC.UpdateStep(s.config, s.fields, io(h));
    Ticked(s, s.(fields := step.fields), EndpointClientArm(arms, h, s.config, step.result))
  }

  function EndpointServerTick(arms: Arms, io: nat -> ES.UpdateIo, h: nat, s: EndpointServerSession)
    : Tick<EndpointServerSession>
  {
    var u := ES.UpdateStep(s.config, s.fields, io(h));
    Ticked(s, s.(fields := u.fields), EndpointServerArm(arms, h, s.config, u.result))
  }

  predicate Distinct(handles: seq<nat>) {
    forall i, j | 0 <= i < j < |handles| :: handles[i] != handles[j]
  }

  /** A map's handles below bound, in increasing order: how a BTreeMap's keys are collected. */
  function SortedHandles(keys: set<nat>, bound: nat): (r: seq<nat>)
    ensures forall i, j | 0 <= i < j < |r| :: r[i] < r[j]
    ensures forall h :: h in r <==> h in keys && h < bound
    decreases bound
  {
    if bound == 0 then []
    else
      var r := SortedHandles(keys, bound - 1);
      assert forall i | 0 <= i < |r| :: r[i] in r;
      r + (if bound - 1 in keys then [bound - 1] else [])
  }

  /** Each listed session's own events, as its tick reports them from its value in m, in the listed order. */
  function TickEvents<S>(m: map<nat, S>, handles: seq<nat>, step: (nat, S) -> Tick<S>): seq<ContextEvent>
    decreases |handles|
  {
    if handles == [] then []
    else
      var h := handles[|handles| - 1];
      TickEvents(m, handles[..|handles| - 1], step) + (if h in m then step(h, m[h]).events else [])
  }

  /**
   * The loop over the collected handles: each session is stepped in order, then kept with its
   * new value or removed. Each is stepped from its own value before the loop, so a session is
   * kept exactly when its tick keeps it, and the events are the sessions' own, in handle order.
   */
  function Sweep<S>(m: map<nat, S>, handles: seq<nat>, step: (nat, S) -> Tick<S>): (r: (map<nat, S>, seq<ContextEvent>))
    requires Distinct(handles) && forall i | 0 <= i < |handles| :: handles[i] in m
    ensures r.0.Keys <= m.Keys
    ensures forall h | h in m && h !in handles :: h in r.0 && r.0[h] == m[h]
    decreases |handles|
  {
    if handles == [] then (m, [])
    else
      var init := handles[..|handles| - 1];
      assert forall i | 0 <= i < |init| :: init[i] == handles[i];
      var (kept, events) := Sweep(m, init, step);
      var h := handles[|handles| - 1];
      assert h !in init;
      var t := step(h, kept[h]);
      (if t.kept.Some? then kept[h := t.kept.value] else kept - {h}, events + t.events)
  }

  /**
   * Each session is stepped from its own value before the loop, so a listed session is kept
   * exactly when its tick keeps it, with the tick's value, and the events are the sessions' own,
   * in the listed order.
   */
  lemma {:induction false} SweepTicks<S>(m: map<nat, S>, handles: seq<nat>, step: (nat, S) -> Tick<S>)
    requires Distinct(handles) && forall i | 0 <= i < |handles| :: handles[i] in m
    ensures var r := Sweep(m, handles, step);
      && (forall h | h in handles :: (h in r.0 <==> step(h, m[h]).kept.Some?)
                                     && (h in r.0 ==> r.0[h] == step(h, m[h]).kept.value))
      && r.1 == TickEvents(m, handles, step)
    decreases |handles|
  {
    if handles != [] {
      var init := handles[..|handles| - 1];
      assert forall i | 0 <= i < |init| :: init[i] == handles[i];
      SweepTicks(m, init, step);
      var h := handles[|handles| - 1];
      assert h !in init;
      assert forall k | k in handles :: k in init || k == h;
    }
  }

  /**
   * A sweep whose every step is sound reports no more sessions ended than it removes; when every
   * step is accounted for, exactly as many.
   */
  lemma {:induction false} SweepAccounts<S>(m: map<nat, S>, handles: seq<nat>, step: (nat, S) -> Tick<S>)
    requires Distinct(handles) && forall i | 0 <= i < |handles| :: handles[i] in m
    requires forall h, s :: SoundTick(step(h, s))
    ensures |Sweep(m, handles, step).0| + TerminalCount(Sweep(m, handles, step).1) <= |m|
    ensures (forall h, s :: Accounted(step(h, s))) ==>
              |Sweep(m, handles, step).0| + TerminalCount(Sweep(m, handles, step).1) == |m|
    decreases |handles|
  {
    if handles != [] {
      var init := handles[..|handles| - 1];
      SweepAccounts(m, init, step);
      var (kept, events) := Sweep(m, init, step);
      var h := handles[|handles| - 1];
      assert h !in init;
      StepAccounts(kept, events, h, step(h, kept[h]));
    }
  }

  /** One step of the loop: a sound tick ends at most the session it removes; an accounted one exactly that. */
  lemma StepAccounts<S>(kept: map<nat, S>, events: seq<ContextEvent>, h: nat, t: Tick<S>)
    requires h in kept && SoundTick(t)
    ensures var next := if t.kept.Some? then kept[h := t.kept.value] else kept - {h};
      && |next| + TerminalCount(events + t.events) <= |kept| + TerminalCount(events)
      && (Accounted(t) ==> |next| + TerminalCount(events + t.events) == |kept| + TerminalCount(events))
  {
    TerminalCountAppend(events, t.events);
    assert TerminalCount(t.events) == (if t.events != [] && t.events[0].Terminal() then 1 else 0) by {
      if t.events != [] {
        assert t.events == [t.events[0]];
        assert t.events[..0] == [];
      }
    }
    if t.kept.None? {
      assert |kept - {h}| == |kept| - 1 by {
        assert (kept - {h}).Keys == kept.Keys - {h};
      }
    } else {
      assert |kept[h := t.kept.value]| == |kept| by {
        assert kept[h := t.kept.value].Keys == kept.Keys;
      }
    }
  }

  /** The collected handles of a map are distinct keys of it, as Sweep needs. */
  lemma SortedHandlesSweepable<S>(m: map<nat, S>, bound: nat)
    ensures var handles := SortedHandles(m.Keys, bound);
      Distinct(handles) && forall i | 0 <= i < |handles| :: handles[i] in m
  {
    var handles := SortedHandles(m.Keys, bound);
    assert forall i | 0 <= i < |handles| :: handles[i] in handles;
  }

  /**
   * after is m after one loop of update over the handles below bound: each of those sessions is
   * kept, with its tick's new value, exactly when its tick keeps it; the others are untouched.
   */
  ghost predicate Swept<S>(m: map<nat, S>, after: map<nat, S>, bound: nat, step: (nat, S) -> Tick<S>) {
    && after.Keys <= m.Keys
    && (forall h | h in m && h < bound :: (h in after <==> step(h, m[h]).kept.Some?)
                                          && (h in after ==> after[h] == step(h, m[h]).kept.value))
    && (forall h | h in m && bound <= h :: h in after && after[h] == m[h])
  }

  /** One loop of update: every session of m below bound is stepped, in increasing handle order. */
  function SweepBelow<S>(m: map<nat, S>, bound: nat, step: (nat, S) -> Tick<S>): (r: (map<nat, S>, seq<ContextEvent>))
    ensures r.0.Keys <= m.Keys
  {
    SortedHandlesSweepable(m, bound);
    Sweep(m, SortedHandles(m.Keys, bound), step)
  }

  /** That loop, session by session: the ones below bound as their ticks say, in increasing handle order. */
  lemma SweepBelowSwept<S>(m: map<nat, S>, bound: nat, step: (nat, S) -> Tick<S>)
    ensures Swept(m, SweepBelow(m, bound, step).0, bound, step)
    ensures SweepBelow(m, bound, step).1 == TickEvents(m, SortedHandles(m.Keys, bound), step)
  {
    SortedHandlesSweepable(m, bound);
    SweepTicks(m, SortedHandles(m.Keys, bound), step);
    assert forall h | h in m && h < bound :: h in SortedHandles(m.Keys, bound);
  }

  /** Such a loop reports no more sessions ended than it removes; exactly as many when every tick is accounted for. */
  lemma SweepBelowAccounts<S>(m: map<nat, S>, bound: nat, step: (nat, S) -> Tick<S>)
    requires forall h, s :: SoundTick(step(h, s))
    ensures |SweepBelow(m, bound, step).0| + TerminalCount(SweepBelow(m, bound, step).1) <= |m|
    ensures (forall h, s :: Accounted(step(h, s))) ==>
              |SweepBelow(m, bound, step).0| + TerminalCount(SweepBelow(m, bound, step).1) == |m|
  {
    SortedHandlesSweepable(m, bound);
    SweepAccounts(m, SortedHandles(m.Keys, bound), step);
  }

  //
  // The Context's state.
  //

  /** The Context's fields that never change: the crypto oracle and the identity key. */
  datatype Config = Config(crypto: Crypto, identityPrivateKey: Ed25519PrivateKey) {
    function IdentityServiceId(): ServiceId {
      crypto.serviceIdOfPrivateKey(identityPrivateKey)
    }
  }

  datatype Fields = Fields(
    bootstrapComplete: bool,
    nextHandshakeHandle: nat,
    identityClients: map<nat, IdentityClientSession>,
    identityServers: map<nat, IdentityServerSession>,
    endpointClients: map<nat, EndpointClientSession>,
    endpointServers: map<nat, EndpointServerSession>,
    identityListener: bool,
    endpointListeners: map<ServiceId, EndpointListener>)
  {
    /** How many handshakes are in flight. */
    function Sessions(): nat {
      |identityClients| + |identityServers| + |endpointClients| + |endpointServers|
    }

    /** Every handle in use. */
    function Handles(): set<nat> {
      identityClients.Keys + identityServers.Keys + endpointClients.Keys + endpointServers.Keys
    }
  }

  const Initial: Fields := Fields(false, 0, map[], map[], map[], map[], false, map[])

  /** Every handle in use was handed out before, and belongs to one session only. */
  predicate Valid(f: Fields) {
    ValidKeys(f.identityClients.Keys, f.identityServers.Keys, f.endpointClients.Keys, f.endpointServers.Keys,
              f.nextHandshakeHandle)
  }

  predicate Below(keys: set<nat>, next: nat) {
    forall h | h in keys :: h < next
  }

  predicate ValidKeys(a: set<nat>, b: set<nat>, c: set<nat>, d: set<nat>, next: nat) {
    && Below(a, next) && Below(b, next) && Below(c, next) && Below(d, next)
    && a !! b && a !! c && a !! d && b !! c && b !! d && c !! d
  }

  /** Dropping sessions keeps the handles valid. */
  lemma ValidKeysShrink(a: set<nat>, b: set<nat>, c: set<nat>, d: set<nat>, next: nat,
                        a': set<nat>, b': set<nat>, c': set<nat>, d': set<nat>)
    requires a' <= a && b' <= b && c' <= c && d' <= d
    ensures ValidKeys(a, b, c, d, next) ==> ValidKeys(a', b', c', d', next)
  {
  }

  /** The next handle is in use nowhere, and filing a session under it keeps the handles valid. */
  lemma ValidKeysAllocate(a: set<nat>, b: set<nat>, c: set<nat>, d: set<nat>, next: nat)
    ensures ValidKeys(a, b, c, d, next) ==>
              && next !in a && next !in b && next !in c && next !in d
              && ValidKeys(a + {next}, b, c, d, next + 1) && ValidKeys(a, b + {next}, c, d, next + 1)
              && ValidKeys(a, b, c + {next}, d, next + 1) && ValidKeys(a, b, c, d + {next}, next + 1)
  {
  }

  /** Filing a value under a new key adds that key and one entry. */
  lemma MapInsert<V>(m: map<nat, V>, h: nat, v: V)
    ensures m[h := v].Keys == m.Keys + {h}
    ensures h !in m ==> |m[h := v]| == |m| + 1
  {
  }

  /** Replacing the value under a key keeps the keys. */
  lemma MapReplace<V>(m: map<nat, V>, h: nat, v: V)
    requires h in m
    ensures m[h := v].Keys == m.Keys && |m[h := v]| == |m|
  {
  }

  /** Dropping a key. */
  lemma MapRemove<V>(m: map<nat, V>, h: nat)
    ensures (m - {h}).Keys == m.Keys - {h} && (h in m ==> |m - {h}| == |m| - 1)
  {
  }

  /** The next handle, and the counter moved past it. */
  function Allocate(f: Fields): (r: (Fields, nat))
    ensures r.1 == f.nextHandshakeHandle && r.0 == f.(nextHandshakeHandle := f.nextHandshakeHandle + 1)
  {
    (f.(nextHandshakeHandle := f.nextHandshakeHandle + 1), f.nextHandshakeHandle)
  }

  //
  // The owner's calls.
  //

  /** Valid, for the handles of the four maps as they are after a change. */
  lemma ValidAllocate(f: Fields)
    ensures Valid(f) ==> f.nextHandshakeHandle !in f.Handles()
    ensures Valid(f) ==> ValidKeys(f.identityClients.Keys + {f.nextHandshakeHandle}, f.identityServers.Keys,
                                   f.endpointClients.Keys, f.endpointServers.Keys, f.nextHandshakeHandle + 1)
    ensures Valid(f) ==> ValidKeys(f.identityClients.Keys, f.identityServers.Keys + {f.nextHandshakeHandle},
                                   f.endpointClients.Keys, f.endpointServers.Keys, f.nextHandshakeHandle + 1)
    ensures Valid(f) ==> ValidKeys(f.identityClients.Keys, f.identityServers.Keys,
                                   f.endpointClients.Keys + {f.nextHandshakeHandle}, f.endpointServers.Keys,
                                   f.nextHandshakeHandle + 1)
    ensures Valid(f) ==> ValidKeys(f.identityClients.Keys, f.identityServers.Keys, f.endpointClients.Keys,
                                   f.endpointServers.Keys + {f.nextHandshakeHandle}, f.nextHandshakeHandle + 1)
  {
    ValidKeysAllocate(f.identityClients.Keys, f.identityServers.Keys, f.endpointClients.Keys, f.endpointServers.Keys,
                      f.nextHandshakeHandle);
  }

  /**
   * identity_client_begin_handshake: only after bootstrap, and only if tor connects (connected);
   * the new client gets the next handle. The client's authorization key is generated; it is a
   * parameter here.
   */
  function IdentityClientBeginHandshakeStep(c: Config, f: Fields, identityServerId: ServiceId, endpoint: string,
                                            connected: bool, clientAuthKey: X25519PrivateKey)
    : (r: (Fields, Result<nat, Fault>))
    ensures !f.bootstrapComplete ==> r == (f, Err(BootstrapIncomplete))
    ensures f.bootstrapComplete && !connected ==> r == (f, Err(TransportFailure))
    ensures r.1.Ok? <==> f.bootstrapComplete && connected
    ensures r.1.Ok? ==>
              && r.1.value == f.nextHandshakeHandle && r.0.nextHandshakeHandle == f.nextHandshakeHandle + 1
              && r.0.identityClients.Keys == f.identityClients.Keys + {r.1.value}
              && r.0.identityClients[r.1.value]
                 == IdentityClientSession(IC.Config(c.crypto, identityServerId, endpoint, c.identityPrivateKey,
                                                    clientAuthKey), IC.Initial)
              && r.0 == f.(identityClients := r.0.identityClients, nextHandshakeHandle := r.0.nextHandshakeHandle)
    ensures Valid(f) ==> Valid(r.0) && (r.1.Ok? ==> r.1.value !in f.Handles())
    ensures Valid(f) ==> forall h | h in f.identityClients :: r.0.identityClients[h] == f.identityClients[h]
  {
    if !f.bootstrapComplete then (f, Err(BootstrapIncomplete))
    else if !connected then (f, Err(TransportFailure))
    else
      ValidAllocate(f);
      var (g, h) := Allocate(f);
      var session := IdentityClientSession(IC.Config(c.crypto, identityServerId, endpoint, c.identityPrivateKey,
                                                     clientAuthKey), IC.Initial);
      assert g.identityClients[h := session].Keys == f.identityClients.Keys + {h};
      (g.(identityClients := g.identityClients[h := session]), Ok(h))
  }

  /** identity_client_abort_identity_handshake: the client is dropped; an unknown handle fails. */
  function IdentityClientAbortStep(f: Fields, h: nat): (r: (Fields, Result<(), Fault>))
    ensures r.1.Ok? <==> h in f.identityClients
    ensures r.1.Err? ==> r == (f, Err(NotFound))
    ensures r.1.Ok? ==> r.0 == f.(identityClients := f.identityClients - {h})
    ensures Valid(f) ==> Valid(r.0)
  {
    if h in f.identityClients then
      MapRemove(f.identityClients, h);
      ValidKeysShrink(f.identityClients.Keys, f.identityServers.Keys, f.endpointClients.Keys, f.endpointServers.Keys,
                      f.nextHandshakeHandle, f.identityClients.Keys - {h}, f.identityServers.Keys,
                      f.endpointClients.Keys, f.endpointServers.Keys);
      (f.(identityClients := f.identityClients - {h}), Ok(()))
    else (f, Err(NotFound))
  }

  /** identity_client_handle_challenge_received: the owner's answer goes to that client's send_response. */
  function IdentityClientChallengeResponseStep(f: Fields, h: nat, challengeResponse: Document)
    : (r: (Fields, Result<(), Fault>))
    ensures h !in f.identityClients ==> r == (f, Err(NotFound))
    ensures h in f.identityClients ==>
              var sent := IC.SendResponseStep(f.identityClients[h].fields, challengeResponse);
              r == (f.(identityClients := f.identityClients[h := f.identityClients[h].(fields := sent.0)]), sent.1)
    ensures Valid(f) ==> Valid(r.0)
  {
    if h !in f.identityClients then (f, Err(NotFound))
    else
      var s := f.identityClients[h];
      var sent := IC.SendResponseStep(s.fields, challengeResponse);
      MapReplace(f.identityClients, h, s.(fields := sent.0));
      (f.(identityClients := f.identityClients[h := s.(fields := sent.0)]), sent.1)
  }

  /** identity_server_start: only after bootstrap, only once, and only if tor stands up the service. */
  function IdentityServerStartStep(f: Fields, listened: bool): (r: (Fields, Result<(), Fault>))
    ensures !f.bootstrapComplete ==> r == (f, Err(BootstrapIncomplete))
    ensures f.bootstrapComplete && f.identityListener ==> r == (f, Err(ListenerAlreadyRunning))
    ensures r.1.Ok? <==> f.bootstrapComplete && !f.identityListener && listened
    ensures r.1.Ok? ==> r.0 == f.(identityListener := true)
    ensures r.1.Err? ==> r.0 == f
  {
    if !f.bootstrapComplete then (f, Err(BootstrapIncomplete))
    else if f.identityListener then (f, Err(ListenerAlreadyRunning))
    else if !listened then (f, Err(TransportFailure))
    else (f.(identityListener := true), Ok(()))
  }

  /** identity_server_stop: the listener is dropped along with every identity handshake in progress. */
  function IdentityServerStopStep(f: Fields): (r: (Fields, Result<(), Fault>))
    ensures !f.bootstrapComplete ==> r == (f, Err(BootstrapIncomplete))
    ensures f.bootstrapComplete ==> r == (f.(identityListener := false, identityServers := map[]), Ok(()))
    ensures Valid(f) ==> Valid(r.0)
  {
    if !f.bootstrapComplete then (f, Err(BootstrapIncomplete))
    else
      ValidKeysShrink(f.identityClients.Keys, f.identityServers.Keys, f.endpointClients.Keys, f.endpointServers.Keys,
                      f.nextHandshakeHandle, f.identityClients.Keys, {}, f.endpointClients.Keys,
                      f.endpointServers.Keys);
      (f.(identityListener := false, identityServers := map[]), Ok(()))
  }

  /** identity_server_handle_endpoint_request_received: the owner's verdict goes to send_challenge. */
  function IdentityServerEndpointRequestStep(f: Fields, h: nat, clientAllowed: bool, endpointSupported: bool,
                                             challenge: Document, serverCookie: Cookie)
    : (r: (Fields, Result<(), Fault>))
    ensures h !in f.identityServers ==> r == (f, Err(NotFound))
    ensures h in f.identityServers ==>
              var sent := IS.SendChallengeStep(f.identityServers[h], clientAllowed, endpointSupported, challenge,
                                               serverCookie);
              && r.1 == sent.1 && h in r.0.identityServers && r.0.identityServers[h] == sent.0
              && r.0 == f.(identityServers := f.identityServers[h := r.0.identityServers[h]])
    ensures Valid(f) ==> Valid(r.0)
  {
    if h !in f.identityServers then (f, Err(NotFound))
    else
      IS.OwnerAnswersKeepValid(f.identityServers[h], clientAllowed, endpointSupported, challenge, serverCookie, false);
      var sent := IS.SendChallengeStep(f.identityServers[h], clientAllowed, endpointSupported, challenge,
                                       serverCookie);
      var g: IdentityServerSession := sent.0;
      MapReplace(f.identityServers, h, g);
      (f.(identityServers := f.identityServers[h := g]), sent.1)
  }

  /** identity_server_handle_challenge_response_received: the owner's verdict goes to send_challenge_verification. */
  function IdentityServerChallengeResponseStep(f: Fields, h: nat, valid: bool): (r: (Fields, Result<(), Fault>))
    ensures h !in f.identityServers ==> r == (f, Err(NotFound))
    ensures h in f.identityServers ==>
              var sent := IS.SendChallengeVerificationStep(f.identityServers[h], valid);
              && r.1 == sent.1 && h in r.0.identityServers && r.0.identityServers[h] == sent.0
              && r.0 == f.(identityServers := f.identityServers[h := r.0.identityServers[h]])
    ensures Valid(f) ==> Valid(r.0)
  {
    if h !in f.identityServers then (f, Err(NotFound))
    else
      IS.OwnerAnswersKeepValid(f.identityServers[h], false, false, map[], seq(32, _ => 0), valid);
      var sent := IS.SendChallengeVerificationStep(f.identityServers[h], valid);
      var g: IdentityServerSession := sent.0;
      MapReplace(f.identityServers, h, g);
      (f.(identityServers := f.identityServers[h := g]), sent.1)
  }

  /**
   * endpoint_client_begin_handshake: only after bootstrap, once tor has the client authorization
   * key (authAdded) and connects (connected); the new client gets the next handle, which is not
   * returned.
   */
  function EndpointClientBeginHandshakeStep(c: Config, f: Fields, endpointServerId: ServiceId, channel: string,
                                            authAdded: bool, connected: bool): (r: (Fields, Result<(), Fault>))
    ensures !f.bootstrapComplete ==> r == (f, Err(BootstrapIncomplete))
    ensures r.1.Ok? <==> f.bootstrapComplete && authAdded && connected
    ensures r.1.Err? ==> r.0 == f
    ensures r.1.Ok? ==>
              && r.0.nextHandshakeHandle == f.nextHandshakeHandle + 1
              && r.0.endpointClients.Keys == f.endpointClients.Keys + {f.nextHandshakeHandle}
              && r.0.endpointClients[f.nextHandshakeHandle]
                 == EndpointClientSession(EC.Config(c.crypto, endpointServerId, channel, c.identityPrivateKey),
                                          EC.Initial)
              && r.0 == f.(endpointClients := r.0.endpointClients, nextHandshakeHandle := r.0.nextHandshakeHandle)
    ensures Valid(f) ==> Valid(r.0) && (r.1.Ok? ==> f.nextHandshakeHandle !in f.Handles())
    ensures Valid(f) ==> forall h | h in f.endpointClients :: r.0.endpointClients[h] == f.endpointClients[h]
  {
    if !f.bootstrapComplete then (f, Err(BootstrapIncomplete))
    else if !authAdded || !connected then (f, Err(TransportFailure))
    else
      ValidAllocate(f);
      var (g, h) := Allocate(f);
      var session := EndpointClientSession(EC.Config(c.crypto, endpointServerId, channel, c.identityPrivateKey),
                                           EC.Initial);
      assert g.endpointClients[h := session].Keys == f.endpointClients.Keys + {h};
      (g.(endpointClients := g.endpointClients[h := session]), Ok(()))
  }

  /** endpoint_client_abort_handshake: the client is dropped; an unknown handle fails. */
  function EndpointClientAbortStep(f: Fields, h: nat): (r: (Fields, Result<(), Fault>))
    ensures r.1.Ok? <==> h in f.endpointClients
    ensures r.1.Err? ==> r == (f, Err(NotFound))
    ensures r.1.Ok? ==> r.0 == f.(endpointClients := f.endpointClients - {h})
    ensures Valid(f) ==> Valid(r.0)
  {
    if h in f.endpointClients then
      MapRemove(f.endpointClients, h);
      ValidKeysShrink(f.identityClients.Keys, f.identityServers.Keys, f.endpointClients.Keys, f.endpointServers.Keys,
                      f.nextHandshakeHandle, f.identityClients.Keys, f.identityServers.Keys,
                      f.endpointClients.Keys - {h}, f.endpointServers.Keys);
      (f.(endpointClients := f.endpointClients - {h}), Ok(()))
    else (f, Err(NotFound))
  }

  /**
   * endpoint_server_start: only after bootstrap and once tor stands up the service; the listener
   * is filed under the service id of its key, replacing one already filed there.
   */
  function EndpointServerStartStep(c: Config, f: Fields, endpointPrivateKey: Ed25519PrivateKey, endpointName: string,
                                   clientIdentity: ServiceId, listened: bool): (r: (Fields, Result<(), Fault>))
    ensures !f.bootstrapComplete ==> r == (f, Err(BootstrapIncomplete))
    ensures r.1.Ok? <==> f.bootstrapComplete && listened
    ensures r.1.Err? ==> r.0 == f
    ensures r.1.Ok? ==>
              var id := c.crypto.serviceIdOfPrivateKey(endpointPrivateKey);
              r.0 == f.(endpointListeners := f.endpointListeners[id := EndpointListener(endpointName, clientIdentity)])
    ensures Valid(f) ==> Valid(r.0)
  {
    if !f.bootstrapComplete then (f, Err(BootstrapIncomplete))
    else if !listened then (f, Err(TransportFailure))
    else
      var id := c.crypto.serviceIdOfPrivateKey(endpointPrivateKey);
      (f.(endpointListeners := f.endpointListeners[id := EndpointListener(endpointName, clientIdentity)]), Ok(()))
  }

  /** endpoint_server_stop: the listener is dropped; an unknown service id fails. */
  function EndpointServerStopStep(f: Fields, endpointIdentity: ServiceId): (r: (Fields, Result<(), Fault>))
    ensures !f.bootstrapComplete ==> r == (f, Err(BootstrapIncomplete))
    ensures r.1.Ok? <==> f.bootstrapComplete && endpointIdentity in f.endpointListeners
    ensures r.1.Ok? ==> r.0 == f.(endpointListeners := f.endpointListeners - {endpointIdentity})
    ensures r.1.Err? ==> r.0 == f
    ensures Valid(f) ==> Valid(r.0)
  {
    if !f.bootstrapComplete then (f, Err(BootstrapIncomplete))
    else if endpointIdentity in f.endpointListeners then
      (f.(endpointListeners := f.endpointListeners - {endpointIdentity}), Ok(()))
    else (f, Err(NotFound))
  }

  //
  // update
  //

  /** What a listener's accept returned: an error, nothing pending, or a new connection. */
  datatype Accept = AcceptFailed | NoConnection | Connection

  /**
   * What the world answers during one update: the accepts (the endpoint listeners in the order
   * their map yields them), the random server cookie of an endpoint server started under a
   * handle, tor's events (None when the tor manager fails), and each session's own inputs by handle.
   */
  datatype UpdateIo = UpdateIo(
    identityAccept: Accept,
    endpointOrder: seq<ServiceId>,
    endpointAccept: ServiceId -> Accept,
    serverCookie: nat -> Cookie,
    torEvents: Option<seq<TM.TorEvent>>,
    identityClientIo: nat -> ClientIo,
    identityServerIo: nat -> IS.UpdateIo,
    endpointClientIo: nat -> ClientIo,
    endpointServerIo: nat -> ES.UpdateIo)

  /** The endpoint listeners in some order, each once. */
  ghost predicate ListsListeners(f: Fields, order: seq<ServiceId>) {
    && (forall i, j | 0 <= i < j < |order| :: order[i] != order[j])
    && forall id :: id in order <==> id in f.endpointListeners
  }

  /** From f to g no handle is handed out twice: the counter only grows, and every new handle is one it passed. */
  predicate Grows(f: Fields, g: Fields) {
    && f.nextHandshakeHandle <= g.nextHandshakeHandle
    && Fresh(f.identityClients.Keys, g.identityClients.Keys, f.nextHandshakeHandle, g.nextHandshakeHandle)
    && Fresh(f.identityServers.Keys, g.identityServers.Keys, f.nextHandshakeHandle, g.nextHandshakeHandle)
    && Fresh(f.endpointClients.Keys, g.endpointClients.Keys, f.nextHandshakeHandle, g.nextHandshakeHandle)
    && Fresh(f.endpointServers.Keys, g.endpointServers.Keys, f.nextHandshakeHandle, g.nextHandshakeHandle)
  }

  /** Every key of after that is not a key of before lies between the two counters. */
  predicate Fresh(before: set<nat>, after: set<nat>, next: nat, next': nat) {
    forall h | h in after && h !in before :: next <= h < next'
  }

  lemma GrowsTransitive(f: Fields, g: Fields, k: Fields)
    requires Grows(f, g) && Grows(g, k)
    ensures Grows(f, k)
  {
  }

  /** A connection on the identity listener starts an identity server under the next handle. */
  function AcceptIdentity(c: Config, f: Fields, a: Accept): (r: (Fields, bool))
    ensures !r.1 <==> f.identityListener && a.AcceptFailed?
    ensures r.0 == f || (f.identityListener && a.Connection? && r.0 == AcceptedIdentity(f))
    ensures Grows(f, r.0)
  {
    if !f.identityListener then (f, true)
    else
      match a
      case AcceptFailed => (f, false)
      case NoConnection => (f, true)
      case Connection => (AcceptedIdentity(f), true)
  }

  /** Filing a new identity server under the next handle. */
  lemma IdentityServerFiled(f: Fields, s: IdentityServerSession)
    ensures var g := f.(nextHandshakeHandle := f.nextHandshakeHandle + 1, identityServers := f.identityServers[f.nextHandshakeHandle := s]);
      && Grows(f, g)
      && (Valid(f) ==> Valid(g) && g.Sessions() == f.Sessions() + 1)
  {
    IdentityServerFiledGrows(f, s);
    IdentityServerFiledValid(f, s);
    IdentityServerFiledCount(f, s);
  }

  lemma IdentityServerFiledGrows(f: Fields, s: IdentityServerSession)
    ensures Grows(f, f.(nextHandshakeHandle := f.nextHandshakeHandle + 1, identityServers := f.identityServers[f.nextHandshakeHandle := s]))
  {
    MapInsert(f.identityServers, f.nextHandshakeHandle, s);
  }

  lemma IdentityServerFiledValid(f: Fields, s: IdentityServerSession)
    ensures Valid(f) ==> Valid(f.(nextHandshakeHandle := f.nextHandshakeHandle + 1, identityServers := f.identityServers[f.nextHandshakeHandle := s])) && f.nextHandshakeHandle !in f.identityServers
  {
    MapInsert(f.identityServers, f.nextHandshakeHandle, s);
    if Valid(f) {
      ValidKeysAllocate(f.identityClients.Keys, f.identityServers.Keys, f.endpointClients.Keys,
                        f.endpointServers.Keys, f.nextHandshakeHandle);
    }
  }

  lemma IdentityServerFiledCount(f: Fields, s: IdentityServerSession)
    ensures f.nextHandshakeHandle !in f.identityServers ==> (f.(nextHandshakeHandle := f.nextHandshakeHandle + 1, identityServers := f.identityServers[f.nextHandshakeHandle := s])).Sessions() == f.Sessions() + 1
  {
    MapInsert(f.identityServers, f.nextHandshakeHandle, s);
  }

  /** Filing a new endpoint server under the next handle. */
  lemma EndpointServerFiled(f: Fields, s: EndpointServerSession)
    ensures var g := f.(nextHandshakeHandle := f.nextHandshakeHandle + 1, endpointServers := f.endpointServers[f.nextHandshakeHandle := s]);
      && Grows(f, g)
      && (Valid(f) ==> Valid(g) && g.Sessions() == f.Sessions() + 1)
  {
    EndpointServerFiledGrows(f, s);
    EndpointServerFiledValid(f, s);
    EndpointServerFiledCount(f, s);
  }

  lemma EndpointServerFiledGrows(f: Fields, s: EndpointServerSession)
    ensures Grows(f, f.(nextHandshakeHandle := f.nextHandshakeHandle + 1, endpointServers := f.endpointServers[f.nextHandshakeHandle := s]))
  {
    MapInsert(f.endpointServers, f.nextHandshakeHandle, s);
  }

  lemma EndpointServerFiledValid(f: Fields, s: EndpointServerSession)
    ensures Valid(f) ==> Valid(f.(nextHandshakeHandle := f.nextHandshakeHandle + 1, endpointServers := f.endpointServers[f.nextHandshakeHandle := s])) && f.nextHandshakeHandle !in f.endpointServers
  {
    MapInsert(f.endpointServers, f.nextHandshakeHandle, s);
    if Valid(f) {
      ValidKeysAllocate(f.identityClients.Keys, f.identityServers.Keys, f.endpointClients.Keys,
                        f.endpointServers.Keys, f.nextHandshakeHandle);
    }
  }

  lemma EndpointServerFiledCount(f: Fields, s: EndpointServerSession)
    ensures f.nextHandshakeHandle !in f.endpointServers ==> (f.(nextHandshakeHandle := f.nextHandshakeHandle + 1, endpointServers := f.endpointServers[f.nextHandshakeHandle := s])).Sessions() == f.Sessions() + 1
  {
    MapInsert(f.endpointServers, f.nextHandshakeHandle, s);
  }

  function AcceptedIdentity(f: Fields): (g: Fields)
    ensures g == f.(nextHandshakeHandle := g.nextHandshakeHandle, identityServers := g.identityServers)
    ensures g.nextHandshakeHandle == f.nextHandshakeHandle + 1
    ensures f.nextHandshakeHandle in g.identityServers && g.identityServers[f.nextHandshakeHandle] == IS.Initial
    ensures Grows(f, g)
    ensures Valid(f) ==> Valid(g) && g.Sessions() == f.Sessions() + 1
  {
    var n := f.nextHandshakeHandle;
    var g := f.(nextHandshakeHandle := n + 1, identityServers := f.identityServers[n := IS.Initial]);
    IdentityServerFiled(f, IS.Initial);
    g
  }

  /** A connection on an endpoint listener starts an endpoint server for its allowed client. */
  function AcceptedEndpoint(c: Config, f: Fields, id: ServiceId, cookie: Cookie): (g: Fields)
    requires id in f.endpointListeners
    ensures g == f.(nextHandshakeHandle := g.nextHandshakeHandle, endpointServers := g.endpointServers)
    ensures g.nextHandshakeHandle == f.nextHandshakeHandle + 1
    ensures f.nextHandshakeHandle in g.endpointServers
    ensures g.endpointServers[f.nextHandshakeHandle]
            == EndpointServerSession(ES.Config(c.crypto, cookie, f.endpointListeners[id].allowedClient, id), ES.Initial)
    ensures Grows(f, g)
    ensures Valid(f) ==> Valid(g) && g.Sessions() == f.Sessions() + 1
  {
    var n := f.nextHandshakeHandle;
    var session := EndpointServerSession(ES.Config(c.crypto, cookie, f.endpointListeners[id].allowedClient, id),
                                         ES.Initial);
    var g := f.(nextHandshakeHandle := n + 1, endpointServers := f.endpointServers[n := session]);
    EndpointServerFiled(f, session);
    g
  }

  /** The loop over the endpoint listeners; the first failed accept ends it. */
  function AcceptEndpoints(c: Config, f: Fields, order: seq<ServiceId>, io: UpdateIo): (r: (Fields, bool))
    requires forall i | 0 <= i < |order| :: order[i] in f.endpointListeners
    ensures r.0.endpointListeners == f.endpointListeners && r.0.bootstrapComplete == f.bootstrapComplete
    ensures r.0.identityListener == f.identityListener
    ensures Valid(f) ==> Valid(r.0)
    ensures Grows(f, r.0)
    decreases |order|
  {
    if order == [] then (f, true)
    else
      var (g, ok) := AcceptEndpoints(c, f, order[..|order| - 1], io);
      var id := order[|order| - 1];
      if !ok then (g, false)
      else
        match io.endpointAccept(id)
        case AcceptFailed => (g, false)
        case NoConnection => (g, true)
        case Connection =>
          var k := AcceptedEndpoint(c, g, id, io.serverCookie(g.nextHandshakeHandle));
          GrowsTransitive(f, g, k);
          (k, true)
  }

  /** Once an accept has failed, the rest of the listeners are not polled. */
  lemma {:induction false} AcceptEndpointsStop(c: Config, f: Fields, order: seq<ServiceId>, j: nat, io: UpdateIo)
    requires forall i | 0 <= i < |order| :: order[i] in f.endpointListeners
    requires j <= |order| && !AcceptEndpoints(c, f, order[..j], io).1
    ensures AcceptEndpoints(c, f, order, io) == AcceptEndpoints(c, f, order[..j], io)
    decreases |order|
  {
    if j == |order| {
      assert order[..j] == order;
    } else {
      var init := order[..|order| - 1];
      assert init[..j] == order[..j];
      AcceptEndpointsStop(c, f, init, j, io);
    }
  }

  /** The accepts at the start of update; false when one of them failed. */
  function AcceptStep(c: Config, f: Fields, io: UpdateIo): (r: (Fields, bool))
    requires ListsListeners(f, io.endpointOrder)
    ensures r.0.endpointListeners == f.endpointListeners && r.0.bootstrapComplete == f.bootstrapComplete
    ensures Valid(f) ==> Valid(r.0)
    ensures Grows(f, r.0)
  {
    var (g, ok) := AcceptIdentity(c, f, io.identityAccept);
    if !ok then (g, false)
    else
      var k := AcceptEndpoints(c, g, io.endpointOrder, io);
      GrowsTransitive(f, g, k.0);
      k
  }

  /** One tor event, as the owner hears of it. */
  function TorEventStep(c: Config, f: Fields, e: TM.TorEvent): (r: (Fields, seq<ContextEvent>))
    ensures r.0 == f.(bootstrapComplete := r.0.bootstrapComplete)
    ensures r.0.bootstrapComplete == (f.bootstrapComplete || e.BootstrapComplete?)
    ensures |r.1| <= 1 && TerminalCount(r.1) == 0
    ensures e.OnionServicePublished? && e.serviceId == c.IdentityServiceId() ==> r.1 == [IdentityServerPublished]
    ensures e.OnionServicePublished? && e.serviceId != c.IdentityServiceId() ==>
              (r.1 != [] <==> e.serviceId in f.endpointListeners)
  {
    match e
    case BootstrapStatus(progress, tag, summary) => (f, [TorBootstrapStatusReceived(progress, tag, summary)])
    case BootstrapComplete => (f.(bootstrapComplete := true), [TorBootstrapCompleted])
    case LogReceived(line) => (f, [TorLogReceived(line)])
    case OnionServicePublished(id) =>
      if id == c.IdentityServiceId() then (f, [IdentityServerPublished])
      else if id in f.endpointListeners then (f, [EndpointServerPublished(id, f.endpointListeners[id].name)])
      else (f, [])
  }

  function TorEventsStep(c: Config, f: Fields, events: seq<TM.TorEvent>): (r: (Fields, seq<ContextEvent>))
    ensures r.0 == f.(bootstrapComplete := r.0.bootstrapComplete)
    ensures r.0.bootstrapComplete ==
            (f.bootstrapComplete || exists i | 0 <= i < |events| :: events[i].BootstrapComplete?)
    ensures TerminalCount(r.1) == 0
    decreases |events|
  {
    if events == [] then (f, [])
    else
      var (g, out) := TorEventsStep(c, f, events[..|events| - 1]);
      var (h, more) := TorEventStep(c, g, events[|events| - 1]);
      TerminalCountAppend(out, more);
      assert forall i | 0 <= i < |events| - 1 :: events[..|events| - 1][i] == events[i];
      (h, out + more)
  }

  function IdentityClientTicks(io: UpdateIo): (nat, IdentityClientSession) -> Tick<IdentityClientSession> {
    (h: nat, s: IdentityClientSession) => IdentityClientTick(io.identityClientIo, h, s)
  }

  function IdentityServerTicks(arms: Arms, c: Config, io: UpdateIo)
    : (nat, IdentityServerSession) -> Tick<IdentityServerSession>
  {
    (h: nat, s: IdentityServerSession) =>
      IdentityServerTick(arms, IS.Config(c.crypto, c.IdentityServiceId()), io.identityServerIo, h, s)
  }

  function EndpointClientTicks(arms: Arms, io: UpdateIo): (nat, EndpointClientSession) -> Tick<EndpointClientSession> {
    (h: nat, s: EndpointClientSession) => EndpointClientTick(arms, io.endpointClientIo, h, s)
  }

  function EndpointServerTicks(arms: Arms, io: UpdateIo): (nat, EndpointServerSession) -> Tick<EndpointServerSession> {
    (h: nat, s: EndpointServerSession) => EndpointServerTick(arms, io.endpointServerIo, h, s)
  }

  /**
   * The four sweeps, in the order update runs them: each session alive before them is kept,
   * with its new value, exactly when its tick keeps it, and the events are the sessions' own,
   * the identity clients' first, each kind in handle order.
   */
  function SessionsStep(arms: Arms, c: Config, f: Fields, io: UpdateIo): (r: (Fields, seq<ContextEvent>))
    ensures r.0.Handles() <= f.Handles() && Grows(f, r.0)
    ensures r.0 == f.(identityClients := r.0.identityClients, identityServers := r.0.identityServers,
                      endpointClients := r.0.endpointClients, endpointServers := r.0.endpointServers)
  {
    var n := f.nextHandshakeHandle;
    var (ic, e1) := SweepBelow(f.identityClients, n, IdentityClientTicks(io));
    var (isv, e2) := SweepBelow(f.identityServers, n, IdentityServerTicks(arms, c, io));
    var (ec, e3) := SweepBelow(f.endpointClients, n, EndpointClientTicks(arms, io));
    var (es, e4) := SweepBelow(f.endpointServers, n, EndpointServerTicks(arms, io));
    (f.(identityClients := ic, identityServers := isv, endpointClients := ec, endpointServers := es),
     e1 + e2 + e3 + e4)
  }

  /**
   * The four loops, session by session: each kind's sessions below the next handle are kept
   * exactly when their own tick keeps them, the rest are untouched, and the events are the
   * kinds' events in update's order.
   */
  lemma SessionsStepSweeps(arms: Arms, c: Config, f: Fields, io: UpdateIo)
    ensures var r := SessionsStep(arms, c, f, io);
      && Swept(f.identityClients, r.0.identityClients, f.nextHandshakeHandle, IdentityClientTicks(io))
      && Swept(f.identityServers, r.0.identityServers, f.nextHandshakeHandle, IdentityServerTicks(arms, c, io))
      && Swept(f.endpointClients, r.0.endpointClients, f.nextHandshakeHandle, EndpointClientTicks(arms, io))
      && Swept(f.endpointServers, r.0.endpointServers, f.nextHandshakeHandle, EndpointServerTicks(arms, io))
      && var n := f.nextHandshakeHandle;
      r.1 == TickEvents(f.identityClients, SortedHandles(f.identityClients.Keys, n), IdentityClientTicks(io))
             + TickEvents(f.identityServers, SortedHandles(f.identityServers.Keys, n), IdentityServerTicks(arms, c, io))
             + TickEvents(f.endpointClients, SortedHandles(f.endpointClients.Keys, n), EndpointClientTicks(arms, io))
             + TickEvents(f.endpointServers, SortedHandles(f.endpointServers.Keys, n), EndpointServerTicks(arms, io))
  {
    var n := f.nextHandshakeHandle;
    SweepBelowSwept(f.identityClients, n, IdentityClientTicks(io));
    SweepBelowSwept(f.identityServers, n, IdentityServerTicks(arms, c, io));
    SweepBelowSwept(f.endpointClients, n, EndpointClientTicks(arms, io));
    SweepBelowSwept(f.endpointServers, n, EndpointServerTicks(arms, io));
  }

  /** SessionsStep from the four loops' results. */
  lemma SessionsStepOf(arms: Arms, c: Config, f: Fields, io: UpdateIo,
                       ic: map<nat, IdentityClientSession>, isv: map<nat, IdentityServerSession>,
                       ec: map<nat, EndpointClientSession>, es: map<nat, EndpointServerSession>,
                       e1: seq<ContextEvent>, e2: seq<ContextEvent>, e3: seq<ContextEvent>, e4: seq<ContextEvent>)
    requires (ic, e1) == SweepBelow(f.identityClients, f.nextHandshakeHandle, IdentityClientTicks(io))
    requires (isv, e2) == SweepBelow(f.identityServers, f.nextHandshakeHandle, IdentityServerTicks(arms, c, io))
    requires (ec, e3) == SweepBelow(f.endpointClients, f.nextHandshakeHandle, EndpointClientTicks(arms, io))
    requires (es, e4) == SweepBelow(f.endpointServers, f.nextHandshakeHandle, EndpointServerTicks(arms, io))
    ensures SessionsStep(arms, c, f, io)
            == (f.(identityClients := ic, identityServers := isv, endpointClients := ec, endpointServers := es),
                e1 + e2 + e3 + e4)
  {
  }

  /**
   * gosling.rs Context::update: accept, then tor's events, then every session; a failed accept
   * or a failed tor update ends it with an error, keeping what was accepted before. The
   * Context follows the arms as written; the intended arms are the corrected update.
   */
  function UpdateStep(arms: Arms, c: Config, f: Fields, io: UpdateIo): (r: (Fields, Result<seq<ContextEvent>, Fault>))
    requires ListsListeners(f, io.endpointOrder)
    ensures r.1.Err? ==> r.1.error == TransportFailure
    ensures r.1.Err? <==> !AcceptStep(c, f, io).1 || io.torEvents.None?
    ensures Valid(f) ==> Valid(r.0)
    ensures r.0.endpointListeners == f.endpointListeners && r.0.identityListener == f.identityListener
    ensures Grows(f, r.0)
    ensures r.1.Err? ==> r.0 == AcceptStep(c, f, io).0
    ensures r.1.Ok? ==>
              var t := TorEventsStep(c, AcceptStep(c, f, io).0, io.torEvents.value);
              var s := SessionsStep(arms, c, t.0, io);
              r.0 == s.0 && r.1.value == t.1 + s.1
  {
    var (g, ok) := AcceptStep(c, f, io);
    if !ok then (g, Err(TransportFailure))
    else if io.torEvents.None? then (g, Err(TransportFailure))
    else
      var (t, torOut) := TorEventsStep(c, g, io.torEvents.value);
      var (s, sessionOut) := SessionsStep(arms, c, t, io);
      GrowsTransitive(f, g, s);
      (s, Ok(torOut + sessionOut))
  }

  //
  // Properties.
  //

  lemma ValidInitial()
    ensures Valid(Initial)
  {
  }

  /** Every tick is sound; with the intended arms, every tick reports the session it ends. */
  lemma TicksAccounted(arms: Arms, c: Config, io: UpdateIo)
    ensures forall h, s :: SoundTick(IdentityClientTicks(io)(h, s))
    ensures forall h, s :: SoundTick(IdentityServerTicks(arms, c, io)(h, s))
    ensures forall h, s :: SoundTick(EndpointClientTicks(arms, io)(h, s))
    ensures forall h, s :: SoundTick(EndpointServerTicks(arms, io)(h, s))
    ensures forall h, s :: Accounted(IdentityClientTicks(io)(h, s))
    ensures arms.Intended? ==> forall h, s :: Accounted(IdentityServerTicks(arms, c, io)(h, s))
    ensures arms.Intended? ==> forall h, s :: Accounted(EndpointClientTicks(arms, io)(h, s))
    ensures arms.Intended? ==> forall h, s :: Accounted(EndpointServerTicks(arms, io)(h, s))
  {
  }

  /**
   * The owner never hears of more sessions ending than update removes: the sessions after the
   * accepts are at least the ones left plus the terminal events. With the intended arms it
   * hears of every one: exactly.
   */
  lemma UpdateReportsEndedSessions(arms: Arms, c: Config, f: Fields, io: UpdateIo)
    requires ListsListeners(f, io.endpointOrder)
    ensures var (g, r) := UpdateStep(arms, c, f, io);
      r.Ok? ==> g.Sessions() + TerminalCount(r.value) <= AcceptStep(c, f, io).0.Sessions()
    ensures var (g, r) := UpdateStep(arms, c, f, io);
      r.Ok? && arms.Intended? ==> g.Sessions() + TerminalCount(r.value) == AcceptStep(c, f, io).0.Sessions()
  {
    var (a, ok) := AcceptStep(c, f, io);
    if ok && io.torEvents.Some? {
      var (t, torOut) := TorEventsStep(c, a, io.torEvents.value);
      SessionsStepAccounts(arms, c, t, io);
      TerminalCountAppend(torOut, SessionsStep(arms, c, t, io).1);
    }
  }

  /**
   * after is what the identity-client loop leaves of m: a client is removed exactly when its
   * update fails or completes the handshake, and is kept otherwise with its updated fields.
   */
  ghost predicate IdentityClientsUpdated(m: map<nat, IdentityClientSession>, after: map<nat, IdentityClientSession>,
                                         io: UpdateIo)
  {
    forall h | h in m ::
      var u := IC.UpdateStep(m[h].config, m[h].fields, io.identityClientIo(h));
      && (h in after <==> u.result.Ok? && !(u.result.value.Some? && u.result.value.value.HandshakeCompleted?))
      && (h in after ==> after[h] == m[h].(fields := u.fields))
  }

  /** The identity-server loop: a server is removed exactly when its update fails or reports a verdict. */
  ghost predicate IdentityServersUpdated(c: Config, m: map<nat, IdentityServerSession>,
                                         after: map<nat, IdentityServerSession>, io: UpdateIo)
  {
    forall h | h in m ::
      var u := IS.UpdateStep(IS.Config(c.crypto, c.IdentityServiceId()), m[h], io.identityServerIo(h));
      && (h in after <==> u.result.Ok? && !(u.result.value.Some? && u.result.value.value.Terminal()))
      && (h in after ==> after[h] == u.fields)
  }

  /** The endpoint-client loop: a client is removed exactly when its update fails or reports completion. */
  ghost predicate EndpointClientsUpdated(m: map<nat, EndpointClientSession>, after: map<nat, EndpointClientSession>,
                                         io: UpdateIo)
  {
    forall h | h in m ::
      var u := EC.UpdateStep(m[h].config, m[h].fields, io.endpointClientIo(h));
      && (h in after <==> u.result == Ok(None))
      && (h in after ==> after[h] == m[h].(fields := u.fields))
  }

  /** The endpoint-server loop: a server is removed exactly when its update fails or reports a verdict. */
  ghost predicate EndpointServersUpdated(m: map<nat, EndpointServerSession>, after: map<nat, EndpointServerSession>,
                                         io: UpdateIo)
  {
    forall h | h in m ::
      var u := ES.UpdateStep(m[h].config, m[h].fields, io.endpointServerIo(h));
      && (h in after <==> u.result.Ok? && !(u.result.value.Some? && !u.result.value.value.ChannelRequestReceived?))
      && (h in after ==> after[h] == m[h].(fields := u.fields))
  }

  lemma IdentityClientsSwept(m: map<nat, IdentityClientSession>, after: map<nat, IdentityClientSession>, bound: nat,
                             io: UpdateIo)
    requires Below(m.Keys, bound) && Swept(m, after, bound, IdentityClientTicks(io))
    ensures IdentityClientsUpdated(m, after, io)
  {
    forall h | h in m
      ensures var u := IC.UpdateStep(m[h].config, m[h].fields, io.identityClientIo(h));
        && (h in after <==> u.result.Ok? && !(u.result.value.Some? && u.result.value.value.HandshakeCompleted?))
        && (h in after ==> after[h] == m[h].(fields := u.fields))
    {
      assert IdentityClientTicks(io)(h, m[h]) == IdentityClientTick(io.identityClientIo, h, m[h]);
    }
  }

  lemma IdentityServersSwept(arms: Arms, c: Config, m: map<nat, IdentityServerSession>,
                             after: map<nat, IdentityServerSession>, bound: nat, io: UpdateIo)
    requires Below(m.Keys, bound) && Swept(m, after, bound, IdentityServerTicks(arms, c, io))
    ensures IdentityServersUpdated(c, m, after, io)
  {
    forall h | h in m
      ensures var u := IS.UpdateStep(IS.Config(c.crypto, c.IdentityServiceId()), m[h], io.identityServerIo(h));
        && (h in after <==> u.result.Ok? && !(u.result.value.Some? && u.result.value.value.Terminal()))
        && (h in after ==> after[h] == u.fields)
    {
      assert IdentityServerTicks(arms, c, io)(h, m[h])
             == IdentityServerTick(arms, IS.Config(c.crypto, c.IdentityServiceId()), io.identityServerIo, h, m[h]);
    }
  }

  lemma EndpointClientsSwept(arms: Arms, m: map<nat, EndpointClientSession>, after: map<nat, EndpointClientSession>,
                             bound: nat, io: UpdateIo)
    requires Below(m.Keys, bound) && Swept(m, after, bound, EndpointClientTicks(arms, io))
    ensures EndpointClientsUpdated(m, after, io)
  {
    forall h | h in m
      ensures var u := EC.UpdateStep(m[h].config, m[h].fields, io.endpointClientIo(h));
        && (h in after <==> u.result == Ok(None))
        && (h in after ==> after[h] == m[h].(fields := u.fields))
    {
      assert EndpointClientTicks(arms, io)(h, m[h]) == EndpointClientTick(arms, io.endpointClientIo, h, m[h]);
    }
  }

  lemma EndpointServersSwept(arms: Arms, m: map<nat, EndpointServerSession>, after: map<nat, EndpointServerSession>,
                             bound: nat, io: UpdateIo)
    requires Below(m.Keys, bound) && Swept(m, after, bound, EndpointServerTicks(arms, io))
    ensures EndpointServersUpdated(m, after, io)
  {
    forall h | h in m
      ensures var u := ES.UpdateStep(m[h].config, m[h].fields, io.endpointServerIo(h));
        && (h in after <==> u.result.Ok? && !(u.result.value.Some? && !u.result.value.value.ChannelRequestReceived?))
        && (h in after ==> after[h] == m[h].(fields := u.fields))
    {
      assert EndpointServerTicks(arms, io)(h, m[h]) == EndpointServerTick(arms, io.endpointServerIo, h, m[h]);
    }
  }

  /**
   * update removes a session exactly when its own update fails or reports the end of its
   * handshake, and keeps it otherwise with its updated fields: every session alive after the
   * accepts, of each of the four kinds, with either arms.
   */
  lemma UpdateRemovesEndedSessions(arms: Arms, c: Config, f: Fields, io: UpdateIo)
    requires Valid(f) && ListsListeners(f, io.endpointOrder)
    ensures var (g, r) := UpdateStep(arms, c, f, io);
      var a := AcceptStep(c, f, io).0;
      r.Ok? ==>
        && IdentityClientsUpdated(a.identityClients, g.identityClients, io)
        && IdentityServersUpdated(c, a.identityServers, g.identityServers, io)
        && EndpointClientsUpdated(a.endpointClients, g.endpointClients, io)
        && EndpointServersUpdated(a.endpointServers, g.endpointServers, io)
  {
    var (a, ok) := AcceptStep(c, f, io);
    if ok && io.torEvents.Some? {
      var t := TorEventsStep(c, a, io.torEvents.value).0;
      var g := SessionsStep(arms, c, t, io).0;
      var n := t.nextHandshakeHandle;
      SessionsStepSweeps(arms, c, t, io);
      assert Valid(t);
      IdentityClientsSwept(t.identityClients, g.identityClients, n, io);
      IdentityServersSwept(arms, c, t.identityServers, g.identityServers, n, io);
      EndpointClientsSwept(arms, t.endpointClients, g.endpointClients, n, io);
      EndpointServersSwept(arms, t.endpointServers, g.endpointServers, n, io);
    }
  }

  /** An endpoint server whose RPC session fails is removed; as written with no event, as intended with its failure. */
  lemma FailedServerTick(arms: Arms, io: UpdateIo, server: ES.Config)
    requires io.endpointServerIo(0) == ES.UpdateIo([], false)
    ensures EndpointServerTicks(arms, io)(0, EndpointServerSession(server, ES.Initial))
            == Tick(None, if arms.AsWritten? then [] else [EndpointServerRequestFailed(0, RpcSessionFailed)])
  {
    var u := ES.UpdateStep(server, ES.Initial, io.endpointServerIo(0));
    assert ES.ServeRpc(server, ES.Initial, []) == (ES.Initial, []);
    assert u.result == Err(RpcSessionFailed);
  }

  /** The loop over the endpoint servers when that server is the only one. */
  lemma FailedServerSweep(arms: Arms, io: UpdateIo, server: ES.Config)
    requires io.endpointServerIo(0) == ES.UpdateIo([], false)
    ensures SweepBelow(map[0 := EndpointServerSession(server, ES.Initial)], 1, EndpointServerTicks(arms, io))
            == (map[], if arms.AsWritten? then [] else [EndpointServerRequestFailed(0, RpcSessionFailed)])
  {
    FailedServerTick(arms, io, server);
    DroppedOnlySweep(EndpointServerSession(server, ES.Initial), EndpointServerTicks(arms, io));
  }

  /** The loop over a map whose one session, under handle 0, is dropped by its tick: only its events remain. */
  lemma DroppedOnlySweep<S>(s: S, step: (nat, S) -> Tick<S>)
    requires step(0, s).kept.None?
    ensures SweepBelow(map[0 := s], 1, step) == (map[], step(0, s).events)
  {
    var m := map[0 := s];
    assert m.Keys == {0};
    assert SortedHandles({0}, 1) == [0] by {
      assert SortedHandles({0}, 0) == [];
    }
    var r := SweepBelow(m, 1, step);
    SweepBelowSwept(m, 1, step);
    assert [0][..0] == [];
    assert TickEvents(m, [0], step) == TickEvents(m, [], step) + step(0, s).events;
    assert TickEvents(m, [], step) == [];
    assert 0 in m && m[0] == s;
    assert 0 !in r.0;
    assert r.0 == map[];
    assert r.1 == step(0, s).events;
  }

  /** The sweeps over a Context whose one session is that endpoint server. */
  lemma FailedServerSessions(arms: Arms, c: Config, server: ES.Config, io: UpdateIo)
    requires io.endpointServerIo(0) == ES.UpdateIo([], false)
    ensures var f := OneServer(server);
      SessionsStep(arms, c, f, io)
      == (f.(endpointServers := map[]), if arms.AsWritten? then [] else [EndpointServerRequestFailed(0, RpcSessionFailed)])
  {
    var f := OneServer(server);
    assert f.nextHandshakeHandle == 1 && f.identityClients == map[] && f.identityServers == map[]
           && f.endpointClients == map[] && f.endpointServers == map[0 := EndpointServerSession(server, ES.Initial)];
    OnlyServersSessions(arms, c, f, io);
    FailedServerSweep(arms, io, server);
  }

  /** When endpoint servers are the only sessions, the sweeps are the endpoint servers' loop. */
  lemma OnlyServersSessions(arms: Arms, c: Config, f: Fields, io: UpdateIo)
    requires f.identityClients == map[] && f.identityServers == map[] && f.endpointClients == map[]
    ensures var r := SweepBelow(f.endpointServers, f.nextHandshakeHandle, EndpointServerTicks(arms, io));
      SessionsStep(arms, c, f, io) == (f.(endpointServers := r.0), r.1)
  {
    var n := f.nextHandshakeHandle;
    EmptySweep(n, IdentityClientTicks(io));
    EmptySweep(n, IdentityServerTicks(arms, c, io));
    EmptySweep(n, EndpointClientTicks(arms, io));
    var (es, e4) := SweepBelow(f.endpointServers, n, EndpointServerTicks(arms, io));
    SessionsStepOf(arms, c, f, io, map[], map[], map[], es, [], [], [], e4);
    assert [] + [] + [] + e4 == e4;
  }

  lemma EmptySweep<S>(bound: nat, step: (nat, S) -> Tick<S>)
    ensures SweepBelow(map[], bound, step) == (map[], [])
  {
    var r := SweepBelow(map[], bound, step);
    SweepBelowSwept(map[], bound, step);
    assert r.0.Keys == {};
    assert SortedHandles({}, bound) == [];
  }

  /** A Context with one session: a new endpoint server under handle 0. */
  function OneServer(server: ES.Config): Fields {
    Initial.(nextHandshakeHandle := 1, endpointServers := map[0 := EndpointServerSession(server, ES.Initial)])
  }

  /** Its update accepts nothing and hears nothing from tor. */
  lemma OneServerQuiet(c: Config, server: ES.Config, io: UpdateIo)
    requires io.torEvents == Some([]) && io.endpointOrder == []
    ensures var f := OneServer(server);
      && Valid(f) && ListsListeners(f, io.endpointOrder) && f.Sessions() == 1
      && AcceptStep(c, f, io) == (f, true) && TorEventsStep(c, f, []) == (f, [])
  {
    var f := OneServer(server);
    assert AcceptEndpoints(c, f, [], io) == (f, true);
    assert |f.endpointServers| == 1;
  }

  /** An update that accepts nothing and hears nothing from tor is its sweep of the sessions. */
  lemma QuietUpdate(arms: Arms, c: Config, f: Fields, io: UpdateIo)
    requires ListsListeners(f, io.endpointOrder) && io.torEvents == Some([])
    requires AcceptStep(c, f, io) == (f, true) && TorEventsStep(c, f, []) == (f, [])
    ensures UpdateStep(arms, c, f, io) == (SessionsStep(arms, c, f, io).0, Ok(SessionsStep(arms, c, f, io).1))
  {
    var s := SessionsStep(arms, c, f, io);
    assert [] + s.1 == s.1;
  }

  /** The lone endpoint server's failed update, lifted to the whole update. */
  lemma FailedServerUpdate(arms: Arms, c: Config, server: ES.Config, io: UpdateIo)
    requires io.torEvents == Some([]) && io.endpointOrder == [] && io.endpointServerIo(0) == ES.UpdateIo([], false)
    ensures var f := OneServer(server);
      ListsListeners(f, io.endpointOrder)
      && UpdateStep(arms, c, f, io)
         == (f.(endpointServers := map[]),
             Ok(if arms.AsWritten? then [] else [EndpointServerRequestFailed(0, RpcSessionFailed)]))
  {
    OneServerQuiet(c, server, io);
    FailedServerSessions(arms, c, server, io);
    QuietUpdate(arms, c, OneServer(server), io);
  }

  /**
   * As written, update can drop a session without the owner hearing of it: an endpoint server
   * whose RPC session fails disappears with no event, where the intended arm reports the failure.
   */
  lemma UpdateDropsFailedServerSilently(c: Config, server: ES.Config, io: UpdateIo)
    requires io.torEvents == Some([]) && io.endpointOrder == [] && io.endpointServerIo(0) == ES.UpdateIo([], false)
    ensures var f := OneServer(server);
      && Valid(f) && ListsListeners(f, io.endpointOrder) && f.Sessions() == 1
      && UpdateStep(AsWritten, c, f, io) == (f.(endpointServers := map[]), Ok([]))
      && f.(endpointServers := map[]).Sessions() == 0
      && UpdateStep(Intended, c, f, io).1 == Ok([EndpointServerRequestFailed(0, RpcSessionFailed)])
  {
    OneServerQuiet(c, server, io);
    FailedServerUpdate(AsWritten, c, server, io);
    FailedServerUpdate(Intended, c, server, io);
  }

  /** The four sweeps report no more sessions ended than they remove; with the intended arms, exactly as many. */
  lemma SessionsStepAccounts(arms: Arms, c: Config, t: Fields, io: UpdateIo)
    ensures SessionsStep(arms, c, t, io).0.Sessions() + TerminalCount(SessionsStep(arms, c, t, io).1) <= t.Sessions()
    ensures arms.Intended? ==>
              SessionsStep(arms, c, t, io).0.Sessions() + TerminalCount(SessionsStep(arms, c, t, io).1) == t.Sessions()
  {
    var n := t.nextHandshakeHandle;
    TicksAccounted(arms, c, io);
    SweepBelowAccounts(t.identityClients, n, IdentityClientTicks(io));
    SweepBelowAccounts(t.identityServers, n, IdentityServerTicks(arms, c, io));
    SweepBelowAccounts(t.endpointClients, n, EndpointClientTicks(arms, io));
    SweepBelowAccounts(t.endpointServers, n, EndpointServerTicks(arms, io));
    var e1 := SweepBelow(t.identityClients, n, IdentityClientTicks(io)).1;
    var e2 := SweepBelow(t.identityServers, n, IdentityServerTicks(arms, c, io)).1;
    var e3 := SweepBelow(t.endpointClients, n, EndpointClientTicks(arms, io)).1;
    var e4 := SweepBelow(t.endpointServers, n, EndpointServerTicks(arms, io)).1;
    TerminalCountAppend(e1, e2);
    TerminalCountAppend(e1 + e2, e3);
    TerminalCountAppend(e1 + e2 + e3, e4);
  }

  //
  // The object.
  //

  class Context {
    const crypto: Crypto
    const identityPrivateKey: Ed25519PrivateKey
    const identityServiceId: ServiceId := crypto.serviceIdOfPrivateKey(identityPrivateKey)

    var bootstrapComplete: bool
    var nextHandshakeHandle: nat
    var identityClients: map<nat, IdentityClientSession>
    var identityServers: map<nat, IdentityServerSession>
    var endpointClients: map<nat, EndpointClientSession>
    var endpointServers: map<nat, EndpointServerSession>
    var identityListener: bool
    var endpointListeners: map<ServiceId, EndpointListener>

    function Settings(): Config {
      Config(crypto, identityPrivateKey)
    }

    function Snapshot(): Fields
      reads this
    {
      Fields(bootstrapComplete, nextHandshakeHandle, identityClients, identityServers, endpointClients,
             endpointServers, identityListener, endpointListeners)
    }

    constructor (crypto: Crypto, identityPrivateKey: Ed25519PrivateKey)
      ensures Settings() == Config(crypto, identityPrivateKey) && Snapshot() == Initial && Valid(Snapshot())
    {
      this.crypto := crypto;
      this.identityPrivateKey := identityPrivateKey;
      bootstrapComplete := false;
      nextHandshakeHandle := 0;
      identityClients := map[];
      identityServers := map[];
      endpointClients := map[];
      endpointServers := map[];
      identityListener := false;
      endpointListeners := map[];
    }

    method IdentityClientBeginHandshake(identityServerId: ServiceId, endpoint: string, connected: bool,
                                        clientAuthKey: X25519PrivateKey) returns (r: Result<nat, Fault>)
      requires Valid(Snapshot())
      modifies this
      ensures Valid(Snapshot())
      ensures (Snapshot(), r)
              == IdentityClientBeginHandshakeStep(Settings(), old(Snapshot()), identityServerId, endpoint, connected,
                                                  clientAuthKey)
    {
      if !bootstrapComplete {
        return Err(BootstrapIncomplete);
      }
      if !connected {
        return Err(TransportFailure);
      }
      var client := IdentityClientSession(IC.Config(crypto, identityServerId, endpoint, identityPrivateKey, clientAuthKey),
                                          IC.Initial);
      var handle := nextHandshakeHandle;
      nextHandshakeHandle := nextHandshakeHandle + 1;
      identityClients := identityClients[handle := client];
      return Ok(handle);
    }

    method IdentityClientAbortHandshake(handle: nat) returns (r: Result<(), Fault>)
      requires Valid(Snapshot())
      modifies this
      ensures Valid(Snapshot())
      ensures (Snapshot(), r) == IdentityClientAbortStep(old(Snapshot()), handle)
    {
      if handle in identityClients {
        identityClients := identityClients - {handle};
        return Ok(());
      }
      return Err(NotFound);
    }

    method IdentityClientHandleChallengeReceived(handle: nat, challengeResponse: Document) returns (r: Result<(), Fault>)
      requires Valid(Snapshot())
      modifies this
      ensures Valid(Snapshot())
      ensures (Snapshot(), r) == IdentityClientChallengeResponseStep(old(Snapshot()), handle, challengeResponse)
    {
      if handle !in identityClients {
        return Err(NotFound);
      }
      var client := identityClients[handle];
      var sent := IC.SendResponseStep(client.fields, challengeResponse);
      identityClients := identityClients[handle := client.(fields := sent.0)];
      r := sent.1;
    }

    method IdentityServerStart(listened: bool) returns (r: Result<(), Fault>)
      requires Valid(Snapshot())
      modifies this
      ensures Valid(Snapshot())
      ensures (Snapshot(), r) == IdentityServerStartStep(old(Snapshot()), listened)
    {
      if !bootstrapComplete {
        return Err(BootstrapIncomplete);
      }
      if identityListener {
        return Err(ListenerAlreadyRunning);
      }
      if !listened {
        return Err(TransportFailure);
      }
      identityListener := true;
      return Ok(());
    }

    method IdentityServerStop() returns (r: Result<(), Fault>)
      requires Valid(Snapshot())
      modifies this
      ensures Valid(Snapshot())
      ensures (Snapshot(), r) == IdentityServerStopStep(old(Snapshot()))
    {
      if !bootstrapComplete {
        return Err(BootstrapIncomplete);
      }
      identityListener := false;
      identityServers := map[];
      return Ok(());
    }

    method IdentityServerHandleEndpointRequestReceived(handle: nat, clientAllowed: bool, endpointSupported: bool,
                                                       challenge: Document, serverCookie: Cookie)
      returns (r: Result<(), Fault>)
      requires Valid(Snapshot())
      modifies this
      ensures Valid(Snapshot())
      ensures (Snapshot(), r) == IdentityServerEndpointRequestStep(old(Snapshot()), handle, clientAllowed,
                                                                   endpointSupported, challenge, serverCookie)
    {
      if handle !in identityServers {
        return Err(NotFound);
      }
      IS.OwnerAnswersKeepValid(identityServers[handle], clientAllowed, endpointSupported, challenge, serverCookie, false);
      var sent := IS.SendChallengeStep(identityServers[handle], clientAllowed, endpointSupported, challenge,
                                       serverCookie);
      identityServers := identityServers[handle := sent.0];
      r := sent.1;
    }

    method IdentityServerHandleChallengeResponseReceived(handle: nat, valid: bool) returns (r: Result<(), Fault>)
      requires Valid(Snapshot())
      modifies this
      ensures Valid(Snapshot())
      ensures (Snapshot(), r) == IdentityServerChallengeResponseStep(old(Snapshot()), handle, valid)
    {
      if handle !in identityServers {
        return Err(NotFound);
      }
      IS.OwnerAnswersKeepValid(identityServers[handle], false, false, map[], seq(32, _ => 0), valid);
      var sent := IS.SendChallengeVerificationStep(identityServers[handle], valid);
      identityServers := identityServers[handle := sent.0];
      r := sent.1;
    }

    method EndpointClientBeginHandshake(endpointServerId: ServiceId, channel: string, authAdded: bool, connected: bool)
      returns (r: Result<(), Fault>)
      requires Valid(Snapshot())
      modifies this
      ensures Valid(Snapshot())
      ensures (Snapshot(), r)
              == EndpointClientBeginHandshakeStep(Settings(), old(Snapshot()), endpointServerId, channel, authAdded,
                                                  connected)
    {
      if !bootstrapComplete {
        return Err(BootstrapIncomplete);
      }
      if !authAdded || !connected {
        return Err(TransportFailure);
      }
      var client := EndpointClientSession(EC.Config(crypto, endpointServerId, channel, identityPrivateKey), EC.Initial);
      var handle := nextHandshakeHandle;
      nextHandshakeHandle := nextHandshakeHandle + 1;
      endpointClients := endpointClients[handle := client];
      return Ok(());
    }

    method EndpointClientAbortHandshake(handle: nat) returns (r: Result<(), Fault>)
      requires Valid(Snapshot())
      modifies this
      ensures Valid(Snapshot())
      ensures (Snapshot(), r) == EndpointClientAbortStep(old(Snapshot()), handle)
    {
      if handle in endpointClients {
        endpointClients := endpointClients - {handle};
        return Ok(());
      }
      return Err(NotFound);
    }

    method EndpointServerStart(endpointPrivateKey: Ed25519PrivateKey, endpointName: string, clientIdentity: ServiceId,
                               listened: bool) returns (r: Result<(), Fault>)
      requires Valid(Snapshot())
      modifies this
      ensures Valid(Snapshot())
      ensures (Snapshot(), r)
              == EndpointServerStartStep(Settings(), old(Snapshot()), endpointPrivateKey, endpointName, clientIdentity,
                                         listened)
    {
      if !bootstrapComplete {
        return Err(BootstrapIncomplete);
      }
      if !listened {
        return Err(TransportFailure);
      }
      var id := crypto.serviceIdOfPrivateKey(endpointPrivateKey);
      endpointListeners := endpointListeners[id := EndpointListener(endpointName, clientIdentity)];
      return Ok(());
    }

    /** endpoint_server_handle_channel_request_received is not implemented: it always fails. */
    method EndpointServerHandleChannelRequestReceived(handle: nat, channelSupported: bool) returns (r: Result<(), Fault>)
      ensures r == Err(NotImplemented)
    {
      return Err(NotImplemented);
    }

    method EndpointServerStop(endpointIdentity: ServiceId) returns (r: Result<(), Fault>)
      requires Valid(Snapshot())
      modifies this
      ensures Valid(Snapshot())
      ensures (Snapshot(), r) == EndpointServerStopStep(old(Snapshot()), endpointIdentity)
    {
      if !bootstrapComplete {
        return Err(BootstrapIncomplete);
      }
      if endpointIdentity in endpointListeners {
        endpointListeners := endpointListeners - {endpointIdentity};
        return Ok(());
      }
      return Err(NotFound);
    }

    method Update(io: UpdateIo) returns (r: Result<seq<ContextEvent>, Fault>)
      requires Valid(Snapshot()) && ListsListeners(Snapshot(), io.endpointOrder)
      modifies this
      ensures (Snapshot(), r) == UpdateStep(AsWritten, Settings(), old(Snapshot()), io)
      ensures Valid(Snapshot())
    {
      var accepted := AcceptConnections(io);
      if !accepted {
        return Err(TransportFailure);
      }
      if io.torEvents.None? {
        return Err(TransportFailure);
      }
      var events := ConsumeTorEvents(io.torEvents.value);
      var more := UpdateSessions(io);
      return Ok(events + more);
    }

    /** The accepts at the start of update. */
    method AcceptConnections(io: UpdateIo) returns (ok: bool)
      requires ListsListeners(Snapshot(), io.endpointOrder)
      modifies this`nextHandshakeHandle, this`identityServers, this`endpointServers
      ensures (Snapshot(), ok) == AcceptStep(Settings(), old(Snapshot()), io)
    {
      ok := AcceptIdentityConnection(io.identityAccept);
      if ok {
        ok := AcceptEndpointConnections(io);
      }
    }

    /** The identity listener's accept. */
    method AcceptIdentityConnection(accept: Accept) returns (ok: bool)
      modifies this`nextHandshakeHandle, this`identityServers
      ensures (Snapshot(), ok) == AcceptIdentity(Settings(), old(Snapshot()), accept)
    {
      if !identityListener {
        return true;
      }
      match accept {
        case AcceptFailed =>
          return false;
        case NoConnection =>
          return true;
        case Connection =>
          var handle := nextHandshakeHandle;
          nextHandshakeHandle := nextHandshakeHandle + 1;
          identityServers := identityServers[handle := IS.Initial];
          return true;
      }
    }

    /** The loop over the endpoint listeners' accepts. */
    method AcceptEndpointConnections(io: UpdateIo) returns (ok: bool)
      requires forall i | 0 <= i < |io.endpointOrder| :: io.endpointOrder[i] in endpointListeners
      modifies this`nextHandshakeHandle, this`endpointServers
      ensures (Snapshot(), ok) == AcceptEndpoints(Settings(), old(Snapshot()), io.endpointOrder, io)
    {
      var order := io.endpointOrder;
      for i := 0 to |order|
        invariant (Snapshot(), true) == AcceptEndpoints(Settings(), old(Snapshot()), order[..i], io)
      {
        assert order[..i + 1][..i] == order[..i];
        var id := order[i];
        match io.endpointAccept(id) {
          case AcceptFailed =>
            AcceptEndpointsStop(Settings(), old(Snapshot()), order, i + 1, io);
            return false;
          case NoConnection =>
          case Connection =>
            FileEndpointServer(id, io.serverCookie(nextHandshakeHandle));
        }
      }
      assert order[..|order|] == order;
      return true;
    }

    /** A new endpoint server for the listener filed under id, under the next handle. */
    method FileEndpointServer(id: ServiceId, cookie: Cookie)
      requires id in endpointListeners
      modifies this`nextHandshakeHandle, this`endpointServers
      ensures Snapshot() == AcceptedEndpoint(Settings(), old(Snapshot()), id, cookie)
    {
      var listener := endpointListeners[id];
      var server := EndpointServerSession(ES.Config(crypto, cookie, listener.allowedClient, id), ES.Initial);
      var handle := nextHandshakeHandle;
      nextHandshakeHandle := nextHandshakeHandle + 1;
      endpointServers := endpointServers[handle := server];
    }

    /** The loop over tor's events. */
    method ConsumeTorEvents(torEvents: seq<TM.TorEvent>) returns (events: seq<ContextEvent>)
      modifies this`bootstrapComplete
      ensures (Snapshot(), events) == TorEventsStep(Settings(), old(Snapshot()), torEvents)
    {
      events := [];
      for i := 0 to |torEvents|
        invariant (Snapshot(), events) == TorEventsStep(Settings(), old(Snapshot()), torEvents[..i])
      {
        assert torEvents[..i + 1][..i] == torEvents[..i];
        var more := ConsumeTorEvent(torEvents[i]);
        events := events + more;
      }
      assert torEvents[..|torEvents|] == torEvents;
    }

    /** One of tor's events. */
    method ConsumeTorEvent(e: TM.TorEvent) returns (events: seq<ContextEvent>)
      modifies this`bootstrapComplete
      ensures (Snapshot(), events) == TorEventStep(Settings(), old(Snapshot()), e)
    {
      match e {
        case BootstrapStatus(progress, tag, summary) =>
          events := [TorBootstrapStatusReceived(progress, tag, summary)];
        case BootstrapComplete =>
          bootstrapComplete := true;
          events := [TorBootstrapCompleted];
        case LogReceived(line) =>
          events := [TorLogReceived(line)];
        case OnionServicePublished(id) =>
          if id == identityServiceId {
            events := [IdentityServerPublished];
          } else if id in endpointListeners {
            events := [EndpointServerPublished(id, endpointListeners[id].name)];
          } else {
            events := [];
          }
      }
    }

    /** The four loops over the sessions, in the order update runs them. */
    method UpdateSessions(io: UpdateIo) returns (events: seq<ContextEvent>)
      modifies this`identityClients, this`identityServers, this`endpointClients, this`endpointServers
      ensures (Snapshot(), events) == SessionsStep(AsWritten, Settings(), old(Snapshot()), io)
    {
      ghost var f := Snapshot();
      var n := nextHandshakeHandle;
      var ic, e1 := SweepSessions(identityClients, n, IdentityClientTicks(io));
      var isv, e2 := SweepSessions(identityServers, n, IdentityServerTicks(AsWritten, Settings(), io));
      var ec, e3 := SweepSessions(endpointClients, n, EndpointClientTicks(AsWritten, io));
      var es, e4 := SweepSessions(endpointServers, n, EndpointServerTicks(AsWritten, io));
      identityClients, identityServers, endpointClients, endpointServers := ic, isv, ec, es;
      events := e1 + e2 + e3 + e4;
      SessionsStepOf(AsWritten, Settings(), f, io, ic, isv, ec, es, e1, e2, e3, e4);
      assert Snapshot() == f.(identityClients := ic, identityServers := isv, endpointClients := ec, endpointServers := es);
    }
  }

  /** One loop over a session map: its handles are collected, then stepped. */
  method SweepSessions<S>(m: map<nat, S>, bound: nat, step: (nat, S) -> Tick<S>)
    returns (kept: map<nat, S>, events: seq<ContextEvent>)
    ensures (kept, events) == SweepBelow(m, bound, step)
  {
    SortedHandlesSweepable(m, bound);
    kept, events := SweepHandles(m, SortedHandles(m.Keys, bound), step);
  }

  /** The loop itself, over handles collected beforehand. */
  method SweepHandles<S>(m: map<nat, S>, handles: seq<nat>, step: (nat, S) -> Tick<S>)
    returns (kept: map<nat, S>, events: seq<ContextEvent>)
    requires Distinct(handles) && forall i | 0 <= i < |handles| :: handles[i] in m
    ensures (kept, events) == Sweep(m, handles, step)
  {
    kept, events := m, [];
    for i := 0 to |handles|
      invariant (kept, events) == Sweep(m, handles[..i], step)
    {
      assert handles[..i + 1][..i] == handles[..i];
      assert handles[i] !in handles[..i];
      var handle := handles[i];
      var t := step(handle, kept[handle]);
      if t.kept.Some? {
        kept := kept[handle := t.kept.value];
      } else {
        kept := kept - {handle};
      }
      events := events + t.events;
    }
    assert handles[..|handles|] == handles;
  }
}
