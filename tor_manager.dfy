/**
 * The legacy tor client of the tor-interface crate (crates/tor-interface/src/tor_manager.rs):
 * its version gate, the onion-service bookkeeping shared with the listeners it hands out, the
 * cached SOCKS listener, and the translation of control-port events into TorEvents.
 *
 * The tor process and its controller are not modelled; what they answer (the version, the
 * async events, the log lines, whether a command succeeded) is passed in.
 */
module TorManager {
  import opened Types

  /** The size of a u32: values are below this. */
  const U32_LIMIT: nat := 0x1_0000_0000

  type Port = p: int | 0 <= p < 0x1_0000

  //
  // The version gate.
  //

  datatype TorVersion = TorVersion(major: nat, minor: nat, micro: nat, patchLevel: nat, statusTag: Option<string>)

  /** Lexicographic order on the four numbers of a version (the status tag is not compared). */
  predicate VersionLess(a: TorVersion, b: TorVersion) {
    || a.major < b.major
    || (a.major == b.major && a.minor < b.minor)
    || (a.major == b.major && a.minor == b.minor && a.micro < b.micro)
    || (a.major == b.major && a.minor == b.minor && a.micro == b.micro && a.patchLevel < b.patchLevel)
  }

  /** The oldest tor with v3 client authorization over the control port. */
  const MinRequiredVersion: TorVersion := TorVersion(0, 4, 6, 1, None)

  datatype TorError =
    | TorProcessCreationFailed
    | ControlStreamCreationFailed
    | TorControllerCreationFailed
    | TorProcessAuthenticationFailed
    | GetInfoVersionFailed
    | TorProcessTooOld(found: TorVersion, required: TorVersion)
    | SetEventsFailed
    | DelOnionFailed
    | WaitAsyncEventsFailed
    | SetConfDisableNetwork0Failed
    | OnionClientAuthAddFailed
    | OnionClientAuthRemoveFailed
    | GetInfoNetListenersSocksFailed
    | NoSocksListenersFound
    | Socks5ConnectionFailed
    | TcpListenerBindFailed
    | TcpListenerLocalAddrFailed
    | AddOnionFailed

  /** The check in LegacyTorClient::new: a tor older than 0.4.6.1 is refused. */
  function VersionGate(version: TorVersion): (r: Result<(), TorError>)
    ensures r.Err? <==> VersionLess(version, MinRequiredVersion)
    ensures r.Err? ==> r.error == TorProcessTooOld(version, MinRequiredVersion)
  {
    if VersionLess(version, MinRequiredVersion) then Err(TorProcessTooOld(version, MinRequiredVersion))
    else Ok(())
  }

  /** VersionLess is a strict total order on the numeric part of a version. */
  lemma VersionLessIsStrictOrder(a: TorVersion, b: TorVersion, c: TorVersion)
    ensures !VersionLess(a, a)
    ensures VersionLess(a, b) ==> !VersionLess(b, a)
    ensures VersionLess(a, b) && VersionLess(b, c) ==> VersionLess(a, c)
    ensures VersionLess(a, b) || VersionLess(b, a)
            || (a.major, a.minor, a.micro, a.patchLevel) == (b.major, b.minor, b.micro, b.patchLevel)
  {
  }

  /** The gate accepts exactly the versions at or above the minimum. */
  lemma VersionGateMonotone(older: TorVersion, newer: TorVersion)
    requires !VersionLess(newer, older)
    ensures VersionGate(older).Ok? ==> VersionGate(newer).Ok?
  {
    VersionLessIsStrictOrder(newer, older, MinRequiredVersion);
  }

  //
  // Parsing a u32 the way Rust's str::parse does.
  //

  predicate IsDigit(ch: char) {
    '0' <= ch <= '9'
  }

  predicate AllDigits(s: string) {
    forall i | 0 <= i < |s| :: IsDigit(s[i])
  }

  function DigitValue(ch: char): nat
    requires IsDigit(ch)
  {
    ch as int - '0' as int
  }

  function DigitChar(d: nat): (ch: char)
    requires d < 10
    ensures IsDigit(ch) && DigitValue(ch) == d
  {
    ('0' as int + d) as char
  }

  /** The number a string of decimal digits denotes. */
  function DigitsValue(s: string): nat
    requires AllDigits(s)
    decreases |s|
  {
    if s == [] then 0 else DigitsValue(s[..|s| - 1]) * 10 + DigitValue(s[|s| - 1])
  }

  /** The decimal digits of n, without leading zeros. */
  function DecimalString(n: nat): (s: string)
    ensures AllDigits(s) && s != []
    decreases n
  {
    if n < 10 then [DigitChar(n)] else DecimalString(n / 10) + [DigitChar(n % 10)]
  }

  /** The digits part of a string: an optional leading '+' is dropped. */
  function Unsigned(s: string): string {
    if |s| > 0 && s[0] == '+' then s[1..] else s
  }

  /** str::parse::<u32>: at least one digit after an optional '+', and no overflow. */
  function ParseU32(s: string): (r: Option<nat>)
    ensures r.Some? ==> r.value < U32_LIMIT
  {
    var digits := Unsigned(s);
    if digits != [] && AllDigits(digits) && DigitsValue(digits) < U32_LIMIT then Some(DigitsValue(digits))
    else None
  }

  /** PROGRESS parses with unwrap_or(0). */
  function ParseOrZero(s: string): (n: nat)
    ensures n < U32_LIMIT
  {
    match ParseU32(s)
    case Some(v) => v
    case None => 0
  }

  lemma {:induction false} DecimalStringValue(n: nat)
    ensures DigitsValue(DecimalString(n)) == n
    decreases n
  {
    if n >= 10 {
      DecimalStringValue(n / 10);
      var s := DecimalString(n);
      assert s[..|s| - 1] == DecimalString(n / 10);
    }
  }

  /** Printing a u32 in decimal and parsing it back gives it back, with or without a '+'. */
  lemma ParseU32Decimal(n: nat)
    ensures n < U32_LIMIT ==> ParseU32(DecimalString(n)) == Some(n) && ParseU32("+" + DecimalString(n)) == Some(n)
    ensures n >= U32_LIMIT ==> ParseU32(DecimalString(n)) == None
  {
    DecimalStringValue(n);
    assert Unsigned("+" + DecimalString(n)) == DecimalString(n);
  }

  //
  // Translating control-port events.
  //

  datatype TorEvent =
    | BootstrapStatus(progress: nat, tag: string, summary: string)
    | BootstrapComplete
    | LogReceived(line: string)
    | OnionServicePublished(serviceId: ServiceId)

  /** The control-port async events the controller reports. */
  datatype AsyncEvent =
    | StatusClient(severity: string, action: string, arguments: seq<(string, string)>)
    | HsDesc(action: string, hsAddress: ServiceId)
    | Unknown(lines: seq<string>)

  datatype Bootstrap = Bootstrap(progress: nat, tag: string, summary: string)

  /** The keyword arguments of a BOOTSTRAP status event, read in order. */
  function BootstrapFields(arguments: seq<(string, string)>): (b: Bootstrap)
    ensures b.progress < U32_LIMIT
    decreases |arguments|
  {
    if arguments == [] then Bootstrap(0, "", "")
    else
      var b := BootstrapFields(arguments[..|arguments| - 1]);
      var (key, value) := arguments[|arguments| - 1];
      if key == "PROGRESS" then b.(progress := ParseOrZero(value))
      else if key == "TAG" then b.(tag := value)
      else if key == "SUMMARY" then b.(summary := value)
      else b
  }

  /** The last occurrence of PROGRESS, TAG or SUMMARY decides that field. */
  lemma {:induction false} LastOccurrenceWins(arguments: seq<(string, string)>, j: nat)
    requires j < |arguments|
    requires forall k | j < k < |arguments| :: arguments[k].0 != arguments[j].0
    ensures arguments[j].0 == "PROGRESS" ==> BootstrapFields(arguments).progress == ParseOrZero(arguments[j].1)
    ensures arguments[j].0 == "TAG" ==> BootstrapFields(arguments).tag == arguments[j].1
    ensures arguments[j].0 == "SUMMARY" ==> BootstrapFields(arguments).summary == arguments[j].1
    decreases |arguments|
  {
    if j < |arguments| - 1 {
      LastOccurrenceWins(arguments[..|arguments| - 1], j);
    }
  }

  /** A field whose key never occurs keeps its default (0 or the empty string). */
  lemma {:induction false} AbsentKeyDefaults(arguments: seq<(string, string)>)
    ensures (forall k | 0 <= k < |arguments| :: arguments[k].0 != "PROGRESS") ==>
              BootstrapFields(arguments).progress == 0
    ensures (forall k | 0 <= k < |arguments| :: arguments[k].0 != "TAG") ==> BootstrapFields(arguments).tag == ""
    ensures (forall k | 0 <= k < |arguments| :: arguments[k].0 != "SUMMARY") ==>
              BootstrapFields(arguments).summary == ""
    decreases |arguments|
  {
    if arguments != [] {
      AbsentKeyDefaults(arguments[..|arguments| - 1]);
    }
  }

  /** A NOTICE BOOTSTRAP status event. */
  predicate IsBootstrapNotice(e: AsyncEvent) {
    e.StatusClient? && e.severity == "NOTICE" && e.action == "BOOTSTRAP"
  }

  /** The TorEvents one async event becomes. */
  function Translate(e: AsyncEvent): (r: seq<TorEvent>)
    ensures (r != []) <==> IsBootstrapNotice(e) || (e.HsDesc? && e.action == "UPLOADED")
    ensures IsBootstrapNotice(e) ==>
              var b := BootstrapFields(e.arguments);
              r[0] == BootstrapStatus(b.progress, b.tag, b.summary)
              && (|r| == 2 <==> b.progress == 100) && (|r| == 2 ==> r[1] == BootstrapComplete)
    ensures e.HsDesc? && e.action == "UPLOADED" ==> r == [OnionServicePublished(e.hsAddress)]
  {
    match e
    case StatusClient(severity, action, arguments) =>
      if severity == "NOTICE" && action == "BOOTSTRAP" then
        var b := BootstrapFields(arguments);
        [BootstrapStatus(b.progress, b.tag, b.summary)] + (if b.progress == 100 then [BootstrapComplete] else [])
      else []
    case HsDesc(action, hsAddress) =>
      if action == "UPLOADED" then [OnionServicePublished(hsAddress)] else []
    case Unknown(_) => []
  }

  function TranslateAll(events: seq<AsyncEvent>): (r: seq<TorEvent>)
    ensures forall i | 0 <= i < |r| :: !r[i].LogReceived?
    decreases |events|
  {
    if events == [] then [] else TranslateAll(events[..|events| - 1]) + Translate(events[|events| - 1])
  }

  function LogEvents(lines: seq<string>): (r: seq<TorEvent>)
    ensures |r| == |lines| && forall i | 0 <= i < |lines| :: r[i] == LogReceived(lines[i])
    decreases |lines|
  {
    if lines == [] then [] else LogEvents(lines[..|lines| - 1]) + [LogReceived(lines[|lines| - 1])]
  }

  /** What update returns once the cleanup succeeded: the translated events, then the log lines. */
  function UpdateEvents(events: seq<AsyncEvent>, lines: seq<string>): seq<TorEvent> {
    TranslateAll(events) + LogEvents(lines)
  }

  /** Every log line comes after every translated event, in the order the daemon wrote them. */
  lemma LogLinesLast(events: seq<AsyncEvent>, lines: seq<string>)
    ensures var r := UpdateEvents(events, lines);
      && (forall i, j | 0 <= i < j < |r| :: r[i].LogReceived? ==> r[j].LogReceived?)
      && |r| >= |lines|
      && forall k | 0 <= k < |lines| :: r[|r| - |lines| + k] == LogReceived(lines[k])
  {
    var t := TranslateAll(events);
    var r := UpdateEvents(events, lines);
    forall i, j | 0 <= i < j < |r| && r[i].LogReceived?
      ensures r[j].LogReceived?
    {
      assert forall k | 0 <= k < |t| :: r[k] == t[k];
      assert r[j] == LogEvents(lines)[j - |t|];
    }
  }

  /** Every BootstrapComplete in r directly follows a BootstrapStatus at 100 percent. */
  predicate CompleteAfterFullProgress(r: seq<TorEvent>) {
    forall i | 0 <= i < |r| && r[i] == BootstrapComplete :: i > 0 && r[i - 1].BootstrapStatus? && r[i - 1].progress == 100
  }

  /** BootstrapComplete is only ever reported right after a BootstrapStatus at 100 percent. */
  lemma {:induction false} CompleteFollowsFullProgress(events: seq<AsyncEvent>)
    ensures CompleteAfterFullProgress(TranslateAll(events))
    decreases |events|
  {
    if events != [] {
      var prefix := TranslateAll(events[..|events| - 1]);
      CompleteFollowsFullProgress(events[..|events| - 1]);
      var last := Translate(events[|events| - 1]);
      assert TranslateAll(events) == prefix + last;
      forall i | 0 <= i < |prefix + last| && (prefix + last)[i] == BootstrapComplete
        ensures i > 0 && (prefix + last)[i - 1].BootstrapStatus? && (prefix + last)[i - 1].progress == 100
      {
        if i >= |prefix| {
          assert last[i - |prefix|] == BootstrapComplete;
          assert i - |prefix| == 1;
          assert (prefix + last)[i - 1] == last[0];
        } else {
          assert (prefix + last)[i] == prefix[i];
          assert (prefix + last)[i - 1] == prefix[i - 1];
        }
      }
    }
  }

  /** Some NOTICE BOOTSTRAP event reports 100 percent exactly when BootstrapComplete is reported. */
  lemma {:induction false} CompleteIffFullProgress(events: seq<AsyncEvent>)
    ensures BootstrapComplete in TranslateAll(events) <==>
              exists k | 0 <= k < |events| :: IsBootstrapNotice(events[k]) && BootstrapFields(events[k].arguments).progress == 100
    decreases |events|
  {
    if events != [] {
      var init := events[..|events| - 1];
      var e := events[|events| - 1];
      CompleteIffFullProgress(init);
      assert TranslateAll(events) == TranslateAll(init) + Translate(e);
      assert BootstrapComplete in Translate(e) <==> IsBootstrapNotice(e) && BootstrapFields(e.arguments).progress == 100;
      if exists k | 0 <= k < |events| :: IsBootstrapNotice(events[k]) && BootstrapFields(events[k].arguments).progress == 100 {
        var k :| 0 <= k < |events| && IsBootstrapNotice(events[k]) && BootstrapFields(events[k].arguments).progress == 100;
        if k < |init| {
          assert init[k] == events[k];
        }
      }
      if exists k | 0 <= k < |init| :: IsBootstrapNotice(init[k]) && BootstrapFields(init[k].arguments).progress == 100 {
        var k :| 0 <= k < |init| && IsBootstrapNotice(init[k]) && BootstrapFields(init[k].arguments).progress == 100;
        assert events[k] == init[k];
      }
    }
  }

  //
  // Onion services, listeners and the SOCKS listener.
  //

  datatype SocketAddr = SocketAddr(ip: seq<byte>, port: Port)

  datatype OnionAddr = OnionAddr(serviceId: ServiceId, virtPort: Port)

  /** The is_active flag a listener shares with the client's entry for its service. */
  class ActiveFlag {
    var active: bool

    constructor (active: bool)
      ensures this.active == active
    {
      this.active := active;
    }
  }

  /** An onion service the client stood up, and its listener's flag. */
  datatype Entry = Entry(serviceId: ServiceId, isActive: ActiveFlag)

  /** TorDaemonOnionListener; accepting connections is I/O and not modelled. */
  class OnionListener {
    const localAddr: SocketAddr
    const isActive: ActiveFlag
    const onionAddr: OnionAddr

    constructor (localAddr: SocketAddr, isActive: ActiveFlag, onionAddr: OnionAddr)
      ensures this.localAddr == localAddr && this.isActive == isActive && this.onionAddr == onionAddr
    {
      this.localAddr := localAddr;
      this.isActive := isActive;
      this.onionAddr := onionAddr;
    }

    /** Drop: the service is no longer wanted, and the next update deletes it. */
    method Drop()
      modifies isActive
      ensures !isActive.active
    {
      isActive.active := false;
    }
  }

  datatype AddOnionFlags = AddOnionFlags(
    discardPk: bool, detach: bool, v3Auth: bool, nonAnonymous: bool, maxStreamsCloseCircuit: bool)

  /** The flags listener passes to ADD_ONION. */
  function ListenerFlags(authorizedClients: Option<seq<X25519PublicKey>>): (f: AddOnionFlags)
    ensures f.discardPk
    ensures f.v3Auth <==> authorizedClients.Some?
    ensures !f.detach && !f.nonAnonymous && !f.maxStreamsCloseCircuit
  {
    AddOnionFlags(true, false, authorizedClients.Some?, false, false)
  }

  /** What listener asks the controller for. */
  datatype AddOnionRequest = AddOnionRequest(
    privateKey: Ed25519PrivateKey, flags: AddOnionFlags, virtPort: Port, target: SocketAddr,
    authorizedClients: Option<seq<X25519PublicKey>>)

  /** How binding the local TCP listener went. */
  datatype BindOutcome = BindFailed | LocalAddrFailed | Bound(addr: SocketAddr)

  /** SOCKS credentials that isolate a circuit. */
  datatype CircuitToken = CircuitToken(username: string, password: string)

  /** What connect asks the SOCKS proxy for. */
  datatype SocksRequest = SocksRequest(proxy: SocketAddr, domain: string, port: Port, credentials: Option<CircuitToken>)

  datatype OnionStream = OnionStream(localAddr: Option<OnionAddr>, peerAddr: Option<OnionAddr>)

  /** The ".onion" domain of a service. */
  function OnionDomain(serviceId: ServiceId): string {
    serviceId + ".onion"
  }

  /** An entry a cleanup keeps is active; one it removes is not. */
  predicate Partitioned(before: seq<Entry>, kept: seq<Entry>, removed: seq<Entry>)
    reads set k | 0 <= k < |kept| :: kept[k].isActive
    reads set k | 0 <= k < |removed| :: removed[k].isActive
  {
    && multiset(kept) + multiset(removed) == multiset(before)
    && (forall k | 0 <= k < |kept| :: kept[k].isActive.active)
    && (forall k | 0 <= k < |removed| :: !removed[k].isActive.active)
  }

  /**
   * A completed cleanup is determined: whatever order swap_remove leaves the list in, the
   * entries kept and the entries removed are the same, as multisets.
   */
  lemma PartitionUnique(before: seq<Entry>, kept1: seq<Entry>, removed1: seq<Entry>, kept2: seq<Entry>,
                        removed2: seq<Entry>)
    requires Partitioned(before, kept1, removed1) && Partitioned(before, kept2, removed2)
    ensures multiset(kept1) == multiset(kept2) && multiset(removed1) == multiset(removed2)
  {
    forall e: Entry
      ensures multiset(kept1)[e] == multiset(kept2)[e] && multiset(removed1)[e] == multiset(removed2)[e]
    {
      assert multiset(kept1)[e] + multiset(removed1)[e] == multiset(before)[e];
      assert multiset(kept2)[e] + multiset(removed2)[e] == multiset(before)[e];
      if e.isActive.active {
        assert e !in removed1 && e !in removed2;
      } else {
        assert e !in kept1 && e !in kept2;
      }
    }
    assert multiset(kept1) == multiset(kept2);
    assert multiset(removed1) == multiset(removed2);
  }

  /** Vec::swap_remove: the last element takes the place of the removed one. */
  function SwapRemove(s: seq<Entry>, i: nat): (r: seq<Entry>)
    requires i < |s|
    ensures |r| == |s| - 1 && r[..i] == s[..i]
    ensures multiset(r) + multiset{s[i]} == multiset(s)
  {
    if i == |s| - 1 then
      assert s == s[..i] + [s[i]];
      s[..i]
    else
      assert s == s[..i] + [s[i]] + s[i + 1..|s| - 1] + [s[|s| - 1]];
      s[..i] + [s[|s| - 1]] + s[i + 1..|s| - 1]
  }

  /** One removal of the cleanup loop keeps the entries accounted for and the checked prefix in place. */
  lemma SwapRemoveStep(s: seq<Entry>, i: nat, removed: seq<Entry>, before: seq<Entry>)
    requires i < |s| && multiset(s) + multiset(removed) == multiset(before)
    ensures multiset(SwapRemove(s, i)) + multiset(removed + [s[i]]) == multiset(before)
    ensures forall k | 0 <= k < i :: SwapRemove(s, i)[k] == s[k]
  {
    var r := SwapRemove(s, i);
    assert multiset(removed + [s[i]]) == multiset(removed) + multiset{s[i]};
    forall k | 0 <= k < i
      ensures r[k] == s[k]
    {
      assert r[..i][k] == s[..i][k];
    }
  }

  /** One removal of the cleanup loop keeps the loop's invariant, up to the outcome of the deletion. */
  lemma CleanupStep(s: seq<Entry>, i: nat, removed: seq<Entry>, before: seq<Entry>, delOnionOk: ServiceId -> bool)
    requires i < |s| && !s[i].isActive.active
    requires multiset(s) + multiset(removed) == multiset(before)
    requires forall k | 0 <= k < |removed| :: !removed[k].isActive.active && delOnionOk(removed[k].serviceId)
    requires forall k | 0 <= k < i :: s[k].isActive.active
    ensures multiset(SwapRemove(s, i)) + multiset(removed + [s[i]]) == multiset(before)
    ensures forall k | 0 <= k < i :: SwapRemove(s, i)[k].isActive.active
    ensures forall k | 0 <= k < |removed + [s[i]]| :: !(removed + [s[i]])[k].isActive.active
    ensures forall k | 0 <= k < |removed + [s[i]]| - 1 :: delOnionOk((removed + [s[i]])[k].serviceId)
  {
    SwapRemoveStep(s, i, removed, before);
    var r := removed + [s[i]];
    forall k | 0 <= k < |r|
      ensures !r[k].isActive.active && (k < |r| - 1 ==> delOnionOk(r[k].serviceId))
    {
      if k < |removed| {
        assert r[k] == removed[k];
      }
    }
  }

  class LegacyTorClient {
    const version: TorVersion
    var socksListener: Option<SocketAddr>
    /** The open onion services and their listeners' flags. */
    var onionServices: seq<Entry>

    constructor (version: TorVersion)
      ensures this.version == version && socksListener.None? && onionServices == []
    {
      this.version := version;
      socksListener := None;
      onionServices := [];
    }

    /**
     * update: first the services whose listener is gone are deleted (del_onion, whose outcome
     * for each service is delOnionOk), then the async events are translated, then the log lines
     * are appended. removed lists the entries deleted, in the order they were.
     */
    method Update(delOnionOk: ServiceId -> bool, asyncEvents: Option<seq<AsyncEvent>>, logLines: seq<string>)
      returns (removed: seq<Entry>, r: Result<seq<TorEvent>, TorError>)
      modifies this
      ensures Partitioned(old(onionServices), onionServices, removed) || r == Err(DelOnionFailed)
      ensures multiset(onionServices) + multiset(removed) == multiset(old(onionServices))
      ensures forall k | 0 <= k < |removed| :: !removed[k].isActive.active
      ensures forall k | 0 <= k < |removed| - 1 :: delOnionOk(removed[k].serviceId)
      ensures r == Err(DelOnionFailed) <==> removed != [] && !delOnionOk(removed[|removed| - 1].serviceId)
      ensures r.Ok? <==> r != Err(DelOnionFailed) && asyncEvents.Some?
      ensures r.Ok? ==> r.value == UpdateEvents(asyncEvents.value, logLines)
      ensures r.Err? && r != Err(DelOnionFailed) ==> r == Err(WaitAsyncEventsFailed)
      ensures socksListener == old(socksListener)
    {
      var cleaned;
      removed, cleaned := RemoveInactive(delOnionOk);
      if cleaned.Err? {
        return removed, Err(cleaned.error);
      }
      if asyncEvents.None? {
        return removed, Err(WaitAsyncEventsFailed);
      }
      var events := TranslateEvents(asyncEvents.value);
      var i := 0;
      while i < |logLines|
        invariant 0 <= i <= |logLines|
        invariant events == TranslateAll(asyncEvents.value) + LogEvents(logLines[..i])
      {
        assert logLines[..i + 1][..i] == logLines[..i];
        events := events + [LogReceived(logLines[i])];
        i := i + 1;
      }
      assert logLines[..i] == logLines;
      return removed, Ok(events);
    }

    /** The cleanup loop at the start of update. */
    method RemoveInactive(delOnionOk: ServiceId -> bool) returns (removed: seq<Entry>, r: Result<(), TorError>)
      modifies this`onionServices
      ensures multiset(onionServices) + multiset(removed) == multiset(old(onionServices))
      ensures forall k | 0 <= k < |removed| :: !removed[k].isActive.active
      ensures r.Ok? ==> forall k | 0 <= k < |onionServices| :: onionServices[k].isActive.active
      ensures forall k | 0 <= k < |removed| - 1 :: delOnionOk(removed[k].serviceId)
      ensures r.Err? <==> removed != [] && !delOnionOk(removed[|removed| - 1].serviceId)
      ensures r.Err? ==> r.error == DelOnionFailed
    {
      removed := [];
      var services := onionServices;
      var i := 0;
      while i < |services|
        invariant 0 <= i <= |services|
        invariant multiset(services) + multiset(removed) == multiset(old(onionServices))
        invariant forall k | 0 <= k < |removed| :: !removed[k].isActive.active && delOnionOk(removed[k].serviceId)
        invariant forall k | 0 <= k < i :: services[k].isActive.active
        decreases |services| - i
      {
        if services[i].isActive.active {
          i := i + 1;
        } else {
          var entry := services[i];
          CleanupStep(services, i, removed, old(onionServices), delOnionOk);
          services := SwapRemove(services, i);
          removed := removed + [entry];
          if !delOnionOk(entry.serviceId) {
            onionServices := services;
            return removed, Err(DelOnionFailed);
          }
        }
      }
      onionServices := services;
      return removed, Ok(());
    }

    /** The loop over the async events. */
    method TranslateEvents(asyncEvents: seq<AsyncEvent>) returns (events: seq<TorEvent>)
      ensures events == TranslateAll(asyncEvents)
    {
      events := [];
      for i := 0 to |asyncEvents|
        invariant events == TranslateAll(asyncEvents[..i])
      {
        assert asyncEvents[..i + 1][..i] == asyncEvents[..i];
        match asyncEvents[i] {
          case StatusClient(severity, action, arguments) =>
            if severity == "NOTICE" && action == "BOOTSTRAP" {
              var progress, tag, summary := ParseBootstrapArguments(arguments);
              events := events + [BootstrapStatus(progress, tag, summary)];
              if progress == 100 {
                events := events + [BootstrapComplete];
              }
            }
          case HsDesc(action, hsAddress) =>
            if action == "UPLOADED" {
              events := events + [OnionServicePublished(hsAddress)];
            }
          case Unknown(_) =>
        }
      }
      assert asyncEvents[..|asyncEvents|] == asyncEvents;
    }

    /** The loop over a BOOTSTRAP event's keyword arguments. */
    method ParseBootstrapArguments(arguments: seq<(string, string)>) returns (progress: nat, tag: string, summary: string)
      ensures Bootstrap(progress, tag, summary) == BootstrapFields(arguments)
    {
      progress, tag, summary := 0, "", "";
      for i := 0 to |arguments|
        invariant Bootstrap(progress, tag, summary) == BootstrapFields(arguments[..i])
      {
        assert arguments[..i + 1][..i] == arguments[..i];
        var (key, value) := arguments[i];
        if key == "PROGRESS" {
          progress := ParseOrZero(value);
        } else if key == "TAG" {
          tag := value;
        } else if key == "SUMMARY" {
          summary := value;
        }
      }
      assert arguments[..|arguments|] == arguments;
    }

    /**
     * connect: the first SOCKS listener tor reports (listeners, None when GETINFO fails) is cached
     * on first use; socksConnect is the proxy's answer.
     */
    method Connect(serviceId: ServiceId, virtPort: Port, circuit: Option<CircuitToken>,
                   listeners: Option<seq<SocketAddr>>, socksConnect: SocksRequest -> bool)
      returns (r: Result<OnionStream, TorError>)
      modifies this`socksListener
      ensures old(socksListener).Some? ==> socksListener == old(socksListener)
      ensures old(socksListener).None? && listeners.None? ==>
                socksListener.None? && r == Err(GetInfoNetListenersSocksFailed)
      ensures old(socksListener).None? && listeners == Some([]) ==>
                socksListener.None? && r == Err(NoSocksListenersFound)
      ensures old(socksListener).None? && listeners.Some? && listeners.value != [] ==>
                socksListener == Some(listeners.value[0])
      ensures socksListener.Some? ==>
                var request := SocksRequest(socksListener.value, OnionDomain(serviceId), virtPort, circuit);
                (r.Ok? <==> socksConnect(request))
                && (r.Ok? ==> r.value == OnionStream(None, Some(OnionAddr(serviceId, virtPort))))
                && (r.Err? ==> r.error == Socks5ConnectionFailed)
    {
      if socksListener.None? {
        if listeners.None? {
          return Err(GetInfoNetListenersSocksFailed);
        }
        if listeners.value == [] {
          return Err(NoSocksListenersFound);
        }
        socksListener := Some(listeners.value[0]);
      }
      var request := SocksRequest(socksListener.value, OnionDomain(serviceId), virtPort, circuit);
      if !socksConnect(request) {
        return Err(Socks5ConnectionFailed);
      }
      return Ok(OnionStream(None, Some(OnionAddr(serviceId, virtPort))));
    }

    /**
     * listener: binds a local port, asks tor for the onion service (addOnion answers with the
     * service id, None on failure) and registers it with a fresh active flag the listener shares.
     */
    method Listener(crypto: Crypto, privateKey: Ed25519PrivateKey, virtPort: Port,
                    authorizedClients: Option<seq<X25519PublicKey>>, bound: BindOutcome,
                    addOnion: AddOnionRequest -> Option<ServiceId>)
      returns (r: Result<OnionListener, TorError>)
      modifies this`onionServices
      ensures bound.BindFailed? ==> r == Err(TcpListenerBindFailed)
      ensures bound.LocalAddrFailed? ==> r == Err(TcpListenerLocalAddrFailed)
      ensures bound.Bound? ==>
                var request := AddOnionRequest(privateKey, ListenerFlags(authorizedClients), virtPort, bound.addr,
                                               authorizedClients);
                (r.Ok? <==> addOnion(request).Some?) && (r.Err? ==> r.error == AddOnionFailed)
                && (r.Ok? ==>
                      && fresh(r.value) && fresh(r.value.isActive) && r.value.isActive.active
                      && r.value.localAddr == bound.addr
                      && r.value.onionAddr == OnionAddr(crypto.serviceIdOfPrivateKey(privateKey), virtPort)
                      && onionServices == old(onionServices) + [Entry(addOnion(request).value, r.value.isActive)])
      ensures r.Err? ==> onionServices == old(onionServices)
    {
      if bound.BindFailed? {
        return Err(TcpListenerBindFailed);
      }
      if bound.LocalAddrFailed? {
        return Err(TcpListenerLocalAddrFailed);
      }
      var flags := ListenerFlags(authorizedClients);
      var onionAddr := OnionAddr(crypto.serviceIdOfPrivateKey(privateKey), virtPort);
      var serviceId := addOnion(AddOnionRequest(privateKey, flags, virtPort, bound.addr, authorizedClients));
      if serviceId.None? {
        return Err(AddOnionFailed);
      }
      var isActive := new ActiveFlag(true);
      onionServices := onionServices + [Entry(serviceId.value, isActive)];
      var listener := new OnionListener(bound.addr, isActive, onionAddr);
      return Ok(listener);
    }
  }

  /**
   * LegacyTorClient::new once the daemon is launched and authenticated (launched holds the
   * version it reports, or the failure on the way): the version gate, then SETEVENTS.
   */
  method NewClient(launched: Result<TorVersion, TorError>, setEventsOk: bool) returns (r: Result<LegacyTorClient, TorError>)
    ensures r.Ok? <==> launched.Ok? && !VersionLess(launched.value, MinRequiredVersion) && setEventsOk
    ensures launched.Err? ==> r == Err(launched.error)
    ensures launched.Ok? && VersionLess(launched.value, MinRequiredVersion) ==>
              r == Err(TorProcessTooOld(launched.value, MinRequiredVersion))
    ensures launched.Ok? && !VersionLess(launched.value, MinRequiredVersion) && !setEventsOk ==>
              r == Err(SetEventsFailed)
    ensures r.Ok? ==> fresh(r.value) && r.value.version == launched.value && r.value.socksListener.None?
                      && r.value.onionServices == []
  {
    if launched.Err? {
      return Err(launched.error);
    }
    var gate := VersionGate(launched.value);
    if gate.Err? {
      return Err(gate.error);
    }
    if !setEventsOk {
      return Err(SetEventsFailed);
    }
    var client := new LegacyTorClient(launched.value);
    return Ok(client);
  }

  /**
   * Dropping a listener and then updating deletes its service: the entry that shares the
   * listener's flag is among the ones removed, never among the ones kept.
   */
  lemma DroppedServiceRemoved(before: seq<Entry>, kept: seq<Entry>, removed: seq<Entry>, e: Entry)
    requires Partitioned(before, kept, removed)
    requires e in before && !e.isActive.active
    ensures e !in kept && e in removed
  {
    assert e !in kept;
    assert multiset(before)[e] > 0 && multiset(kept)[e] == 0;
  }
}
