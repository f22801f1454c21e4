/** Parameter negotiation: the values a CONNECT requests, resolved against the
    server configuration, and the success CONNACK that reports them back. */
module Negotiation {
  import opened Options
  import opened Mqtt

  /** The server configuration admission consults. */
  datatype ServerConfig = ServerConfig(
    keepAliveMax: uint16,
    keepAliveAllowZero: bool,
    maxSessionExpiryInterval: uint32,
    topicAliasEnabled: bool,
    topicAliasMaxPerClient: uint16,
    maxClientIdLength: nat,
    maximumQos: QoS,
    retainedMessagesEnabled: bool)

  /** The keep-alive the connection uses, and the server keep-alive the CONNACK
      carries (absent: the "keep alive not set" sentinel). */
  datatype KeepAliveOutcome = KeepAliveOutcome(keepAlive: uint16, serverKeepAlive: Option<uint16>)

  /** Keep-alive negotiation (MQTT 5.0 sections 3.1.2.10 and 3.2.2.3.14): a request of 0
      that the server does not allow, or a request above the server maximum, is replaced
      by the maximum, and only a replaced value is sent back. */
  function NegotiateKeepAlive(requested: uint16, keepAliveMax: uint16, allowZero: bool): (r: KeepAliveOutcome)
    ensures r.keepAlive <= keepAliveMax
    ensures r.serverKeepAlive.Some? <==> requested > keepAliveMax || (requested == 0 && !allowZero)
    ensures r.serverKeepAlive.None? ==> r.keepAlive == requested
    ensures r.serverKeepAlive.Some? ==> r.serverKeepAlive.value == r.keepAlive == keepAliveMax
    ensures r.keepAlive == 0 ==> allowZero || keepAliveMax == 0
  {
    if requested == 0 && !allowZero then
      KeepAliveOutcome(keepAliveMax, Some(keepAliveMax))
    else if requested > keepAliveMax then
      KeepAliveOutcome(keepAliveMax, Some(keepAliveMax))
    else
      KeepAliveOutcome(requested, None)
  }

  /** With a positive maximum, the CONNACK carries a server keep-alive exactly when the
      negotiated value differs from the client's request. */
  lemma KeepAliveEchoedIffChanged(requested: uint16, keepAliveMax: uint16, allowZero: bool)
    requires keepAliveMax > 0
    ensures var r := NegotiateKeepAlive(requested, keepAliveMax, allowZero);
      r.serverKeepAlive.Some? <==> r.keepAlive != requested
  {
  }

  /** A client that reconnects with the value it was given is admitted with that value
      and without an override. */
  lemma KeepAliveIdempotent(requested: uint16, keepAliveMax: uint16, allowZero: bool)
    requires keepAliveMax > 0
    ensures var r := NegotiateKeepAlive(requested, keepAliveMax, allowZero);
      NegotiateKeepAlive(r.keepAlive, keepAliveMax, allowZero) == KeepAliveOutcome(r.keepAlive, None)
  {
  }

  /** The session expiry the connection uses, and the value the CONNACK carries
      (absent: the client's request stands). */
  datatype SessionExpiryOutcome = SessionExpiryOutcome(sessionExpiry: uint32, connackSessionExpiry: Option<uint32>)

  /** Session-expiry capping (MQTT 5.0 sections 3.1.2.11.2 and 3.2.2.3.2): the resolved
      interval is the smaller of request and server maximum, and the CONNACK reports it
      only when it is not what the client asked for. */
  function NegotiateSessionExpiry(requested: uint32, serverMax: uint32): (r: SessionExpiryOutcome)
    ensures r.sessionExpiry <= requested && r.sessionExpiry <= serverMax
    ensures r.sessionExpiry == requested || r.sessionExpiry == serverMax
    ensures r.connackSessionExpiry.Some? <==> r.sessionExpiry != requested
    ensures r.connackSessionExpiry.Some? ==> r.connackSessionExpiry.value == r.sessionExpiry
  {
    if requested > serverMax then
      SessionExpiryOutcome(serverMax, Some(serverMax))
    else
      SessionExpiryOutcome(requested, None)
  }

  /** Requesting the resolved interval again resolves to the same interval, unreported. */
  lemma SessionExpiryIdempotent(requested: uint32, serverMax: uint32)
    ensures var r := NegotiateSessionExpiry(requested, serverMax);
      NegotiateSessionExpiry(r.sessionExpiry, serverMax) == SessionExpiryOutcome(r.sessionExpiry, None)
  {
  }

  /** The CONNACK that admits a client. For MQTT 5 it echoes the identifier only when the
      server assigned it, reports keep-alive and session expiry only when negotiation
      changed them, and carries the user properties of a preceding authentication exchange
      (never the CONNECT's own user properties). */
  function SuccessConnack(
    version: ProtocolVersion, connect: Connect, config: ServerConfig,
    clientIdAssigned: bool, authUserProperties: Option<seq<UserProperty>>): (c: Connack)
    ensures c.code.IsSuccess()
    ensures version == Mqtt3 ==> c == Connack(Mqtt3Code(Accepted), None, None, None, [])
    ensures version == Mqtt5 ==>
      && c.code == Mqtt5Code(Success)
      && (c.assignedClientId.Some? <==> clientIdAssigned)
      && (c.assignedClientId.Some? ==> c.assignedClientId.value == connect.clientId)
      && (c.serverKeepAlive.Some? <==>
            connect.keepAlive > config.keepAliveMax || (connect.keepAlive == 0 && !config.keepAliveAllowZero))
      && (c.serverKeepAlive.Some? ==> c.serverKeepAlive.value == config.keepAliveMax)
      && (c.sessionExpiry.Some? <==> connect.sessionExpiry > config.maxSessionExpiryInterval)
      && (c.sessionExpiry.Some? ==> c.sessionExpiry.value == config.maxSessionExpiryInterval)
      && (authUserProperties.Some? ==> c.userProperties == authUserProperties.value)
      && (authUserProperties.None? ==> c.userProperties == [])
  {
    match version
    case Mqtt3 => Connack(Mqtt3Code(Accepted), None, None, None, [])
    case Mqtt5 =>
      Connack(
        Mqtt5Code(Success),
        NegotiateSessionExpiry(connect.sessionExpiry, config.maxSessionExpiryInterval).connackSessionExpiry,
        NegotiateKeepAlive(connect.keepAlive, config.keepAliveMax, config.keepAliveAllowZero).serverKeepAlive,
        if clientIdAssigned then Some(connect.clientId) else None,
        authUserProperties.GetOr([]))
  }
}
