/** The connection-admission state machine of one network connection, as values:
    each handler entry point (a CONNECT arriving, an authentication verdict, a will
    authorizer's answer, a taken-over connection finishing its teardown) is a function
    from the connection's state before to its state after. */
module Admission {
  import opened Options
  import opened Mqtt
  import opened Negotiation
  import opened Validation
  import opened Permissions
  import opened WillAuthorization

  /** Where the connection stands in admission. */
  datatype Phase =
    | AwaitingConnect
      /** Waiting for the teardown of a connection that is already being taken over. */
    | AwaitingTakeover
    | Authenticating
    | AwaitingWillAuthorization
    | Active
    | Closed

  /** The stage of the connection's pipeline that receives CONNECT packets: the connect
      handler before the first CONNECT, the second-connect guard afterwards. */
  datatype ConnectStage = ConnectHandlerStage | DisallowSecondConnectStage

  /** Overload protection applied to the client. */
  datatype ThrottlingLevel = DefaultThrottling | NoThrottling

  /** Client settings an authenticator may override. */
  datatype ClientSettings = ClientSettings(receiveMaximum: uint16, throttling: ThrottlingLevel)

  /** The per-connection attributes admission reads and writes. */
  datatype ConnState = ConnState(
    open: bool,
    phase: Phase,
    stage: ConnectStage,
    /** Whether the "auth in progress" stage that intercepts AUTH packets is installed. */
    authInProgress: bool,
    clientId: Option<string>,
    clientIdAssigned: bool,
    /** The validated CONNECT that admission continues with once a takeover completes. */
    validConnect: Option<Connect>,
    keepAlive: Option<uint16>,
    sessionExpiry: Option<uint32>,
    maxPacketSizeSend: Option<uint32>,
    clientReceiveMaximum: Option<uint16>,
    /** Number of slots of the topic-alias mapping; absent when aliasing is off. */
    topicAliasSlots: Option<nat>,
    throttling: Option<ThrottlingLevel>,
    /** User properties of an authentication exchange, waiting for the CONNACK. */
    authUserProperties: Option<seq<UserProperty>>,
    authenticated: Option<bool>,
    permissions: Option<DefaultPermissions>,
    takenOver: bool,
    disconnectSignalled: bool,
    /** Authenticator tasks submitted for this connection, by provider id. */
    authTasks: seq<string>,
    /** Every CONNACK sent on the connection, in order. */
    connacks: seq<Connack>,
    /** Server-initiated disconnect notifications emitted to observers. */
    serverDisconnectEvents: nat)

  /** What the handler is configured with: the server configuration, the registered
      authenticator providers by id, and whether a will authorizer is registered. */
  datatype Environment = Environment(
    config: ServerConfig,
    authenticatorProviders: seq<string>,
    willAuthorizerRegistered: bool)

  /** The invariant every reachable state keeps: a connection is open exactly while it is
      not closed; an active connection has sent a success CONNACK last and holds no
      pending authentication user properties; a negative CONNACK is never followed by an
      open connection; observers hear of a server-side close at most once, and only of a
      closed connection; a taken-over connection is closed. */
  ghost predicate Consistent(s: ConnState) {
    && (s.open <==> s.phase != Closed)
    && (s.phase == Active ==>
          |s.connacks| > 0 && s.connacks[|s.connacks| - 1].code.IsSuccess() && s.authUserProperties.None?)
    && (forall i :: 0 <= i < |s.connacks| && !s.connacks[i].code.IsSuccess() ==> !s.open)
    && s.serverDisconnectEvents <= 1
    && (s.serverDisconnectEvents == 1 ==> !s.open)
    && (s.takenOver ==> !s.open)
  }

  /** A connection as it is opened, with the attributes earlier pipeline stages may have
      set (a server-assigned identifier, enhanced-authentication user properties,
      permissions). */
  function Initial(
    clientIdAssigned: bool, authUserProperties: Option<seq<UserProperty>>,
    permissions: Option<DefaultPermissions>): (s: ConnState)
    ensures Consistent(s)
    ensures s.open && s.phase == AwaitingConnect && s.stage == ConnectHandlerStage
    ensures s.connacks == [] && s.serverDisconnectEvents == 0 && s.authTasks == []
  {
    ConnState(
      true, AwaitingConnect, ConnectHandlerStage, false,
      None, clientIdAssigned, None, None, None, None, None, None, None,
      authUserProperties, None, permissions, false, false, [], [], 0)
  }

  /** Ends admission unsuccessfully: sends the optional negative CONNACK, closes the
      connection and notifies observers once of the server-side close. */
  function Refuse(s: ConnState, connack: Option<Connack>): (r: ConnState)
    requires s.open
    ensures !r.open && r.phase == Closed
    ensures r.connacks == s.connacks + connack.ToSeq()
    ensures r.serverDisconnectEvents == s.serverDisconnectEvents + 1
    ensures r.stage == s.stage && r.authTasks == s.authTasks && r.takenOver == s.takenOver
  {
    s.(open := false, phase := Closed, authInProgress := false,
       connacks := s.connacks + connack.ToSeq(),
       serverDisconnectEvents := s.serverDisconnectEvents + 1)
  }

  /** Ends admission successfully: sends the success CONNACK with the pending
      authentication user properties, then clears them from the connection. */
  function Admit(s: ConnState, version: ProtocolVersion, connect: Connect, config: ServerConfig): (r: ConnState)
    requires s.open
    ensures r.open && r.phase == Active
    ensures r.connacks == s.connacks + [SuccessConnack(version, connect, config, s.clientIdAssigned, s.authUserProperties)]
    ensures r.authUserProperties.None?
    ensures r.serverDisconnectEvents == s.serverDisconnectEvents
    ensures r.stage == s.stage && r.authTasks == s.authTasks && r.takenOver == s.takenOver
  {
    s.(phase := Active,
       connacks := s.connacks + [SuccessConnack(version, connect, config, s.clientIdAssigned, s.authUserProperties)],
       authUserProperties := None)
  }

  /** Acts on a will verdict: a granted will admits the client, a refused one closes the
      connection with a CONNACK carrying the refusal reason. */
  function Conclude(s: ConnState, version: ProtocolVersion, connect: Connect, config: ServerConfig, v: Verdict): (r: ConnState)
    requires s.open
    ensures r.open <==> v.Granted?
    ensures |r.connacks| == |s.connacks| + 1 && r.connacks[..|s.connacks|] == s.connacks
    ensures v.Refused? ==> r.connacks[|s.connacks|] == RefusalConnack(version, v.reason)
    ensures v.Granted? ==> r.phase == Active && r.connacks[|s.connacks|].code.IsSuccess()
  {
    match v
    case Granted => Admit(s, version, connect, config)
    case Refused(reason) => Refuse(s, Some(RefusalConnack(version, reason)))
  }

  /** Will authorization: a CONNECT without will is admitted; with a will authorizer
      registered the connection waits for its answer; otherwise the connection's
      permissions decide. */
  function AuthorizeWill(s: ConnState, version: ProtocolVersion, env: Environment, connect: Connect): (r: ConnState)
    requires s.open
    ensures connect.will.None? ==> r.open && r.phase == Active && |r.connacks| == |s.connacks| + 1
    ensures connect.will.Some? && env.willAuthorizerRegistered ==>
      r.open && r.phase == AwaitingWillAuthorization && r.connacks == s.connacks
    ensures connect.will.Some? && !env.willAuthorizerRegistered ==>
      (r.open <==> StaticVerdict(s.permissions, connect.will.value.topic).Granted?)
    ensures r.stage == s.stage && r.validConnect == s.validConnect
  {
    if connect.will.None? then
      Admit(s, version, connect, env.config)
    else if env.willAuthorizerRegistered then
      s.(phase := AwaitingWillAuthorization)
    else
      Conclude(s, version, connect, env.config, StaticVerdict(s.permissions, connect.will.value.topic))
  }

  /** Writes the negotiated parameters to the connection. Keep-alive is negotiated and
      the maximum packet size, receive maximum and topic-alias mapping exist only for
      MQTT 5; an MQTT 3.1.1 connection keeps the client's keep-alive (that version has no
      server keep-alive to announce a replacement) and has none of the others. The
      session expiry is capped for both versions. */
  function Negotiate(s: ConnState, version: ProtocolVersion, connect: Connect, config: ServerConfig): (r: ConnState)
    ensures version == Mqtt5 ==>
      r.keepAlive == Some(NegotiateKeepAlive(connect.keepAlive, config.keepAliveMax, config.keepAliveAllowZero).keepAlive)
    ensures version == Mqtt3 ==> r.keepAlive == Some(connect.keepAlive)
    ensures r.sessionExpiry == Some(NegotiateSessionExpiry(connect.sessionExpiry, config.maxSessionExpiryInterval).sessionExpiry)
    ensures r.maxPacketSizeSend == (if version == Mqtt5 then Some(connect.maximumPacketSize) else None)
    ensures r.clientReceiveMaximum == (if version == Mqtt5 then Some(connect.receiveMaximum) else None)
    ensures r.topicAliasSlots.Some? <==> version == Mqtt5 && config.topicAliasEnabled
    ensures r.topicAliasSlots.Some? ==> r.topicAliasSlots.value == config.topicAliasMaxPerClient
    ensures r == s.(keepAlive := r.keepAlive, sessionExpiry := r.sessionExpiry,
                    maxPacketSizeSend := r.maxPacketSizeSend, clientReceiveMaximum := r.clientReceiveMaximum,
                    topicAliasSlots := r.topicAliasSlots)
  {
    match version
    case Mqtt3 =>
      s.(keepAlive := Some(connect.keepAlive),
         sessionExpiry := Some(NegotiateSessionExpiry(connect.sessionExpiry, config.maxSessionExpiryInterval).sessionExpiry),
         maxPacketSizeSend := None, clientReceiveMaximum := None, topicAliasSlots := None)
    case Mqtt5 =>
      s.(keepAlive := Some(NegotiateKeepAlive(connect.keepAlive, config.keepAliveMax, config.keepAliveAllowZero).keepAlive),
         sessionExpiry := Some(NegotiateSessionExpiry(connect.sessionExpiry, config.maxSessionExpiryInterval).sessionExpiry),
         maxPacketSizeSend := Some(connect.maximumPacketSize),
         clientReceiveMaximum := Some(connect.receiveMaximum),
         topicAliasSlots := if config.topicAliasEnabled then Some(config.topicAliasMaxPerClient as nat) else None)
  }

  /** Authentication: without authenticators the client is admitted unauthenticated (with
      a fresh permission set unless one is present) and its will is authorized at once;
      otherwise one task per authenticator is submitted and the connection waits, with
      the "auth in progress" stage installed for enhanced authentication. */
  function Authenticate(s: ConnState, version: ProtocolVersion, env: Environment, connect: Connect): (r: ConnState)
    requires s.open
    ensures |env.authenticatorProviders| == 0 ==>
      r.authenticated == Some(false) && r.permissions.Some? && r.authTasks == s.authTasks
    ensures |env.authenticatorProviders| > 0 ==>
      && r.open && r.phase == Authenticating && r.connacks == s.connacks
      && r.authTasks == s.authTasks + env.authenticatorProviders
      && r.authInProgress == connect.authMethod.Some?
  {
    if |env.authenticatorProviders| == 0 then
      AuthorizeWill(s.(authenticated := Some(false), permissions := Some(s.permissions.GetOr(EmptyPermissions))),
                    version, env, connect)
    else
      s.(phase := Authenticating, authInProgress := connect.authMethod.Some?,
         authTasks := s.authTasks + env.authenticatorProviders)
  }

  /** Admission after takeover: negotiation, then authentication. */
  function Proceed(s: ConnState, version: ProtocolVersion, env: Environment, connect: Connect): (r: ConnState)
    requires s.open
  {
    Authenticate(Negotiate(s, version, connect, env.config), version, env, connect)
  }

  /** The first CONNECT: the second-connect guard replaces the connect handler, the
      CONNECT is validated, and a valid one takes over the identifier's previous
      connection (`previousTakenOver`: absent when there is none, else whether it was
      already being taken over) before admission proceeds. */
  function HandleConnect(
    s: ConnState, version: ProtocolVersion, env: Environment, connect: Connect,
    previousTakenOver: Option<bool>): (r: ConnState)
    requires s.open
    ensures r.stage == DisallowSecondConnectStage
  {
    var guarded := s.(stage := DisallowSecondConnectStage);
    match Validate(version, connect, env.config)
    case Some(failure) => Refuse(guarded, RefusalFor(version, failure))
    case None =>
      var identified := guarded.(clientId := Some(connect.clientId), validConnect := Some(connect));
      if previousTakenOver == Some(true) then
        identified.(phase := AwaitingTakeover)
      else
        Proceed(identified, version, env, connect)
  }

  /** Whether a CONNECT takes over its identifier's previous connection at once: it is
      the first CONNECT, it is valid, and the previous connection is not already being
      taken over. */
  predicate TakesOverPrevious(
    s: ConnState, version: ProtocolVersion, config: ServerConfig, connect: Connect,
    previousTakenOver: Option<bool>)
  {
    s.open && s.stage == ConnectHandlerStage && Validate(version, connect, config).None?
    && previousTakenOver == Some(false)
  }

  /** A CONNECT on the connection: ignored once closed, a protocol violation that closes
      the connection (without CONNACK) once the first CONNECT was seen. */
  function OnConnect(
    s: ConnState, version: ProtocolVersion, env: Environment, connect: Connect,
    previousTakenOver: Option<bool>): (r: ConnState)
    ensures !s.open ==> r == s
    ensures s.open && s.stage == DisallowSecondConnectStage ==> r == Refuse(s, None)
    ensures s.open ==> r.stage == DisallowSecondConnectStage
  {
    if !s.open then s
    else if s.stage == DisallowSecondConnectStage then Refuse(s, None)
    else HandleConnect(s, version, env, connect, previousTakenOver)
  }

  /** The teardown signal of the connection being taken over: a connection waiting for
      it resumes admission with the CONNECT it validated; anything else ignores it. */
  function OnPreviousDisconnected(s: ConnState, version: ProtocolVersion, env: Environment): (r: ConnState)
    ensures !(s.open && s.phase == AwaitingTakeover) ==> r == s
    ensures r.validConnect == s.validConnect
  {
    if s.open && s.phase == AwaitingTakeover && s.validConnect.Some? then
      Proceed(s, version, env, s.validConnect.value)
    else s
  }

  /** Applies client-setting overrides an authenticator returned to the connection. */
  function ApplySettings(s: ConnState, settings: Option<ClientSettings>): ConnState
  {
    match settings
    case None => s
    case Some(cs) => s.(clientReceiveMaximum := Some(cs.receiveMaximum), throttling := Some(cs.throttling))
  }

  /** The CONNECT as admission continues with it after authentication: its receive maximum
      replaced by an overriding client setting. */
  function WithSettings(connect: Connect, settings: Option<ClientSettings>): Connect
  {
    match settings
    case None => connect
    case Some(cs) => connect.(receiveMaximum := cs.receiveMaximum)
  }

  /** Successful authentication: unless the connection closed meanwhile, the "auth in
      progress" stage is removed, the connection is authenticated, the client settings
      are applied, and the will is authorized. */
  function OnAuthenticated(
    s: ConnState, version: ProtocolVersion, env: Environment, connect: Connect,
    settings: Option<ClientSettings>): (r: ConnState)
    ensures !s.open ==> r == s
    ensures s.open ==> !r.authInProgress && r.authenticated == Some(true)
    ensures s.open && settings.Some? ==>
      && r.clientReceiveMaximum == Some(settings.value.receiveMaximum)
      && r.throttling == Some(settings.value.throttling)
  {
    if !s.open then s
    else AuthorizeWill(
      ApplySettings(s.(authInProgress := false, authenticated := Some(true)), settings),
      version, env, WithSettings(connect, settings))
  }

  /** Failed authentication: unless already closed, the connection is refused with the
      authenticators' reason. */
  function OnAuthenticationFailed(s: ConnState, version: ProtocolVersion, reason: RefusalReason): (r: ConnState)
    ensures !s.open ==> r == s
    ensures s.open ==> !r.open && r.connacks == s.connacks + [RefusalConnack(version, reason)]
  {
    if !s.open then s else Refuse(s, Some(RefusalConnack(version, reason)))
  }

  /** The will authorizer's answer for a CONNECT with a will: unless the connection closed
      meanwhile, it decides admission together with the connection's permissions. */
  function OnWillAuthorizerResult(
    s: ConnState, version: ProtocolVersion, env: Environment, connect: Connect,
    result: AuthorizerResult): (r: ConnState)
    requires connect.will.Some?
    ensures !s.open ==> r == s
    ensures s.open ==> (r.open <==> AuthorizerVerdict(result, s.permissions, connect.will.value.topic).Granted?)
  {
    if !s.open then s
    else Conclude(s, version, connect, env.config, AuthorizerVerdict(result, s.permissions, connect.will.value.topic))
  }

  /** The previous connection of a client identifier, taken over: marked and closed. */
  function MarkTakenOver(p: ConnState): (r: ConnState)
    ensures r.takenOver && !r.open && r.phase == Closed
    ensures r.connacks == p.connacks && r.serverDisconnectEvents == p.serverDisconnectEvents
  {
    p.(takenOver := true, open := false, phase := Closed)
  }

  /** The previous connection's teardown completing (its disconnect future). */
  function SignalDisconnect(p: ConnState): ConnState
  {
    p.(disconnectSignalled := true)
  }

  /** Everything that can happen to a connection during admission. */
  datatype Event =
    | ConnectReceived(connect: Connect, previousTakenOver: Option<bool>)
    | PreviousDisconnected
    | Authenticated(connect: Connect, settings: Option<ClientSettings>)
    | AuthenticationFailed(reason: RefusalReason)
    | WillAuthorizerAnswered(connect: Connect, result: AuthorizerResult)

  /** One event applied to the connection (a will authorizer only ever answers for a
      CONNECT that has a will; any other answer is ignored). */
  function Next(s: ConnState, version: ProtocolVersion, env: Environment, e: Event): ConnState {
    match e
    case ConnectReceived(c, p) => OnConnect(s, version, env, c, p)
    case PreviousDisconnected => OnPreviousDisconnected(s, version, env)
    case Authenticated(c, settings) => OnAuthenticated(s, version, env, c, settings)
    case AuthenticationFailed(reason) => OnAuthenticationFailed(s, version, reason)
    case WillAuthorizerAnswered(c, result) =>
      if c.will.Some? then OnWillAuthorizerResult(s, version, env, c, result) else s
  }

  /** Applies events in order. */
  function Run(s: ConnState, version: ProtocolVersion, env: Environment, events: seq<Event>): ConnState
    decreases |events|
  {
    if |events| == 0 then s else Run(Next(s, version, env, events[0]), version, env, events[1..])
  }
}
