/** The connection's attributes as a mutable object, and the connect handler that
    updates them step by step. Every handler method is proved to leave the connection in
    exactly the state the admission state machine prescribes. */
module Connection {
  import opened Options
  import opened Mqtt
  import opened Negotiation
  import opened Validation
  import opened Permissions
  import opened WillAuthorization
  import opened Admission
  import AdmissionProperties

  /** The attributes of one network connection. */
  class ConnectionContext {
    const version: ProtocolVersion
    var open: bool
    var phase: Phase
    var stage: ConnectStage
    var authInProgress: bool
    var clientId: Option<string>
    var clientIdAssigned: bool
    /** The validated CONNECT, held for the continuation that resumes after a takeover. */
    var validConnect: Option<Connect>
    var keepAlive: Option<uint16>
    var sessionExpiry: Option<uint32>
    var maxPacketSizeSend: Option<uint32>
    var clientReceiveMaximum: Option<uint16>
    /** Topic-alias slots, `null` when aliasing is off for this connection. */
    var topicAliasMapping: array?<Option<string>>
    var throttling: Option<ThrottlingLevel>
    var authUserProperties: Option<seq<UserProperty>>
    var authenticated: Option<bool>
    var permissions: Option<DefaultPermissions>
    var takenOver: bool
    var disconnectSignalled: bool
    var authTasks: seq<string>
    var connacks: seq<Connack>
    var serverDisconnectEvents: nat

    /** The attributes as a value. */
    function State(): ConnState
      reads this
    {
      ConnState(
        open, phase, stage, authInProgress, clientId, clientIdAssigned, validConnect,
        keepAlive, sessionExpiry, maxPacketSizeSend, clientReceiveMaximum,
        if topicAliasMapping == null then None else Some(topicAliasMapping.Length),
        throttling, authUserProperties, authenticated, permissions,
        takenOver, disconnectSignalled, authTasks, connacks, serverDisconnectEvents)
    }

    ghost predicate Valid()
      reads this
    {
      Consistent(State())
    }

    /** A connection as it is opened, with the attributes earlier stages may have set. */
    constructor(
      version: ProtocolVersion, clientIdAssigned: bool,
      authUserProperties: Option<seq<UserProperty>>, permissions: Option<DefaultPermissions>)
      ensures this.version == version
      ensures State() == Initial(clientIdAssigned, authUserProperties, permissions)
      ensures Valid()
    {
      this.version := version;
      open := true;
      phase := AwaitingConnect;
      stage := ConnectHandlerStage;
      authInProgress := false;
      clientId := None;
      this.clientIdAssigned := clientIdAssigned;
      validConnect := None;
      keepAlive := None;
      sessionExpiry := None;
      maxPacketSizeSend := None;
      clientReceiveMaximum := None;
      topicAliasMapping := null;
      throttling := None;
      this.authUserProperties := authUserProperties;
      authenticated := None;
      this.permissions := permissions;
      takenOver := false;
      disconnectSignalled := false;
      authTasks := [];
      connacks := [];
      serverDisconnectEvents := 0;
    }

    /** Marks this connection as taken over by a newer one and closes it. */
    method MarkTakenOver()
      modifies this
      ensures State() == Admission.MarkTakenOver(old(State()))
      ensures old(Valid()) ==> Valid()
    {
      ghost var before := State();
      takenOver := true;
      open := false;
      phase := Closed;
      if Consistent(before) {
        AdmissionProperties.MarkTakenOverKeepsConsistent(before);
      }
    }

    /** Completes this connection's disconnect future. */
    method SignalDisconnect()
      modifies this
      ensures State() == Admission.SignalDisconnect(old(State()))
      ensures old(Valid()) ==> Valid()
    {
      disconnectSignalled := true;
    }
  }

  /** The connect handler: the configuration and extension registries it consults, and
      the steps it applies to a connection's attributes. */
  class ConnectHandler {
    const config: ServerConfig
    const authenticatorProviders: seq<string>
    const willAuthorizerRegistered: bool

    function Env(): Environment {
      Environment(config, authenticatorProviders, willAuthorizerRegistered)
    }

    constructor(config: ServerConfig, authenticatorProviders: seq<string>, willAuthorizerRegistered: bool)
      ensures Env() == Environment(config, authenticatorProviders, willAuthorizerRegistered)
    {
      this.config := config;
      this.authenticatorProviders := authenticatorProviders;
      this.willAuthorizerRegistered := willAuthorizerRegistered;
    }

    /** Sends the optional negative CONNACK, closes the connection and notifies observers. */
    method Refuse(conn: ConnectionContext, connack: Option<Connack>)
      requires conn.open
      modifies conn
      ensures conn.State() == Admission.Refuse(old(conn.State()), connack)
    {
      ghost var before := conn.State();
      conn.connacks := conn.connacks + connack.ToSeq();
      conn.open := false;
      conn.phase := Closed;
      conn.authInProgress := false;
      conn.serverDisconnectEvents := conn.serverDisconnectEvents + 1;
      assert conn.State() == before.(open := false, phase := Closed, authInProgress := false,
        connacks := before.connacks + connack.ToSeq(), serverDisconnectEvents := before.serverDisconnectEvents + 1);
    }

    /** Sends the success CONNACK, flushing the pending authentication user properties. */
    method Admit(conn: ConnectionContext, connect: Connect)
      requires conn.open
      modifies conn
      ensures conn.State() == Admission.Admit(old(conn.State()), conn.version, connect, config)
    {
      var connack := SuccessConnack(conn.version, connect, config, conn.clientIdAssigned, conn.authUserProperties);
      conn.connacks := conn.connacks + [connack];
      conn.authUserProperties := None;
      conn.phase := Active;
    }

    method Conclude(conn: ConnectionContext, connect: Connect, v: Verdict)
      requires conn.open
      modifies conn
      ensures conn.State() == Admission.Conclude(old(conn.State()), conn.version, connect, config, v)
    {
      match v
      case Granted => Admit(conn, connect);
      case Refused(reason) => Refuse(conn, Some(RefusalConnack(conn.version, reason)));
    }

    method AuthorizeWill(conn: ConnectionContext, connect: Connect)
      requires conn.open
      modifies conn
      ensures conn.State() == Admission.AuthorizeWill(old(conn.State()), conn.version, Env(), connect)
    {
      if connect.will.None? {
        Admit(conn, connect);
      } else if willAuthorizerRegistered {
        conn.phase := AwaitingWillAuthorization;
      } else {
        Conclude(conn, connect, StaticVerdict(conn.permissions, connect.will.value.topic));
      }
    }

    /** Writes the negotiated parameters to the connection and, for MQTT 5, allocates the
      topic-alias mapping when aliasing is enabled. */
    method Negotiate(conn: ConnectionContext, connect: Connect)
      modifies conn
      ensures conn.State() == Admission.Negotiate(old(conn.State()), conn.version, connect, config)
      ensures conn.topicAliasMapping != null ==> fresh(conn.topicAliasMapping)
    {
      var sessionExpiry := NegotiateSessionExpiry(connect.sessionExpiry, config.maxSessionExpiryInterval);
      conn.sessionExpiry := Some(sessionExpiry.sessionExpiry);
      if conn.version == Mqtt5 {
        NegotiateMqtt5(conn, connect);
      } else {
        NegotiateMqtt3(conn, connect);
      }
    }

    /** The MQTT 3.1.1 part of negotiation: the client's keep-alive stands, and the
      maximum packet size, receive maximum and topic aliases do not exist. */
    method NegotiateMqtt3(conn: ConnectionContext, connect: Connect)
      modifies conn`keepAlive, conn`maxPacketSizeSend, conn`clientReceiveMaximum, conn`topicAliasMapping
      ensures conn.keepAlive == Some(connect.keepAlive)
      ensures conn.maxPacketSizeSend.None? && conn.clientReceiveMaximum.None? && conn.topicAliasMapping == null
    {
      conn.keepAlive := Some(connect.keepAlive);
      conn.maxPacketSizeSend := None;
      conn.clientReceiveMaximum := None;
      conn.topicAliasMapping := null;
    }

    /** The MQTT 5 part of negotiation: keep-alive against the server's policy, the
      client's limits, and the topic-alias mapping. */
    method NegotiateMqtt5(conn: ConnectionContext, connect: Connect)
      modifies conn`keepAlive, conn`maxPacketSizeSend, conn`clientReceiveMaximum, conn`topicAliasMapping
      ensures conn.keepAlive == Some(NegotiateKeepAlive(connect.keepAlive, config.keepAliveMax, config.keepAliveAllowZero).keepAlive)
      ensures conn.maxPacketSizeSend == Some(connect.maximumPacketSize)
      ensures conn.clientReceiveMaximum == Some(connect.receiveMaximum)
      ensures conn.topicAliasMapping == null <==> !config.topicAliasEnabled
      ensures conn.topicAliasMapping != null ==>
        fresh(conn.topicAliasMapping) && conn.topicAliasMapping.Length == config.topicAliasMaxPerClient as int
    {
      var keepAlive := NegotiateKeepAlive(connect.keepAlive, config.keepAliveMax, config.keepAliveAllowZero);
      conn.keepAlive := Some(keepAlive.keepAlive);
      conn.maxPacketSizeSend := Some(connect.maximumPacketSize);
      conn.clientReceiveMaximum := Some(connect.receiveMaximum);
      if config.topicAliasEnabled {
        conn.topicAliasMapping := new Option<string>[config.topicAliasMaxPerClient](_ => None);
      } else {
        conn.topicAliasMapping := null;
      }
    }

    /** Hands one task per registered authenticator to the task executor, in order. */
    method SubmitAuthenticatorTasks(conn: ConnectionContext)
      modifies conn`authTasks
      ensures conn.authTasks == old(conn.authTasks) + authenticatorProviders
    {
      var i := 0;
      while i < |authenticatorProviders|
        invariant 0 <= i <= |authenticatorProviders|
        invariant conn.authTasks == old(conn.authTasks) + authenticatorProviders[..i]
      {
        conn.authTasks := conn.authTasks + [authenticatorProviders[i]];
        i := i + 1;
        assert authenticatorProviders[..i] == authenticatorProviders[..i - 1] + [authenticatorProviders[i - 1]];
      }
      assert authenticatorProviders[..i] == authenticatorProviders;
    }

    /** Admits the client unauthenticated when no authenticator is registered; otherwise
      submits one task per authenticator and waits for their verdict. */
    method Authenticate(conn: ConnectionContext, connect: Connect)
      requires conn.open
      modifies conn
      ensures conn.State() == Admission.Authenticate(old(conn.State()), conn.version, Env(), connect)
    {
      if |authenticatorProviders| == 0 {
        MarkUnauthenticated(conn);
        AuthorizeWill(conn, connect);
      } else {
        AwaitAuthenticators(conn, connect.authMethod.Some?);
        SubmitAuthenticatorTasks(conn);
      }
    }

    /** Records that the client is not authenticated, giving it a fresh permission set
      unless it has one. */
    method MarkUnauthenticated(conn: ConnectionContext)
      modifies conn`authenticated, conn`permissions
      ensures conn.State() == old(conn.State()).(
        authenticated := Some(false), permissions := Some(old(conn.permissions).GetOr(EmptyPermissions)))
    {
      conn.authenticated := Some(false);
      conn.permissions := Some(conn.permissions.GetOr(EmptyPermissions));
    }

    /** Suspends admission until the authenticators answer, with the "auth in progress"
      stage installed when the client asked for enhanced authentication. */
    method AwaitAuthenticators(conn: ConnectionContext, enhanced: bool)
      modifies conn`phase, conn`authInProgress
      ensures conn.State() == old(conn.State()).(phase := Authenticating, authInProgress := enhanced)
    {
      conn.phase := Authenticating;
      conn.authInProgress := enhanced;
    }

    method Proceed(conn: ConnectionContext, connect: Connect)
      requires conn.open
      modifies conn
      ensures conn.State() == Admission.Proceed(old(conn.State()), conn.version, Env(), connect)
    {
      Negotiate(conn, connect);
      Authenticate(conn, connect);
    }

    /** Takeover of the identifier's earlier connection `previous`, if any: one already
      being taken over makes admission wait for its teardown; otherwise it is marked taken
      over and closed, and admission proceeds at once. */
    method TakeOverAndProceed(conn: ConnectionContext, connect: Connect, previous: Option<ConnectionContext>)
      requires conn.open
      requires previous.Some? ==> previous.value != conn
      modifies conn, if previous.Some? then {previous.value} else {}
      ensures previous.Some? && old(previous.value.takenOver) ==>
        conn.State() == old(conn.State()).(phase := AwaitingTakeover)
      ensures !(previous.Some? && old(previous.value.takenOver)) ==>
        conn.State() == Admission.Proceed(old(conn.State()), conn.version, Env(), connect)
      ensures previous.Some? ==>
        previous.value.State() ==
          if old(previous.value.takenOver) then old(previous.value.State())
          else Admission.MarkTakenOver(old(previous.value.State()))
    {
      if previous.Some? && previous.value.takenOver {
        conn.phase := AwaitingTakeover;
      } else {
        if previous.Some? {
          previous.value.MarkTakenOver();
        }
        Proceed(conn, connect);
      }
    }

    /** The first CONNECT on `conn`: the second-connect guard replaces the connect
      handler, the CONNECT is validated, and a valid one takes over `previous` (the
      identifier's earlier connection, if any) before admission proceeds. */
    method HandleConnect(conn: ConnectionContext, connect: Connect, previous: Option<ConnectionContext>)
      requires conn.open && conn.stage == ConnectHandlerStage
      requires previous.Some? ==> previous.value != conn
      modifies conn, if previous.Some? then {previous.value} else {}
      ensures conn.State() == Admission.HandleConnect(
        old(conn.State()), conn.version, Env(), connect,
        if previous.Some? then Some(old(previous.value.takenOver)) else None)
      ensures previous.Some? ==>
        previous.value.State() ==
          if TakesOverPrevious(old(conn.State()), conn.version, config, connect, Some(old(previous.value.takenOver)))
          then Admission.MarkTakenOver(old(previous.value.State()))
          else old(previous.value.State())
    {
      ghost var previousTakenOver := if previous.Some? then Some(previous.value.takenOver) else None;
      InstallGuard(conn);
      var failure := Validate(conn.version, connect, config);
      if failure.Some? {
        Refuse(conn, RefusalFor(conn.version, failure.value));
      } else {
        Identify(conn, connect);
        TakeOverAndProceed(conn, connect, previous);
      }
    }

    /** Replaces the connect handler by the second-connect guard. */
    method InstallGuard(conn: ConnectionContext)
      modifies conn`stage
      ensures conn.State() == old(conn.State()).(stage := DisallowSecondConnectStage)
    {
      conn.stage := DisallowSecondConnectStage;
    }

    /** Records the client identifier and the validated CONNECT. */
    method Identify(conn: ConnectionContext, connect: Connect)
      modifies conn`clientId, conn`validConnect
      ensures conn.State() == old(conn.State()).(clientId := Some(connect.clientId), validConnect := Some(connect))
    {
      conn.clientId := Some(connect.clientId);
      conn.validConnect := Some(connect);
    }

    /** A CONNECT arriving on `conn`; `registry` maps client identifiers to their current
      connections. The previous connection of the CONNECT's identifier is marked taken
      over and closed when admission takes it over. */
    method OnConnect(conn: ConnectionContext, connect: Connect, registry: map<string, ConnectionContext>)
      requires conn.Valid()
      requires connect.clientId in registry ==> registry[connect.clientId] != conn
      modifies conn, if connect.clientId in registry then {registry[connect.clientId]} else {}
      ensures conn.State() == Admission.OnConnect(
        old(conn.State()), conn.version, Env(), connect,
        if connect.clientId in registry then Some(old(registry[connect.clientId].takenOver)) else None)
      ensures conn.Valid()
      ensures connect.clientId in registry ==>
        registry[connect.clientId].State() ==
          if TakesOverPrevious(old(conn.State()), conn.version, config, connect,
                               Some(old(registry[connect.clientId].takenOver)))
          then Admission.MarkTakenOver(old(registry[connect.clientId].State()))
          else old(registry[connect.clientId].State())
    {
      ghost var before := conn.State();
      var previous: Option<ConnectionContext> :=
        if connect.clientId in registry then Some(registry[connect.clientId]) else None;
      ghost var previousTakenOver := if previous.Some? then Some(previous.value.takenOver) else None;
      if !conn.open {
      } else if conn.stage == DisallowSecondConnectStage {
        Refuse(conn, None);
      } else {
        HandleConnect(conn, connect, previous);
      }
      AdmissionProperties.NextKeepsConsistent(before, conn.version, Env(), ConnectReceived(connect, previousTakenOver));
    }

    /** The disconnect future of the connection being taken over completed: a connection
      waiting for it marks that connection taken over again, closes it, and resumes
      admission with the CONNECT it validated. */
    method OnPreviousDisconnected(conn: ConnectionContext, previous: ConnectionContext)
      requires conn.Valid()
      requires previous != conn && previous.disconnectSignalled
      modifies conn, previous
      ensures conn.State() == Admission.OnPreviousDisconnected(old(conn.State()), conn.version, Env())
      ensures conn.Valid()
      ensures previous.State() ==
        if old(conn.open) && old(conn.phase) == AwaitingTakeover && old(conn.validConnect).Some?
        then Admission.MarkTakenOver(old(previous.State()))
        else old(previous.State())
    {
      ghost var before := conn.State();
      if conn.open && conn.phase == AwaitingTakeover && conn.validConnect.Some? {
        previous.MarkTakenOver();
        Proceed(conn, conn.validConnect.value);
      }
      AdmissionProperties.NextKeepsConsistent(before, conn.version, Env(), PreviousDisconnected);
    }

    /** Applies an authenticator's client-setting overrides to the connection. */
    method ApplySettings(conn: ConnectionContext, settings: Option<ClientSettings>)
      modifies conn`clientReceiveMaximum, conn`throttling
      ensures conn.State() == Admission.ApplySettings(old(conn.State()), settings)
    {
      if settings.Some? {
        conn.clientReceiveMaximum := Some(settings.value.receiveMaximum);
        conn.throttling := Some(settings.value.throttling);
      }
    }

    /** Records that the authenticators accepted the client and removes the "auth in
      progress" stage. */
    method MarkAuthenticated(conn: ConnectionContext)
      modifies conn`authInProgress, conn`authenticated
      ensures conn.State() == old(conn.State()).(authInProgress := false, authenticated := Some(true))
    {
      conn.authInProgress := false;
      conn.authenticated := Some(true);
    }

    /** The authenticators accepted the client: returns the CONNECT admission continues
      with, carrying the overriding receive maximum. */
    method ConnectSuccessfulAuthenticated(conn: ConnectionContext, connect: Connect, settings: Option<ClientSettings>)
      returns (updated: Connect)
      requires conn.Valid()
      modifies conn
      ensures conn.State() == Admission.OnAuthenticated(old(conn.State()), conn.version, Env(), connect, settings)
      ensures conn.Valid()
      ensures updated == (if old(conn.open) then WithSettings(connect, settings) else connect)
    {
      ghost var before := conn.State();
      updated := connect;
      if conn.open {
        MarkAuthenticated(conn);
        ApplySettings(conn, settings);
        updated := WithSettings(connect, settings);
        AuthorizeWill(conn, updated);
      }
      AdmissionProperties.NextKeepsConsistent(before, conn.version, Env(), Authenticated(connect, settings));
    }

    /** The authenticators refused the client. */
    method ConnectAuthenticationFailed(conn: ConnectionContext, reason: RefusalReason)
      requires conn.Valid()
      modifies conn
      ensures conn.State() == Admission.OnAuthenticationFailed(old(conn.State()), conn.version, reason)
      ensures conn.Valid()
    {
      ghost var before := conn.State();
      if conn.open {
        Refuse(conn, Some(RefusalConnack(conn.version, reason)));
      }
      AdmissionProperties.NextKeepsConsistent(before, conn.version, Env(), AuthenticationFailed(reason));
    }

    /** The will authorizer answered for a CONNECT with a will. */
    method OnWillAuthorizerResult(conn: ConnectionContext, connect: Connect, result: AuthorizerResult)
      requires conn.Valid() && connect.will.Some?
      modifies conn
      ensures conn.State() == Admission.OnWillAuthorizerResult(old(conn.State()), conn.version, Env(), connect, result)
      ensures conn.Valid()
    {
      ghost var before := conn.State();
      if conn.open {
        Conclude(conn, connect, AuthorizerVerdict(result, conn.permissions, connect.will.value.topic));
      }
      AdmissionProperties.NextKeepsConsistent(before, conn.version, Env(), WillAuthorizerAnswered(connect, result));
    }
  }
}
