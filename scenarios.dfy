/** The admission rules on concrete connections: each method drives the connect handler
    through one situation and asserts the observable outcome, from the handler's
    contracts alone. */
module Scenarios {
  import opened Options
  import opened Mqtt
  import opened Negotiation
  import opened Permissions
  import opened WillAuthorization
  import opened Admission
  import opened Validation
  import opened Connection

  /** The server configuration the scenarios start from: keep-alive up to 65535 with 0
      allowed, session expiry up to the protocol maximum, topic aliases enabled with 5 per
      client, client identifiers up to 65535 characters, QoS 2 and retained messages. */
  function DefaultConfig(): ServerConfig {
    ServerConfig(65535, true, SESSION_EXPIRY_MAX, true, 5, 65535, 2, true)
  }

  /** A CONNECT with the given client identifier and neutral values elsewhere. */
  function PlainConnect(clientId: string): Connect {
    Connect(clientId, 60, 0, 65535, 268435460, None, [], None)
  }

  function WillConnect(clientId: string, topic: string, qos: QoS, retain: bool): Connect {
    PlainConnect(clientId).(will := Some(WillPublish(topic, qos, retain)))
  }

  method SecondConnectCloses(version: ProtocolVersion) {
    var handler := new ConnectHandler(DefaultConfig(), [], false);
    var conn := new ConnectionContext(version, false, None, None);
    assert Validate(version, PlainConnect("1"), DefaultConfig()).None?;
    handler.OnConnect(conn, PlainConnect("1"), map[]);
    assert conn.open && conn.stage == DisallowSecondConnectStage;
    handler.OnConnect(conn, PlainConnect("2"), map[]);
    assert !conn.open;
    assert |conn.connacks| == 1;
  }

  method SessionExpiryZeroKept() {
    var handler := new ConnectHandler(DefaultConfig(), [], false);
    var conn := new ConnectionContext(Mqtt5, false, None, None);
    handler.OnConnect(conn, PlainConnect("1").(sessionExpiry := 0), map[]);
    assert conn.open && conn.sessionExpiry == Some(0);
  }

  method KeepAliveZeroAllowed() {
    var handler := new ConnectHandler(DefaultConfig(), [], false);
    var conn := new ConnectionContext(Mqtt5, false, None, None);
    handler.OnConnect(conn, PlainConnect("1").(keepAlive := 0), map[]);
    assert conn.open && conn.keepAlive == Some(0);
  }

  method KeepAliveZeroNotAllowed() {
    var handler := new ConnectHandler(DefaultConfig().(keepAliveMax := 65535, keepAliveAllowZero := false), [], false);
    var conn := new ConnectionContext(Mqtt5, false, None, None);
    handler.OnConnect(conn, PlainConnect("1").(keepAlive := 0), map[]);
    assert conn.open && conn.keepAlive == Some(65535);
  }

  method KeepAliveAboveServerMaximum() {
    var handler := new ConnectHandler(DefaultConfig().(keepAliveMax := 500, keepAliveAllowZero := false), [], false);
    var conn := new ConnectionContext(Mqtt5, false, None, None);
    handler.OnConnect(conn, PlainConnect("1").(keepAlive := 1000), map[]);
    assert conn.open && conn.keepAlive == Some(500);
    assert conn.connacks[0].serverKeepAlive == Some(500);
  }

  method KeepAliveWithinServerMaximum() {
    var handler := new ConnectHandler(DefaultConfig().(keepAliveMax := 500, keepAliveAllowZero := false), [], false);
    var conn := new ConnectionContext(Mqtt5, false, None, None);
    handler.OnConnect(conn, PlainConnect("1").(keepAlive := 360), map[]);
    assert conn.open && conn.keepAlive == Some(360);
    assert conn.connacks[0].serverKeepAlive.None?;
  }

  method MaximumPacketSizeStored() {
    var handler := new ConnectHandler(DefaultConfig(), [], false);
    var conn := new ConnectionContext(Mqtt5, false, None, None);
    handler.OnConnect(conn, PlainConnect("1").(maximumPacketSize := 300), map[]);
    assert conn.open && conn.maxPacketSizeSend == Some(300);
  }

  method SessionExpiryAtMaximumKept() {
    var handler := new ConnectHandler(DefaultConfig().(maxSessionExpiryInterval := SESSION_EXPIRY_MAX), [], false);
    var conn := new ConnectionContext(Mqtt5, false, None, None);
    handler.OnConnect(conn, PlainConnect("1").(sessionExpiry := SESSION_EXPIRY_MAX), map[]);
    assert conn.open && conn.sessionExpiry == Some(SESSION_EXPIRY_MAX);
  }

  method TopicAliasMapping(enabled: bool) {
    var handler := new ConnectHandler(DefaultConfig().(topicAliasMaxPerClient := 5, topicAliasEnabled := enabled), [], false);
    var conn := new ConnectionContext(Mqtt5, false, None, None);
    handler.OnConnect(conn, PlainConnect("1").(sessionExpiry := SESSION_EXPIRY_MAX), map[]);
    assert conn.open;
    if enabled {
      assert conn.topicAliasMapping != null && conn.topicAliasMapping.Length == 5;
    } else {
      assert conn.topicAliasMapping == null;
    }
  }

  method SessionExpiryCapped() {
    var handler := new ConnectHandler(DefaultConfig().(maxSessionExpiryInterval := 10000), [], false);
    var conn := new ConnectionContext(Mqtt5, false, None, None);
    handler.OnConnect(conn, PlainConnect("1").(sessionExpiry := SESSION_EXPIRY_MAX), map[]);
    assert conn.open && conn.sessionExpiry == Some(10000);
    assert conn.connacks[0].sessionExpiry == Some(10000);
  }

  method AssignedClientIdEchoed(serverAssigned: bool) {
    var handler := new ConnectHandler(DefaultConfig(), [], false);
    var conn := new ConnectionContext(Mqtt5, serverAssigned, None, None);
    handler.OnConnect(conn, PlainConnect(if serverAssigned then "assigned" else "ownId"), map[]);
    assert conn.open;
    if serverAssigned {
      assert conn.connacks[0].assignedClientId == Some("assigned");
    } else {
      assert conn.connacks[0].assignedClientId.None?;
    }
  }

  method AuthUserPropertiesInConnack() {
    var handler := new ConnectHandler(DefaultConfig(), [], false);
    var conn := new ConnectionContext(Mqtt5, false, Some([UserProperty("name", "value")]), None);
    handler.OnConnect(conn, PlainConnect("ownId").(userProperties := [UserProperty("connect", "value")]), map[]);
    assert conn.open;
    assert conn.connacks[0].userProperties == [UserProperty("name", "value")];
    assert conn.authUserProperties.None?;
  }

  method ConnectHandlerReplacedByGuard() {
    var handler := new ConnectHandler(DefaultConfig(), [], false);
    var conn := new ConnectionContext(Mqtt5, false, None, None);
    assert conn.stage == ConnectHandlerStage;
    handler.OnConnect(conn, PlainConnect("clientId"), map[]);
    assert conn.stage == DisallowSecondConnectStage;
  }

  method ClientTakeover() {
    var handler := new ConnectHandler(DefaultConfig(), [], false);
    var previous := new ConnectionContext(Mqtt5, false, None, None);
    var conn := new ConnectionContext(Mqtt5, false, None, None);
    handler.OnConnect(conn, PlainConnect("sameClientId"), map["sameClientId" := previous]);
    assert conn.open;
    assert !previous.open && previous.takenOver;
  }

  /** The identifier's previous connection is already being taken over: admission
      waits for its disconnect, then takes it over and proceeds. */
  method ClientTakeoverRetry() {
    var handler := new ConnectHandler(DefaultConfig(), [], false);
    var original := new ConnectionContext(Mqtt5, false, None, None);
    original.takenOver := true;
    var conn := new ConnectionContext(Mqtt5, false, None, None);
    assert Validate(Mqtt5, PlainConnect("sameClientId"), DefaultConfig()).None?;
    handler.OnConnect(conn, PlainConnect("sameClientId"), map["sameClientId" := original]);
    assert original.open && conn.open && conn.phase == AwaitingTakeover && conn.connacks == [];
    original.takenOver := false;
    original.SignalDisconnect();
    handler.OnPreviousDisconnected(conn, original);
    assert conn.open && conn.phase == Active;
    assert !original.open && original.takenOver;
  }

  method ClientIdTooLong(version: ProtocolVersion) {
    var handler := new ConnectHandler(DefaultConfig().(maxClientIdLength := 5), [], false);
    var conn := new ConnectionContext(version, false, None, None);
    handler.OnConnect(conn, PlainConnect("123456"), map[]);
    assert !conn.open && conn.serverDisconnectEvents == 1;
  }

  /** MQTT 5 answers the wildcard with "topic name invalid"; MQTT 3.1.1 closes without CONNACK. */
  method WillTopicWithWildcard(version: ProtocolVersion) {
    var handler := new ConnectHandler(DefaultConfig(), [], false);
    var conn := new ConnectionContext(version, false, None, None);
    handler.OnConnect(conn, WillConnect("123456", "top/#", 2, false), map[]);
    assert !conn.open && conn.serverDisconnectEvents == 1;
    if version == Mqtt5 {
      assert conn.connacks == [RefusalConnack(Mqtt5, TopicNameInvalid)];
    } else {
      assert conn.connacks == [];
    }
  }

  method WillQosAboveMaximum() {
    var handler := new ConnectHandler(DefaultConfig().(maximumQos := 0), [], false);
    var conn := new ConnectionContext(Mqtt5, false, None, None);
    handler.OnConnect(conn, WillConnect("123456", "topic", 2, false), map[]);
    assert !conn.open && conn.serverDisconnectEvents == 1;
  }

  method RetainedWillRefusedMqtt3() {
    var handler := new ConnectHandler(DefaultConfig().(retainedMessagesEnabled := false), [], false);
    var conn := new ConnectionContext(Mqtt3, false, None, None);
    assert Validate(Mqtt3, WillConnect("123456", "top", 2, true), handler.config) == Some(WillRetainNotSupported);
    handler.OnConnect(conn, WillConnect("123456", "top", 2, true), map[]);
    assert !conn.open && conn.serverDisconnectEvents == 1;
    assert conn.connacks == [Connack(Mqtt3Code(RefusedNotAuthorized), None, None, None, [])];
  }

  method RetainedWillRefusedMqtt5() {
    var handler := new ConnectHandler(DefaultConfig().(retainedMessagesEnabled := false), [], false);
    var conn := new ConnectionContext(Mqtt5, false, None, None);
    assert Validate(Mqtt5, WillConnect("123456", "top", 2, true), handler.config) == Some(WillRetainNotSupported);
    RetainedWillRefusal();
    handler.OnConnect(conn, WillConnect("123456", "top", 2, true), map[]);
    assert !conn.open && conn.serverDisconnectEvents == 1;
    assert conn.connacks == [Connack(Mqtt5Code(RetainNotSupported), None, None, None, [])];
  }

  method RetainedWillAccepted(version: ProtocolVersion) {
    var handler := new ConnectHandler(DefaultConfig().(retainedMessagesEnabled := true), [], false);
    var conn := new ConnectionContext(version, false, None, None);
    assert Validate(version, WillConnect("123456", "top", 2, true), handler.config).None?;
    handler.OnConnect(conn, WillConnect("123456", "top", 2, true), map[]);
    assert conn.open && conn.phase == Active && conn.permissions.Some?;
    assert conn.connacks[0].code.IsSuccess();
  }

  method AuthInProgressStageInstalled() {
    var handler := new ConnectHandler(DefaultConfig(), ["extension1"], false);
    var conn := new ConnectionContext(Mqtt5, false, None, None);
    handler.OnConnect(conn, PlainConnect("client").(authMethod := Some("someMethod")), map[]);
    assert conn.authInProgress;
  }

  method AuthInProgressStageRemoved() {
    var handler := new ConnectHandler(DefaultConfig(), [], false);
    var conn := new ConnectionContext(Mqtt5, false, None, None);
    conn.authInProgress := true;
    assert conn.Valid();
    var _ := handler.ConnectSuccessfulAuthenticated(conn, PlainConnect("client").(authMethod := Some("someMethod")), None);
    assert !conn.authInProgress && conn.authenticated == Some(true);
  }

  method EveryAuthenticatorConsulted() {
    var handler := new ConnectHandler(DefaultConfig(), ["extension1", "extension2", "extension3"], false);
    var conn := new ConnectionContext(Mqtt5, false, None, None);
    handler.OnConnect(conn, PlainConnect("client").(authMethod := Some("someMethod")), map[]);
    assert |conn.authTasks| == 3;
  }

  method NoAuthenticatorAdmitsUnauthenticated(authMethod: Option<string>) {
    var handler := new ConnectHandler(DefaultConfig(), [], false);
    var conn := new ConnectionContext(Mqtt5, false, None, None);
    handler.OnConnect(conn, PlainConnect("client").(authMethod := authMethod), map[]);
    assert conn.open && conn.phase == Active;
    assert conn.connacks[0].code == Mqtt5Code(Success);
    assert conn.authenticated == Some(false);
  }

  /** One rule for the topic `topic`; permissions built without a default behaviour allow. */
  function TopicRule(kind: PermissionType): DefaultPermissions {
    DefaultPermissions([TopicPermission("topic", kind)], Allow)
  }

  method WillAllowedByPermissions() {
    var handler := new ConnectHandler(DefaultConfig(), [], false);
    var conn := new ConnectionContext(Mqtt5, false, None, Some(TopicRule(Allow)));
    assert Validate(Mqtt5, WillConnect("client", "topic", 1, false), DefaultConfig()).None?;
    handler.OnConnect(conn, WillConnect("client", "topic", 1, false), map[]);
    assert conn.open && conn.connacks[0].code == Mqtt5Code(Success);
  }

  method WillDeniedByPermissions() {
    var handler := new ConnectHandler(DefaultConfig(), [], false);
    var conn := new ConnectionContext(Mqtt5, false, None, Some(TopicRule(Deny)));
    assert Validate(Mqtt5, WillConnect("client", "topic", 1, false), DefaultConfig()).None?;
    handler.OnConnect(conn, WillConnect("client", "topic", 1, false), map[]);
    assert !conn.open && conn.connacks[0].code == Mqtt5Code(NotAuthorized);
  }

  /** The will authorizer decides: its answer alone grants or refuses the will. */
  method WillAuthorizerDecides(result: AuthorizerResult, permissions: Option<DefaultPermissions>)
    requires !result.NextExtensionOrDefault?
    requires result.FailAuthorization? ==> result.disconnectReason == None || result.disconnectReason == Some(PayloadFormatInvalid)
  {
    var handler := new ConnectHandler(DefaultConfig(), [], true);
    var conn := new ConnectionContext(Mqtt5, false, None, permissions);
    handler.OnWillAuthorizerResult(conn, WillConnect("client", "topic", 1, false), result);
    match result
    case AuthorizeSuccessfully =>
      assert conn.open && conn.connacks[0].code == Mqtt5Code(Success);
    case FailAuthorization(None) =>
      assert !conn.open && conn.connacks[0].code == Mqtt5Code(NotAuthorized);
    case FailAuthorization(Some(d)) =>
      assert !conn.open && conn.connacks[0].code == Mqtt5Code(PayloadFormatInvalid);
  }

  /** The will authorizer defers: the connection's permissions decide, and a connection
      without permissions is refused. */
  method WillAuthorizerDefers(permissions: Option<DefaultPermissions>) {
    var handler := new ConnectHandler(DefaultConfig(), [], true);
    var conn := new ConnectionContext(Mqtt5, false, None, permissions);
    handler.OnWillAuthorizerResult(conn, WillConnect("client", "topic", 1, false), NextExtensionOrDefault);
    if permissions.None? {
      assert !conn.open && conn.connacks[0].code == Mqtt5Code(NotAuthorized);
    } else if permissions == Some(TopicRule(Allow)) || permissions == Some(DefaultPermissions([], Allow)) {
      assert conn.open && conn.connacks[0].code == Mqtt5Code(Success);
    } else if permissions == Some(TopicRule(Deny)) || permissions == Some(DefaultPermissions([], Deny)) {
      assert !conn.open && conn.connacks[0].code == Mqtt5Code(NotAuthorized);
    }
  }

  method ClientSettingsApplied() {
    var handler := new ConnectHandler(DefaultConfig(), [], false);
    var conn := new ConnectionContext(Mqtt5, false, None, None);
    conn.authInProgress := true;
    assert conn.Valid();
    var connect := PlainConnect("client").(authMethod := Some("someMethod"));
    var updated := handler.ConnectSuccessfulAuthenticated(conn, connect, Some(ClientSettings(123, NoThrottling)));
    assert conn.authenticated == Some(true);
    assert conn.clientReceiveMaximum == Some(123);
    assert updated.receiveMaximum == 123;
    assert conn.throttling == Some(NoThrottling);
  }
}
