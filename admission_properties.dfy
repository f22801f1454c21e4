/** Properties of the admission state machine: the invariant every event preserves,
    the second-connect guard, takeover, authentication and will outcomes. */
module AdmissionProperties {
  import opened Options
  import opened Mqtt
  import opened Negotiation
  import opened Validation
  import opened Permissions
  import opened WillAuthorization
  import opened Admission

  // ---------------------------------------------------------------------------
  // The invariant

  lemma RefuseKeepsConsistent(s: ConnState, connack: Option<Connack>)
    requires Consistent(s) && s.open
    requires connack.Some? ==> !connack.value.code.IsSuccess()
    ensures Consistent(Refuse(s, connack))
  {
  }

  lemma AdmitKeepsConsistent(s: ConnState, version: ProtocolVersion, connect: Connect, config: ServerConfig)
    requires Consistent(s) && s.open
    ensures Consistent(Admit(s, version, connect, config))
  {
  }

  lemma ConcludeKeepsConsistent(s: ConnState, version: ProtocolVersion, connect: Connect, config: ServerConfig, v: Verdict)
    requires Consistent(s) && s.open
    ensures Consistent(Conclude(s, version, connect, config, v))
  {
    if v.Granted? {
      AdmitKeepsConsistent(s, version, connect, config);
    } else {
      RefuseKeepsConsistent(s, Some(RefusalConnack(version, v.reason)));
    }
  }

  lemma AuthorizeWillKeepsConsistent(s: ConnState, version: ProtocolVersion, env: Environment, connect: Connect)
    requires Consistent(s) && s.open
    ensures Consistent(AuthorizeWill(s, version, env, connect))
  {
    if connect.will.None? {
      AdmitKeepsConsistent(s, version, connect, env.config);
    } else if !env.willAuthorizerRegistered {
      ConcludeKeepsConsistent(s, version, connect, env.config, StaticVerdict(s.permissions, connect.will.value.topic));
    }
  }

  lemma ProceedKeepsConsistent(s: ConnState, version: ProtocolVersion, env: Environment, connect: Connect)
    requires Consistent(s) && s.open
    ensures Consistent(Proceed(s, version, env, connect))
  {
    var n := Negotiate(s, version, connect, env.config);
    if |env.authenticatorProviders| == 0 {
      AuthorizeWillKeepsConsistent(
        n.(authenticated := Some(false), permissions := Some(n.permissions.GetOr(EmptyPermissions))),
        version, env, connect);
    }
  }

  lemma HandleConnectKeepsConsistent(
    s: ConnState, version: ProtocolVersion, env: Environment, connect: Connect, previousTakenOver: Option<bool>)
    requires Consistent(s) && s.open
    ensures Consistent(HandleConnect(s, version, env, connect, previousTakenOver))
  {
    var guarded := s.(stage := DisallowSecondConnectStage);
    match Validate(version, connect, env.config)
    case Some(failure) =>
      RefuseKeepsConsistent(guarded, RefusalFor(version, failure));
    case None =>
      var identified := guarded.(clientId := Some(connect.clientId), validConnect := Some(connect));
      if previousTakenOver != Some(true) {
        ProceedKeepsConsistent(identified, version, env, connect);
      }
  }

  /** Every event keeps the admission invariant. */
  lemma NextKeepsConsistent(s: ConnState, version: ProtocolVersion, env: Environment, e: Event)
    requires Consistent(s)
    ensures Consistent(Next(s, version, env, e))
  {
    if s.open {
      match e
      case ConnectReceived(c, p) =>
        if s.stage == DisallowSecondConnectStage {
          RefuseKeepsConsistent(s, None);
        } else {
          HandleConnectKeepsConsistent(s, version, env, c, p);
        }
      case PreviousDisconnected =>
        if s.phase == AwaitingTakeover && s.validConnect.Some? {
          ProceedKeepsConsistent(s, version, env, s.validConnect.value);
        }
      case Authenticated(c, settings) =>
        AuthorizeWillKeepsConsistent(
          ApplySettings(s.(authInProgress := false, authenticated := Some(true)), settings),
          version, env, WithSettings(c, settings));
      case AuthenticationFailed(reason) =>
        RefuseKeepsConsistent(s, Some(RefusalConnack(version, reason)));
      case WillAuthorizerAnswered(c, result) =>
        if c.will.Some? {
          ConcludeKeepsConsistent(s, version, c, env.config,
                                  AuthorizerVerdict(result, s.permissions, c.will.value.topic));
        }
    }
  }

  /** Every state reachable from a freshly opened connection satisfies the invariant. */
  lemma {:induction false} RunKeepsConsistent(s: ConnState, version: ProtocolVersion, env: Environment, events: seq<Event>)
    requires Consistent(s)
    ensures Consistent(Run(s, version, env, events))
    decreases |events|
  {
    if |events| > 0 {
      NextKeepsConsistent(s, version, env, events[0]);
      RunKeepsConsistent(Next(s, version, env, events[0]), version, env, events[1..]);
    }
  }

  /** Taking over a connection keeps its invariant. */
  lemma MarkTakenOverKeepsConsistent(p: ConnState)
    requires Consistent(p)
    ensures Consistent(MarkTakenOver(p))
  {
  }

  // ---------------------------------------------------------------------------
  // Closure, CONNACKs and disconnect notifications

  /** Nothing happens to a closed connection: late authentication or authorization
      results and further frames are discarded. */
  lemma {:induction false} ClosedIsFinal(s: ConnState, version: ProtocolVersion, env: Environment, events: seq<Event>)
    requires !s.open
    ensures Run(s, version, env, events) == s
    decreases |events|
  {
    if |events| > 0 {
      var e := events[0];
      assert Next(s, version, env, e) == s by {
        match e
        case ConnectReceived(c, p) =>
        case PreviousDisconnected =>
        case Authenticated(c, settings) =>
        case AuthenticationFailed(reason) =>
        case WillAuthorizerAnswered(c, result) =>
      }
      ClosedIsFinal(s, version, env, events[1..]);
    }
  }

  /** `r` is `s` after one step: at most one CONNACK more, earlier ones kept, and one
      server-disconnect notification exactly when the step closed the connection. */
  ghost predicate SteppedFrom(s: ConnState, r: ConnState) {
    && |s.connacks| <= |r.connacks| <= |s.connacks| + 1
    && r.connacks[..|s.connacks|] == s.connacks
    && r.serverDisconnectEvents == s.serverDisconnectEvents + (if s.open && !r.open then 1 else 0)
  }

  lemma RefuseSteps(s: ConnState, connack: Option<Connack>)
    requires s.open
    ensures SteppedFrom(s, Refuse(s, connack))
  {
    assert Refuse(s, connack).connacks[..|s.connacks|] == s.connacks;
  }

  lemma AdmitSteps(s: ConnState, version: ProtocolVersion, connect: Connect, config: ServerConfig)
    requires s.open
    ensures SteppedFrom(s, Admit(s, version, connect, config))
  {
    assert Admit(s, version, connect, config).connacks[..|s.connacks|] == s.connacks;
  }

  lemma AuthorizeWillSteps(s: ConnState, version: ProtocolVersion, env: Environment, connect: Connect)
    requires s.open
    ensures SteppedFrom(s, AuthorizeWill(s, version, env, connect))
  {
    if connect.will.None? {
      AdmitSteps(s, version, connect, env.config);
    } else if !env.willAuthorizerRegistered {
      match StaticVerdict(s.permissions, connect.will.value.topic)
      case Granted => AdmitSteps(s, version, connect, env.config);
      case Refused(reason) => RefuseSteps(s, Some(RefusalConnack(version, reason)));
    } else {
      assert s.connacks[..|s.connacks|] == s.connacks;
    }
  }

  lemma ProceedSteps(s: ConnState, version: ProtocolVersion, env: Environment, connect: Connect)
    requires s.open
    ensures SteppedFrom(s, Proceed(s, version, env, connect))
  {
    var n := Negotiate(s, version, connect, env.config);
    if |env.authenticatorProviders| == 0 {
      AuthorizeWillSteps(
        n.(authenticated := Some(false), permissions := Some(n.permissions.GetOr(EmptyPermissions))),
        version, env, connect);
    } else {
      assert s.connacks[..|s.connacks|] == s.connacks;
    }
  }

  lemma HandleConnectSteps(
    s: ConnState, version: ProtocolVersion, env: Environment, connect: Connect, previousTakenOver: Option<bool>)
    requires s.open
    ensures SteppedFrom(s, HandleConnect(s, version, env, connect, previousTakenOver))
  {
    var guarded := s.(stage := DisallowSecondConnectStage);
    match Validate(version, connect, env.config)
    case Some(failure) => RefuseSteps(guarded, RefusalFor(version, failure));
    case None =>
      var identified := guarded.(clientId := Some(connect.clientId), validConnect := Some(connect));
      if previousTakenOver == Some(true) {
        assert s.connacks[..|s.connacks|] == s.connacks;
      } else {
        ProceedSteps(identified, version, env, connect);
      }
  }

  lemma OnConnectSteps(
    s: ConnState, version: ProtocolVersion, env: Environment, connect: Connect, previousTakenOver: Option<bool>)
    ensures SteppedFrom(s, OnConnect(s, version, env, connect, previousTakenOver))
  {
    if !s.open {
      assert s.connacks[..|s.connacks|] == s.connacks;
    } else if s.stage == DisallowSecondConnectStage {
      RefuseSteps(s, None);
    } else {
      HandleConnectSteps(s, version, env, connect, previousTakenOver);
    }
  }

  lemma OnPreviousDisconnectedSteps(s: ConnState, version: ProtocolVersion, env: Environment)
    ensures SteppedFrom(s, OnPreviousDisconnected(s, version, env))
  {
    if s.open && s.phase == AwaitingTakeover && s.validConnect.Some? {
      ProceedSteps(s, version, env, s.validConnect.value);
    } else {
      assert s.connacks[..|s.connacks|] == s.connacks;
    }
  }

  lemma OnAuthenticatedSteps(
    s: ConnState, version: ProtocolVersion, env: Environment, connect: Connect, settings: Option<ClientSettings>)
    ensures SteppedFrom(s, OnAuthenticated(s, version, env, connect, settings))
  {
    if s.open {
      AuthorizeWillSteps(
        ApplySettings(s.(authInProgress := false, authenticated := Some(true)), settings),
        version, env, WithSettings(connect, settings));
    } else {
      assert s.connacks[..|s.connacks|] == s.connacks;
    }
  }

  lemma OnAuthenticationFailedSteps(s: ConnState, version: ProtocolVersion, reason: RefusalReason)
    ensures SteppedFrom(s, OnAuthenticationFailed(s, version, reason))
  {
    if s.open {
      RefuseSteps(s, Some(RefusalConnack(version, reason)));
    } else {
      assert s.connacks[..|s.connacks|] == s.connacks;
    }
  }

  lemma OnWillAuthorizerResultSteps(
    s: ConnState, version: ProtocolVersion, env: Environment, connect: Connect, result: AuthorizerResult)
    requires connect.will.Some?
    ensures SteppedFrom(s, OnWillAuthorizerResult(s, version, env, connect, result))
  {
    if !s.open {
      assert s.connacks[..|s.connacks|] == s.connacks;
    } else {
      match AuthorizerVerdict(result, s.permissions, connect.will.value.topic)
      case Granted => AdmitSteps(s, version, connect, env.config);
      case Refused(reason) => RefuseSteps(s, Some(RefusalConnack(version, reason)));
    }
  }

  /** Each event sends at most one CONNACK and never withdraws an earlier one, and the
      connection's server-side close is notified exactly when the event closes it. */
  lemma NextSendsAtMostOneConnack(s: ConnState, version: ProtocolVersion, env: Environment, e: Event)
    ensures var r := Next(s, version, env, e);
      && |s.connacks| <= |r.connacks| <= |s.connacks| + 1
      && r.connacks[..|s.connacks|] == s.connacks
      && r.serverDisconnectEvents == s.serverDisconnectEvents + (if s.open && !r.open then 1 else 0)
  {
    match e
    case ConnectReceived(c, p) => OnConnectSteps(s, version, env, c, p);
    case PreviousDisconnected => OnPreviousDisconnectedSteps(s, version, env);
    case Authenticated(c, settings) => OnAuthenticatedSteps(s, version, env, c, settings);
    case AuthenticationFailed(reason) => OnAuthenticationFailedSteps(s, version, reason);
    case WillAuthorizerAnswered(c, result) =>
      if c.will.Some? {
        OnWillAuthorizerResultSteps(s, version, env, c, result);
      } else {
        assert s.connacks[..|s.connacks|] == s.connacks;
      }
  }

  // ---------------------------------------------------------------------------
  // One answer per connection

  /** Whether admission is suspended, waiting for a takeover, the authenticators or the
      will authorizer. */
  predicate Suspended(phase: Phase) {
    phase == AwaitingTakeover || phase == Authenticating || phase == AwaitingWillAuthorization
  }

  /** The CONNECT a continuation carries is the one admission validated, up to a receive
      maximum an authenticator may have overridden. */
  predicate ContinuesWith(s: ConnState, c: Connect) {
    s.validConnect.Some? && c.(receiveMaximum := s.validConnect.value.receiveMaximum) == s.validConnect.value
  }

  /** The event is one the connection can be waiting for: a CONNECT may arrive at any
      time, but the takeover signal, an authentication verdict and a will authorizer's
      answer arrive only while an open connection is suspended on exactly that, and the
      verdicts are about the CONNECT it validated. The handler itself does not check
      this; its collaborators guarantee it by answering each request once, for the
      CONNECT they were handed. */
  predicate Expected(s: ConnState, e: Event) {
    match e
    case ConnectReceived(_, _) => true
    case PreviousDisconnected => !s.open || s.phase == AwaitingTakeover
    case Authenticated(c, _) => !s.open || (s.phase == Authenticating && s.validConnect == Some(c))
    case AuthenticationFailed(_) => !s.open || s.phase == Authenticating
    case WillAuthorizerAnswered(c, _) => !s.open || (s.phase == AwaitingWillAuthorization && ContinuesWith(s, c))
  }

  /** Every event of the run is expected when it arrives. */
  ghost predicate Orderly(s: ConnState, version: ProtocolVersion, env: Environment, events: seq<Event>)
    decreases |events|
  {
    |events| == 0 ||
    (Expected(s, events[0]) && Orderly(Next(s, version, env, events[0]), version, env, events[1..]))
  }

  /** Admission answers at most once: no CONNACK before the first CONNECT or while
      suspended, at most one in all, exactly one once active; a connection that got past
      validation holds a CONNECT within the server limits; and an active connection was
      admitted for that CONNECT: its CONNACK is the success CONNACK for it, and a will in
      it was allowed by the connection's permissions unless a will authorizer decided. */
  ghost predicate AnsweredAtMostOnce(s: ConnState, version: ProtocolVersion, env: Environment) {
    && |s.connacks| <= 1
    && (s.stage == ConnectHandlerStage ==> s.phase == AwaitingConnect)
    && (s.phase == AwaitingConnect || Suspended(s.phase) ==> s.connacks == [])
    && (Suspended(s.phase) || s.phase == Active ==>
          s.validConnect.Some? && WithinLimits(version, s.validConnect.value, env.config))
    && (s.phase == AwaitingWillAuthorization ==> env.willAuthorizerRegistered)
    && (s.phase == Active ==>
          && |s.connacks| == 1
          && s.connacks[0].(userProperties := [])
               == SuccessConnack(version, s.validConnect.value, env.config, s.clientIdAssigned, None)
          && (s.validConnect.value.will.Some? && !env.willAuthorizerRegistered ==>
                StaticVerdict(s.permissions, s.validConnect.value.will.value.topic).Granted?))
  }

  /** The success CONNACK depends neither on the CONNECT's receive maximum nor, once its
      user properties are set aside, on the authentication user properties. */
  lemma AdmittedConnack(
    version: ProtocolVersion, connect: Connect, validated: Connect, config: ServerConfig,
    clientIdAssigned: bool, authUserProperties: Option<seq<UserProperty>>)
    requires connect.(receiveMaximum := validated.receiveMaximum) == validated
    ensures SuccessConnack(version, connect, config, clientIdAssigned, authUserProperties).(userProperties := [])
      == SuccessConnack(version, validated, config, clientIdAssigned, None)
  {
  }

  lemma AdmitAnswersOnce(s: ConnState, version: ProtocolVersion, env: Environment, connect: Connect)
    requires s.open && s.connacks == [] && s.stage == DisallowSecondConnectStage
    requires s.validConnect.Some? && WithinLimits(version, s.validConnect.value, env.config)
    requires ContinuesWith(s, connect)
    requires s.validConnect.value.will.Some? && !env.willAuthorizerRegistered ==>
      StaticVerdict(s.permissions, s.validConnect.value.will.value.topic).Granted?
    ensures AnsweredAtMostOnce(Admit(s, version, connect, env.config), version, env)
  {
    AdmittedConnack(version, connect, s.validConnect.value, env.config, s.clientIdAssigned, s.authUserProperties);
  }

  lemma AuthorizeWillAnswersOnce(s: ConnState, version: ProtocolVersion, env: Environment, connect: Connect)
    requires s.open && s.connacks == [] && s.stage == DisallowSecondConnectStage
    requires s.validConnect.Some? && WithinLimits(version, s.validConnect.value, env.config)
    requires ContinuesWith(s, connect)
    ensures AnsweredAtMostOnce(AuthorizeWill(s, version, env, connect), version, env)
  {
    if connect.will.None? {
      AdmitAnswersOnce(s, version, env, connect);
    } else if !env.willAuthorizerRegistered && StaticVerdict(s.permissions, connect.will.value.topic).Granted? {
      AdmitAnswersOnce(s, version, env, connect);
    }
  }

  lemma ProceedAnswersOnce(s: ConnState, version: ProtocolVersion, env: Environment, connect: Connect)
    requires s.open && s.connacks == [] && s.stage == DisallowSecondConnectStage
    requires s.validConnect == Some(connect) && WithinLimits(version, connect, env.config)
    ensures AnsweredAtMostOnce(Proceed(s, version, env, connect), version, env)
  {
    var n := Negotiate(s, version, connect, env.config);
    if |env.authenticatorProviders| == 0 {
      AuthorizeWillAnswersOnce(
        n.(authenticated := Some(false), permissions := Some(n.permissions.GetOr(EmptyPermissions))),
        version, env, connect);
    }
  }

  lemma HandleConnectAnswersOnce(
    s: ConnState, version: ProtocolVersion, env: Environment, connect: Connect, previousTakenOver: Option<bool>)
    requires s.open && s.connacks == []
    ensures AnsweredAtMostOnce(HandleConnect(s, version, env, connect, previousTakenOver), version, env)
  {
    var guarded := s.(stage := DisallowSecondConnectStage);
    match Validate(version, connect, env.config)
    case Some(failure) =>
    case None =>
      var identified := guarded.(clientId := Some(connect.clientId), validConnect := Some(connect));
      if previousTakenOver != Some(true) {
        ProceedAnswersOnce(identified, version, env, connect);
      }
  }

  lemma OnConnectAnswersOnce(
    s: ConnState, version: ProtocolVersion, env: Environment, connect: Connect, previousTakenOver: Option<bool>)
    requires AnsweredAtMostOnce(s, version, env)
    ensures AnsweredAtMostOnce(OnConnect(s, version, env, connect, previousTakenOver), version, env)
  {
    if s.open && s.stage == ConnectHandlerStage {
      HandleConnectAnswersOnce(s, version, env, connect, previousTakenOver);
    }
  }

  lemma OnPreviousDisconnectedAnswersOnce(s: ConnState, version: ProtocolVersion, env: Environment)
    requires AnsweredAtMostOnce(s, version, env)
    ensures AnsweredAtMostOnce(OnPreviousDisconnected(s, version, env), version, env)
  {
    if s.open && s.phase == AwaitingTakeover && s.validConnect.Some? {
      ProceedAnswersOnce(s, version, env, s.validConnect.value);
    }
  }

  lemma OnAuthenticatedAnswersOnce(
    s: ConnState, version: ProtocolVersion, env: Environment, connect: Connect, settings: Option<ClientSettings>)
    requires AnsweredAtMostOnce(s, version, env)
    requires s.open ==> s.phase == Authenticating && s.validConnect == Some(connect)
    ensures AnsweredAtMostOnce(OnAuthenticated(s, version, env, connect, settings), version, env)
  {
    if s.open {
      AuthorizeWillAnswersOnce(
        ApplySettings(s.(authInProgress := false, authenticated := Some(true)), settings),
        version, env, WithSettings(connect, settings));
    }
  }

  lemma OnWillAuthorizerResultAnswersOnce(
    s: ConnState, version: ProtocolVersion, env: Environment, connect: Connect, result: AuthorizerResult)
    requires AnsweredAtMostOnce(s, version, env) && connect.will.Some?
    requires s.open ==> s.phase == AwaitingWillAuthorization && ContinuesWith(s, connect)
    ensures AnsweredAtMostOnce(OnWillAuthorizerResult(s, version, env, connect, result), version, env)
  {
    if s.open && AuthorizerVerdict(result, s.permissions, connect.will.value.topic).Granted? {
      AdmitAnswersOnce(s, version, env, connect);
    }
  }

  /** Every expected event keeps admission answering at most once. */
  lemma NextAnswersAtMostOnce(s: ConnState, version: ProtocolVersion, env: Environment, e: Event)
    requires AnsweredAtMostOnce(s, version, env) && Expected(s, e)
    ensures AnsweredAtMostOnce(Next(s, version, env, e), version, env)
  {
    match e
    case ConnectReceived(c, p) => OnConnectAnswersOnce(s, version, env, c, p);
    case PreviousDisconnected => OnPreviousDisconnectedAnswersOnce(s, version, env);
    case Authenticated(c, settings) => OnAuthenticatedAnswersOnce(s, version, env, c, settings);
    case AuthenticationFailed(reason) =>
    case WillAuthorizerAnswered(c, result) =>
      if c.will.Some? {
        OnWillAuthorizerResultAnswersOnce(s, version, env, c, result);
      }
  }

  lemma {:induction false} RunAnswersAtMostOnce(s: ConnState, version: ProtocolVersion, env: Environment, events: seq<Event>)
    requires AnsweredAtMostOnce(s, version, env) && Orderly(s, version, env, events)
    ensures AnsweredAtMostOnce(Run(s, version, env, events), version, env)
    decreases |events|
  {
    if |events| > 0 {
      NextAnswersAtMostOnce(s, version, env, events[0]);
      RunAnswersAtMostOnce(Next(s, version, env, events[0]), version, env, events[1..]);
    }
  }

  /** Over any orderly run of a freshly opened connection, the client receives at most
      one CONNACK. An active connection received exactly one, the success CONNACK for
      the CONNECT it validated, which respects every server limit; and a will in that
      CONNECT was allowed by the connection's permissions unless a will authorizer
      decided. */
  lemma OrderlyAdmissionAnswersOnce(
    clientIdAssigned: bool, authUserProperties: Option<seq<UserProperty>>,
    permissions: Option<DefaultPermissions>, version: ProtocolVersion, env: Environment, events: seq<Event>)
    requires Orderly(Initial(clientIdAssigned, authUserProperties, permissions), version, env, events)
    ensures var r := Run(Initial(clientIdAssigned, authUserProperties, permissions), version, env, events);
      && |r.connacks| <= 1
      && (r.phase == Active ==>
            && r.open && |r.connacks| == 1 && r.connacks[0].code.IsSuccess()
            && r.validConnect.Some? && WithinLimits(version, r.validConnect.value, env.config)
            && r.connacks[0].(userProperties := [])
                 == SuccessConnack(version, r.validConnect.value, env.config, r.clientIdAssigned, None)
            && (r.validConnect.value.will.Some? && !env.willAuthorizerRegistered ==>
                  StaticVerdict(r.permissions, r.validConnect.value.will.value.topic).Granted?))
  {
    var s := Initial(clientIdAssigned, authUserProperties, permissions);
    RunAnswersAtMostOnce(s, version, env, events);
    RunKeepsConsistent(s, version, env, events);
  }

  // ---------------------------------------------------------------------------
  // The second-connect guard

  /** Once installed, the second-connect guard stays installed. */
  lemma GuardIsPermanent(s: ConnState, version: ProtocolVersion, env: Environment, e: Event)
    requires s.stage == DisallowSecondConnectStage
    ensures Next(s, version, env, e).stage == DisallowSecondConnectStage
  {
    if s.open {
      match e
      case ConnectReceived(c, p) =>
      case PreviousDisconnected =>
      case Authenticated(c, settings) =>
      case AuthenticationFailed(reason) =>
      case WillAuthorizerAnswered(c, result) =>
    }
  }

  lemma {:induction false} GuardStaysInstalled(s: ConnState, version: ProtocolVersion, env: Environment, events: seq<Event>)
    requires s.stage == DisallowSecondConnectStage
    ensures Run(s, version, env, events).stage == DisallowSecondConnectStage
    decreases |events|
  {
    if |events| > 0 {
      GuardIsPermanent(s, version, env, events[0]);
      GuardStaysInstalled(Next(s, version, env, events[0]), version, env, events[1..]);
    }
  }

  /** A second CONNECT on a connection, whatever happened after the first one and in
      either protocol version, leaves the connection closed, and is itself never
      answered with a CONNACK. */
  lemma SecondConnectCloses(
    s: ConnState, version: ProtocolVersion, env: Environment,
    first: Connect, firstPrevious: Option<bool>, between: seq<Event>,
    second: Connect, secondPrevious: Option<bool>)
    ensures var before := Run(Next(s, version, env, ConnectReceived(first, firstPrevious)), version, env, between);
      var after := Next(before, version, env, ConnectReceived(second, secondPrevious));
      !after.open && after.connacks == before.connacks
  {
    var afterFirst := Next(s, version, env, ConnectReceived(first, firstPrevious));
    if afterFirst.open {
      GuardStaysInstalled(afterFirst, version, env, between);
    } else {
      ClosedIsFinal(afterFirst, version, env, between);
    }
  }

  // ---------------------------------------------------------------------------
  // Validation

  /** A CONNECT that violates a server limit is refused before any admission work: the
      connection closes with the refusal of its protocol version (or none), observers are
      notified, and no authenticator is asked. */
  lemma InvalidConnectRefused(
    s: ConnState, version: ProtocolVersion, env: Environment, connect: Connect, previousTakenOver: Option<bool>)
    requires s.open && s.stage == ConnectHandlerStage
    requires !WithinLimits(version, connect, env.config)
    ensures var r := OnConnect(s, version, env, connect, previousTakenOver);
      && !r.open
      && r.connacks == s.connacks + RefusalFor(version, Validate(version, connect, env.config).value).ToSeq()
      && r.serverDisconnectEvents == s.serverDisconnectEvents + 1
      && r.authTasks == s.authTasks
      && r.keepAlive == s.keepAlive
  {
  }

  /** A connection stays open after its first CONNECT only if the CONNECT respects every
      server limit. */
  lemma OpenOnlyWithinLimits(
    s: ConnState, version: ProtocolVersion, env: Environment, connect: Connect, previousTakenOver: Option<bool>)
    requires s.open && s.stage == ConnectHandlerStage
    requires OnConnect(s, version, env, connect, previousTakenOver).open
    ensures WithinLimits(version, connect, env.config)
  {
    if !WithinLimits(version, connect, env.config) {
      InvalidConnectRefused(s, version, env, connect, previousTakenOver);
    }
  }

  // ---------------------------------------------------------------------------
  // Takeover

  lemma AuthorizeWillIgnoresPhase(s: ConnState, version: ProtocolVersion, env: Environment, connect: Connect, phase: Phase)
    requires s.open
    ensures AuthorizeWill(s.(phase := phase), version, env, connect) == AuthorizeWill(s, version, env, connect)
  {
    if connect.will.None? {
      AdmitIgnoresPhase(s, version, connect, env.config, phase);
    } else if !env.willAuthorizerRegistered {
      var v := StaticVerdict(s.permissions, connect.will.value.topic);
      if v.Granted? {
        AdmitIgnoresPhase(s, version, connect, env.config, phase);
      }
    }
  }

  lemma AdmitIgnoresPhase(s: ConnState, version: ProtocolVersion, connect: Connect, config: ServerConfig, phase: Phase)
    requires s.open
    ensures Admit(s.(phase := phase), version, connect, config) == Admit(s, version, connect, config)
  {
  }

  /** Negotiation and authentication do not depend on the phase they start from. */
  lemma ProceedIgnoresPhase(s: ConnState, version: ProtocolVersion, env: Environment, connect: Connect, phase: Phase)
    requires s.open
    ensures Proceed(s.(phase := phase), version, env, connect) == Proceed(s, version, env, connect)
  {
    var n := Negotiate(s, version, connect, env.config);
    assert Negotiate(s.(phase := phase), version, connect, env.config) == n.(phase := phase);
    if |env.authenticatorProviders| == 0 {
      var a := n.(authenticated := Some(false), permissions := Some(n.permissions.GetOr(EmptyPermissions)));
      AuthorizeWillIgnoresPhase(a, version, env, connect, phase);
    }
  }

  /** A takeover already in flight only delays admission: waiting for the previous
      connection's teardown and then resuming reaches exactly the state admission reaches
      when no takeover is in flight. */
  lemma TakeoverRetryMatchesDirectAdmission(
    s: ConnState, version: ProtocolVersion, env: Environment, connect: Connect)
    requires s.open && s.stage == ConnectHandlerStage
    requires WithinLimits(version, connect, env.config)
    ensures var waiting := OnConnect(s, version, env, connect, Some(true));
      && waiting.open && waiting.phase == AwaitingTakeover
      && waiting.connacks == s.connacks && waiting.authTasks == s.authTasks
      && waiting.validConnect == Some(connect)
      && OnPreviousDisconnected(waiting, version, env) == OnConnect(s, version, env, connect, None)
  {
    var identified := s.(stage := DisallowSecondConnectStage, clientId := Some(connect.clientId),
                         validConnect := Some(connect));
    ProceedIgnoresPhase(identified, version, env, connect, AwaitingTakeover);
    assert identified.(phase := AwaitingTakeover).(phase := identified.phase) == identified;
    ProceedIgnoresPhase(identified.(phase := AwaitingTakeover), version, env, connect, identified.phase);
  }

  // ---------------------------------------------------------------------------
  // Authentication

  /** Without authenticators a valid CONNECT without will is admitted unauthenticated: the
      connection becomes active with the negotiated keep-alive, session expiry, packet
      size limit and topic-alias mapping, a permission set, and a success CONNACK. */
  lemma AdmittedUnauthenticatedWithoutAuthenticators(
    s: ConnState, version: ProtocolVersion, env: Environment, connect: Connect, previousTakenOver: Option<bool>)
    requires s.open && s.stage == ConnectHandlerStage
    requires WithinLimits(version, connect, env.config)
    requires previousTakenOver != Some(true)
    requires |env.authenticatorProviders| == 0 && connect.will.None?
    ensures var r := OnConnect(s, version, env, connect, previousTakenOver);
      && r.open && r.phase == Active
      && r.authenticated == Some(false) && r.permissions.Some?
      && r.validConnect == Some(connect)
      && r.keepAlive == Some(
           if version == Mqtt5
           then NegotiateKeepAlive(connect.keepAlive, env.config.keepAliveMax, env.config.keepAliveAllowZero).keepAlive
           else connect.keepAlive)
      && r.sessionExpiry == Some(NegotiateSessionExpiry(connect.sessionExpiry, env.config.maxSessionExpiryInterval).sessionExpiry)
      && r.maxPacketSizeSend == (if version == Mqtt5 then Some(connect.maximumPacketSize) else None)
      && r.topicAliasSlots ==
           (if version == Mqtt5 && env.config.topicAliasEnabled then Some(env.config.topicAliasMaxPerClient as nat) else None)
      && r.connacks == s.connacks + [SuccessConnack(version, connect, env.config, s.clientIdAssigned, s.authUserProperties)]
      && r.authUserProperties.None?
      && r.authTasks == s.authTasks
  {
  }

  /** With N authenticators a valid CONNECT submits exactly the N authenticator tasks and
      waits for their verdict, without a CONNACK. */
  lemma AuthenticatorsConsulted(
    s: ConnState, version: ProtocolVersion, env: Environment, connect: Connect, previousTakenOver: Option<bool>)
    requires s.open && s.stage == ConnectHandlerStage
    requires WithinLimits(version, connect, env.config)
    requires previousTakenOver != Some(true)
    requires |env.authenticatorProviders| > 0
    ensures var r := OnConnect(s, version, env, connect, previousTakenOver);
      && r.open && r.phase == Authenticating
      && r.authTasks == s.authTasks + env.authenticatorProviders
      && |r.authTasks| == |s.authTasks| + |env.authenticatorProviders|
      && r.authInProgress == connect.authMethod.Some?
      && r.connacks == s.connacks
  {
  }

  /** Successful authentication of a CONNECT without will admits the client authenticated,
      with the "auth in progress" stage removed and the overriding client settings applied
      both to the connection and to the CONNECT admission continues with. */
  lemma AuthenticationAppliesSettings(
    s: ConnState, version: ProtocolVersion, env: Environment, connect: Connect, settings: ClientSettings)
    requires s.open && connect.will.None?
    ensures var r := OnAuthenticated(s, version, env, connect, Some(settings));
      && r.open && r.phase == Active
      && r.authenticated == Some(true) && !r.authInProgress
      && r.clientReceiveMaximum == Some(settings.receiveMaximum)
      && r.throttling == Some(settings.throttling)
      && WithSettings(connect, Some(settings)).receiveMaximum == settings.receiveMaximum
  {
  }

  /** The user properties of an authentication exchange replace the CONNECT's own in the
      MQTT 5 success CONNACK and are cleared from the connection once sent. */
  lemma AuthUserPropertiesFlushed(
    s: ConnState, env: Environment, connect: Connect, previousTakenOver: Option<bool>, props: seq<UserProperty>)
    requires s.open && s.stage == ConnectHandlerStage && s.authUserProperties == Some(props)
    requires WithinLimits(Mqtt5, connect, env.config)
    requires previousTakenOver != Some(true)
    requires |env.authenticatorProviders| == 0 && connect.will.None?
    ensures var r := OnConnect(s, Mqtt5, env, connect, previousTakenOver);
      && |r.connacks| == |s.connacks| + 1
      && r.connacks[|s.connacks|].userProperties == props
      && r.authUserProperties.None?
  {
    AdmittedUnauthenticatedWithoutAuthenticators(s, Mqtt5, env, connect, previousTakenOver);
  }

  // ---------------------------------------------------------------------------
  // Will authorization

  /** The will authorizer's answer decides admission: the client is admitted exactly when
      the verdict grants the will, and otherwise refused with the verdict's reason. */
  lemma WillAuthorizerAnswerDecides(
    s: ConnState, version: ProtocolVersion, env: Environment, connect: Connect, result: AuthorizerResult)
    requires s.open && connect.will.Some?
    ensures var r := OnWillAuthorizerResult(s, version, env, connect, result);
      var v := AuthorizerVerdict(result, s.permissions, connect.will.value.topic);
      && (r.open <==> v.Granted?)
      && (r.open ==> r.phase == Active)
      && |r.connacks| == |s.connacks| + 1
      && (v.Refused? ==> r.connacks[|s.connacks|] == RefusalConnack(version, v.reason))
  {
  }

  /** Without a will authorizer, a will whose topic the permissions deny (first matching
      rule, else the default) refuses the client as not authorized. */
  lemma DeniedWillRefused(s: ConnState, version: ProtocolVersion, env: Environment, connect: Connect, p: DefaultPermissions)
    requires s.open && connect.will.Some? && !env.willAuthorizerRegistered
    requires s.permissions == Some(p) && Evaluate(p, connect.will.value.topic) == Deny
    ensures var r := AuthorizeWill(s, version, env, connect);
      !r.open && r.connacks == s.connacks + [RefusalConnack(version, NotAuthorized)]
  {
  }
}
