# Connection admission in an MQTT broker

This project models how the HiveMQ Community Edition broker admits a client connection.
The rules are the behaviour that `ConnectHandlerTest` pins on the broker's CONNECT handler.

When the first CONNECT packet arrives on a channel, the broker:

1. installs a guard that closes the channel on any later CONNECT;
2. validates the CONNECT against the server limits: client identifier length, wildcards in the will topic, will QoS and will retain;
3. takes over an earlier connection that uses the same client identifier;
4. negotiates the session expiry and, for MQTT 5.0, keep-alive, the maximum packet size, the receive maximum and the topic-alias mapping;
5. authenticates the client through the registered authenticators, or admits it as unauthenticated with default permissions;
6. authorizes the will message, through a will authorizer or the client's default permissions;
7. answers with at most one CONNACK. The proof covers every run in which each verdict arrives while the connection waits for it:
   - on success, the CONNACK echoes only the negotiated values the client did not ask for;
   - on refusal, a negative CONNACK in the client's protocol version (MQTT 3.1.1 or MQTT 5.0), followed by closing the channel and one server-disconnect notification.

Structure:

- `options.dfy`: the `Option` datatype.
- `mqtt.dfy`: reason codes, MQTT 3.1.1 return codes, and the CONNECT and CONNACK packets as values.
- `negotiation.dfy`: the server configuration, keep-alive and session-expiry negotiation, and the success CONNACK.
- `validation.dfy`: CONNECT validation and the refusal each failure produces.
- `permissions.dfy`: first-match evaluation of topic permissions.
- `will_authorization.dfy`: the decision on the will message.
- `admission.dfy`: the state of one connection (`ConnState`) and the step function for each event the handler reacts to (`Next`, `Run`).
- `admission_properties.dfy`: invariants and properties of runs of those steps.
- `connection.dfy`: the imperative handler.
  - `ConnectionContext` holds the channel attributes as fields.
  - `ConnectHandler`'s methods update those fields in place.
  - Each method is proved to change the state exactly as the matching step function says, and to keep the consistency invariant.
- `scenarios.dfy`: the test cases of `ConnectHandlerTest`, as methods that drive the handler and assert what each test asserts.

The network, timers, persistence, metrics and extension executors are not modelled.
Their results become parameters or events:

- whether an earlier connection with the same identifier exists, and whether it was already taken over;
- the verdicts of the authenticators and of the will authorizer;
- the disconnect signal of a connection being taken over.

## Model

| member | source | states |
|---|---|---|
| Mqtt.ReasonCode.Value | src/test/java/com/hivemq/mqtt/handler/connect/ConnectHandlerTest.java:835-862 | every MQTT 5.0 reason code is one byte, and the success codes are exactly those below 0x80, so RETAIN_NOT_SUPPORTED in a CONNACK is a refusal |
| Mqtt.Mqtt3ReturnCode.Value | src/test/java/com/hivemq/mqtt/handler/connect/ConnectHandlerTest.java:773-803 | MQTT 3.1.1 return codes are 0..5, and only ACCEPTED is 0 |
| Mqtt.Mqtt3ReturnCodeFor | src/test/java/com/hivemq/mqtt/handler/connect/ConnectHandlerTest.java:773-803 | maps an MQTT 5 CONNACK reason to the MQTT 3.1.1 return code: success to ACCEPTED, and RETAIN_NOT_SUPPORTED (like every code without a counterpart) to REFUSED_NOT_AUTHORIZED |
| Mqtt.ConnackCodeFor | src/test/java/com/hivemq/mqtt/handler/connect/ConnectHandlerTest.java:773-889 | the CONNACK code is in the connection's protocol version and is a success exactly when the reason is SUCCESS; for MQTT 3.1.1 it is the return code the reason maps to |
| Mqtt.RefusalConnack | src/test/java/com/hivemq/mqtt/handler/connect/ConnectHandlerTest.java:835-862 | a refusal CONNACK carries a non-success code and no negotiated fields, assigned identifier or user properties |
| Negotiation.NegotiateKeepAlive | src/test/java/com/hivemq/mqtt/handler/connect/ConnectHandlerTest.java:228-347 | keep-alive never exceeds the server maximum; a zero the server refuses, or a value above the maximum, becomes the maximum and is sent back as server keep-alive; an accepted value is kept and not sent back |
| Negotiation.KeepAliveEchoedIffChanged | src/test/java/com/hivemq/mqtt/handler/connect/ConnectHandlerTest.java:269-347 | with a positive maximum, the server keep-alive is present exactly when the negotiated value differs from the request |
| Negotiation.KeepAliveIdempotent | src/test/java/com/hivemq/mqtt/handler/connect/ConnectHandlerTest.java:309-347 | a request equal to the negotiated value is accepted unchanged and without a server keep-alive |
| Negotiation.NegotiateSessionExpiry | src/test/java/com/hivemq/mqtt/handler/connect/ConnectHandlerTest.java:433-470 | the session expiry is the minimum of request and server maximum, reported in the CONNACK exactly when it differs from the request |
| Negotiation.SessionExpiryIdempotent | src/test/java/com/hivemq/mqtt/handler/connect/ConnectHandlerTest.java:367-387 | a request at or below the maximum (including the maximum itself) is kept and not reported |
| Negotiation.SuccessConnack | src/test/java/com/hivemq/mqtt/handler/connect/ConnectHandlerTest.java:472-586 | the admitting CONNACK is a success; for MQTT 5 it carries the assigned identifier exactly when the server assigned it, server keep-alive and session expiry exactly when they were overridden, and the authentication's user properties |
| Validation.Validate | src/test/java/com/hivemq/mqtt/handler/connect/ConnectHandlerTest.java:662-757 | the CONNECT passes exactly when it is within the server limits (identifier length, no wildcard in the will topic, will QoS for MQTT 5, retained will only if retained messages are enabled); each failure is reported exactly when every earlier check passes and its own check fails, so the first limit broken is the one named |
| Validation.RefusalFor | src/test/java/com/hivemq/mqtt/handler/connect/ConnectHandlerTest.java:662-757 | a wildcard will topic closes an MQTT 3.1.1 connection without a CONNACK; every other failure, and every MQTT 5 failure, is a negative CONNACK with the failure's reason |
| Validation.RetainedWillRefusal | src/test/java/com/hivemq/mqtt/handler/connect/ConnectHandlerTest.java:773-862 | a retained will without retained-message support is refused with REFUSED_NOT_AUTHORIZED (MQTT 3.1.1) or RETAIN_NOT_SUPPORTED (MQTT 5) |
| Validation.ClientIdRefusal | src/test/java/com/hivemq/mqtt/handler/connect/ConnectHandlerTest.java:662-757 | a too-long client identifier is refused with a negative CONNACK in either version |
| Permissions.FirstMatch | src/test/java/com/hivemq/mqtt/handler/connect/ConnectHandlerTest.java:1114-1216 | returns the index of the first rule matching the topic, or none exactly when no rule matches |
| Permissions.EvaluateAllowIff | src/test/java/com/hivemq/mqtt/handler/connect/ConnectHandlerTest.java:1114-1216 | a topic is allowed exactly when its first matching rule allows it, or no rule matches and the default behaviour is ALLOW |
| Permissions.PrependedMatchDecides | src/test/java/com/hivemq/mqtt/handler/connect/ConnectHandlerTest.java:1166-1190 | a matching rule placed first decides the outcome whatever follows |
| Permissions.AppendedNonMatchIrrelevant | src/test/java/com/hivemq/mqtt/handler/connect/ConnectHandlerTest.java:1140-1216 | appending a rule that does not match the topic leaves the outcome unchanged |
| WillAuthorization.ExplicitReason | src/test/java/com/hivemq/mqtt/handler/connect/ConnectHandlerTest.java:1067-1089 | an authorizer's explicit disconnect reason is kept when it is a CONNACK refusal code, and otherwise becomes NOT_AUTHORIZED |
| WillAuthorization.PermissionVerdict | src/test/java/com/hivemq/mqtt/handler/connect/ConnectHandlerTest.java:1091-1216 | the will is granted exactly when permissions exist and allow its topic; otherwise it is refused with NOT_AUTHORIZED |
| WillAuthorization.AuthorizerVerdict | src/test/java/com/hivemq/mqtt/handler/connect/ConnectHandlerTest.java:1021-1216 | a successful authorizer grants; a failing one refuses with the CONNACK reason for its explicit disconnect reason, or NOT_AUTHORIZED when it names none; a deferring one leaves the decision to the permissions |
| WillAuthorization.StaticVerdict | src/test/java/com/hivemq/mqtt/handler/connect/ConnectHandlerTest.java:1218-1241 | without a will authorizer, missing permissions grant the will and present permissions decide |
| WillAuthorization.DeferringAuthorizerIsTransparent | src/test/java/com/hivemq/mqtt/handler/connect/ConnectHandlerTest.java:1114-1216 | an authorizer that defers gives the same verdict as the permissions alone |
| WillAuthorization.AuthorizerGrantedIff | src/test/java/com/hivemq/mqtt/handler/connect/ConnectHandlerTest.java:1021-1216 | the authorizer path grants exactly when the authorizer succeeds, or it defers and the permissions allow the topic |
| WillAuthorization.ExplicitReasonPropagates | src/test/java/com/hivemq/mqtt/handler/connect/ConnectHandlerTest.java:1067-1089 | for every connection's permissions and every will topic, an explicit reason that is a CONNACK refusal code is passed to the client unchanged, and any other explicit reason becomes NOT_AUTHORIZED |
| Admission.Initial | src/test/java/com/hivemq/mqtt/handler/connect/ConnectHandlerTest.java:1304-1329 | a fresh channel is open, awaits its CONNECT with the CONNECT handler installed, has sent nothing and satisfies the consistency invariant |
| Admission.Refuse | src/test/java/com/hivemq/mqtt/handler/connect/ConnectHandlerTest.java:662-682 | refusing closes the channel, sends at most the one given CONNACK and raises exactly one server-disconnect notification |
| Admission.Admit | src/test/java/com/hivemq/mqtt/handler/connect/ConnectHandlerTest.java:546-586 | admitting makes the connection active, sends the success CONNACK and drops the authentication's user properties |
| Admission.Conclude | src/test/java/com/hivemq/mqtt/handler/connect/ConnectHandlerTest.java:1044-1065 | the connection stays open exactly when the verdict grants the will; exactly one CONNACK is appended, a success that makes the connection active on a grant, and the refusal CONNACK for the verdict's reason otherwise |
| Admission.AuthorizeWill | src/test/java/com/hivemq/mqtt/handler/connect/ConnectHandlerTest.java:996-1241 | without a will the client is admitted; with a will authorizer the connection waits for its answer and sends nothing; otherwise it stays open exactly when the static verdict grants |
| Admission.Negotiate | src/test/java/com/hivemq/mqtt/handler/connect/ConnectHandlerTest.java:349-431 | stores the capped session expiry for both versions; for MQTT 5 also the negotiated keep-alive, the client's maximum packet size and receive maximum, and a topic-alias mapping of the server's size exactly when aliases are enabled; for MQTT 3.1.1 the client's keep-alive and none of the MQTT 5 values; changes nothing else |
| Admission.Authenticate | src/test/java/com/hivemq/mqtt/handler/connect/ConnectHandlerTest.java:895-994 | with authenticators, a task per authenticator is submitted and the auth-in-progress guard is installed when the CONNECT carries an authentication method; without them the client is unauthenticated and gets default permissions |
| Admission.HandleConnect | src/test/java/com/hivemq/mqtt/handler/connect/ConnectHandlerTest.java:588-628 | whatever the CONNECT, the second-CONNECT guard is installed in place of the CONNECT handler (refusal and takeover are stated by the lemmas below) |
| Admission.OnConnect | src/test/java/com/hivemq/mqtt/handler/connect/ConnectHandlerTest.java:164-208 | a CONNECT after the first one closes the channel without a CONNACK; a closed channel ignores it |
| Admission.OnPreviousDisconnected | src/test/java/com/hivemq/mqtt/handler/connect/ConnectHandlerTest.java:630-660 | the disconnect of a predecessor changes nothing unless this connection is waiting for it, and never replaces the CONNECT this connection validated |
| Admission.OnAuthenticated | src/test/java/com/hivemq/mqtt/handler/connect/ConnectHandlerTest.java:1243-1263 | successful authentication clears the auth-in-progress guard, marks the client authenticated and stores the receive maximum and throttling from the client settings |
| Admission.OnAuthenticationFailed | src/test/java/com/hivemq/mqtt/handler/connect/ConnectHandlerTest.java:929-947 | the negative outcome of the authentication tasks submitted here: it closes the channel with a refusal CONNACK carrying the authenticators' reason, and is ignored by a closed channel (the test does not assert this path) |
| Admission.OnWillAuthorizerResult | src/test/java/com/hivemq/mqtt/handler/connect/ConnectHandlerTest.java:1021-1216 | the will authorizer's answer keeps the connection open exactly when its verdict grants the will |
| Admission.MarkTakenOver | src/test/java/com/hivemq/mqtt/handler/connect/ConnectHandlerTest.java:609-628 | taking over a connection marks it and closes it |
| AdmissionProperties.NextKeepsConsistent | src/test/java/com/hivemq/mqtt/handler/connect/ConnectHandlerTest.java:164-1263 | every event keeps the invariant: open exactly when not closed, active only after a success CONNACK, closed after any refusal, at most one server-disconnect notification and only once closed |
| AdmissionProperties.RunKeepsConsistent | src/test/java/com/hivemq/mqtt/handler/connect/ConnectHandlerTest.java:164-1263 | the invariant holds after any sequence of events |
| AdmissionProperties.MarkTakenOverKeepsConsistent | src/test/java/com/hivemq/mqtt/handler/connect/ConnectHandlerTest.java:609-628 | a taken-over connection still satisfies the invariant |
| AdmissionProperties.ClosedIsFinal | src/test/java/com/hivemq/mqtt/handler/connect/ConnectHandlerTest.java:164-208 | once closed, no sequence of events changes the connection |
| AdmissionProperties.NextSendsAtMostOneConnack | src/test/java/com/hivemq/mqtt/handler/connect/ConnectHandlerTest.java:662-757 | each event sends at most one CONNACK, never rewrites earlier ones, and raises a server-disconnect notification exactly when it closes the channel |
| AdmissionProperties.NextAnswersAtMostOnce | src/test/java/com/hivemq/mqtt/handler/connect/ConnectHandlerTest.java:164-1263 | an event the connection is waiting for keeps the single-answer invariant: no CONNACK before the first CONNECT or while suspended, at most one in all, exactly one once active, a validated CONNECT within the server limits from validation on, and an active connection answered with the success CONNACK for that CONNECT, its will allowed by the permissions unless a will authorizer decided |
| AdmissionProperties.RunAnswersAtMostOnce | src/test/java/com/hivemq/mqtt/handler/connect/ConnectHandlerTest.java:164-1263 | the single-answer invariant holds after any run in which every event is one the connection is waiting for, with authentication and will-authorizer verdicts about the validated CONNECT |
| AdmissionProperties.OrderlyAdmissionAnswersOnce | src/test/java/com/hivemq/mqtt/handler/connect/ConnectHandlerTest.java:164-1263 | from a freshly opened channel, any such run sends at most one CONNACK; an active connection got exactly one, the success CONNACK for its validated CONNECT, which respects every server limit, and a will in it was allowed by the connection's permissions unless a will authorizer decided |
| AdmissionProperties.GuardIsPermanent | src/test/java/com/hivemq/mqtt/handler/connect/ConnectHandlerTest.java:588-607 | no event removes the second-CONNECT guard |
| AdmissionProperties.GuardStaysInstalled | src/test/java/com/hivemq/mqtt/handler/connect/ConnectHandlerTest.java:588-607 | the guard stays installed after any sequence of events |
| AdmissionProperties.SecondConnectCloses | src/test/java/com/hivemq/mqtt/handler/connect/ConnectHandlerTest.java:164-208 | after a first CONNECT and any later events, a second CONNECT leaves the channel closed with no further CONNACK |
| AdmissionProperties.InvalidConnectRefused | src/test/java/com/hivemq/mqtt/handler/connect/ConnectHandlerTest.java:662-757 | a CONNECT beyond the server limits closes the channel with the failure's refusal, one notification, no authentication and no negotiation |
| AdmissionProperties.OpenOnlyWithinLimits | src/test/java/com/hivemq/mqtt/handler/connect/ConnectHandlerTest.java:662-889 | a connection still open after its CONNECT was within the server limits |
| AdmissionProperties.ProceedIgnoresPhase | src/test/java/com/hivemq/mqtt/handler/connect/ConnectHandlerTest.java:630-660 | admission after validation does not depend on the phase it resumes from |
| AdmissionProperties.TakeoverRetryMatchesDirectAdmission | src/test/java/com/hivemq/mqtt/handler/connect/ConnectHandlerTest.java:630-660 | if the predecessor was already taken over, the connection waits, sending nothing; once the predecessor disconnects it proceeds exactly as if no predecessor had existed |
| AdmissionProperties.AdmittedUnauthenticatedWithoutAuthenticators | src/test/java/com/hivemq/mqtt/handler/connect/ConnectHandlerTest.java:949-994 | with no authenticators and no will, a valid CONNECT is admitted unauthenticated with default permissions, the negotiated values and the success CONNACK |
| AdmissionProperties.AuthenticatorsConsulted | src/test/java/com/hivemq/mqtt/handler/connect/ConnectHandlerTest.java:929-947 | with authenticators, a valid CONNECT submits one task per authenticator and waits without a CONNACK; the auth-in-progress guard follows the authentication method |
| AdmissionProperties.AuthenticationAppliesSettings | src/test/java/com/hivemq/mqtt/handler/connect/ConnectHandlerTest.java:1243-1263 | after successful authentication, a client without a will is admitted with the receive maximum and throttling from its settings |
| AdmissionProperties.AuthUserPropertiesFlushed | src/test/java/com/hivemq/mqtt/handler/connect/ConnectHandlerTest.java:546-586 | the user properties of the authentication exchange go into the success CONNACK and are then cleared |
| AdmissionProperties.WillAuthorizerAnswerDecides | src/test/java/com/hivemq/mqtt/handler/connect/ConnectHandlerTest.java:1021-1089 | the will authorizer's answer sends exactly one CONNACK, admits exactly when granted, and refuses with the verdict's reason |
| AdmissionProperties.DeniedWillRefused | src/test/java/com/hivemq/mqtt/handler/connect/ConnectHandlerTest.java:1166-1216 | without an authorizer, permissions that deny the will topic refuse the client with NOT_AUTHORIZED |
| Connection.ConnectionContext.constructor | src/test/java/com/hivemq/mqtt/handler/connect/ConnectHandlerTest.java:1304-1329 | a new channel context is in the initial state and satisfies the invariant |
| Connection.ConnectionContext.MarkTakenOver | src/test/java/com/hivemq/mqtt/handler/connect/ConnectHandlerTest.java:609-628 | marks the context as taken over and closes it, keeping the invariant |
| Connection.ConnectionContext.SignalDisconnect | src/test/java/com/hivemq/mqtt/handler/connect/ConnectHandlerTest.java:630-660 | records the disconnect signal of a connection being taken over |
| Connection.ConnectHandler.Negotiate | src/test/java/com/hivemq/mqtt/handler/connect/ConnectHandlerTest.java:389-431 | updates the connection's attributes as Admission.Negotiate does, with a freshly allocated topic-alias array of the mapping's size |
| Connection.ConnectHandler.NegotiateMqtt5 | src/test/java/com/hivemq/mqtt/handler/connect/ConnectHandlerTest.java:228-431 | writes the MQTT 5 keep-alive against the server's policy, the client's packet size and receive maximum, and allocates a fresh topic-alias array of the server's per-client size exactly when aliases are enabled |
| Connection.ConnectHandler.NegotiateMqtt3 | src/test/java/com/hivemq/mqtt/handler/connect/ConnectHandlerTest.java:228-431 | keeps the client's keep-alive and clears the MQTT 5 limits and the topic-alias mapping |
| Connection.ConnectHandler.MarkUnauthenticated | src/test/java/com/hivemq/mqtt/handler/connect/ConnectHandlerTest.java:949-994 | marks the client unauthenticated and gives it a fresh permission set unless it has one, changing nothing else |
| Connection.ConnectHandler.AwaitAuthenticators | src/test/java/com/hivemq/mqtt/handler/connect/ConnectHandlerTest.java:895-927 | suspends admission for the authenticators, with the auth-in-progress stage exactly when enhanced authentication was requested, changing nothing else |
| Connection.ConnectHandler.SubmitAuthenticatorTasks | src/test/java/com/hivemq/mqtt/handler/connect/ConnectHandlerTest.java:929-947 | appends one task per registered authenticator, in order, and changes no other attribute |
| Connection.ConnectHandler.Authenticate | src/test/java/com/hivemq/mqtt/handler/connect/ConnectHandlerTest.java:895-994 | updates the connection as Admission.Authenticate does |
| Connection.ConnectHandler.TakeOverAndProceed | src/test/java/com/hivemq/mqtt/handler/connect/ConnectHandlerTest.java:609-660 | marks an untaken predecessor as taken over and proceeds; a predecessor already taken over makes this connection wait |
| Connection.ConnectHandler.InstallGuard | src/test/java/com/hivemq/mqtt/handler/connect/ConnectHandlerTest.java:588-607 | replaces the CONNECT handler by the second-CONNECT guard and changes nothing else |
| Connection.ConnectHandler.Identify | src/test/java/com/hivemq/mqtt/handler/connect/ConnectHandlerTest.java:609-660 | records the client identifier and the validated CONNECT for the takeover continuation, changing nothing else |
| Connection.ConnectHandler.HandleConnect | src/test/java/com/hivemq/mqtt/handler/connect/ConnectHandlerTest.java:588-628 | installs the guard, validates and hands over to takeover and authentication, as Admission.HandleConnect does |
| Connection.ConnectHandler.OnConnect | src/test/java/com/hivemq/mqtt/handler/connect/ConnectHandlerTest.java:164-208 | handles a CONNECT as Admission.OnConnect does, keeps the invariant, and touches the registered predecessor only to take it over |
| Connection.ConnectHandler.OnPreviousDisconnected | src/test/java/com/hivemq/mqtt/handler/connect/ConnectHandlerTest.java:630-660 | resumes a waiting connection with the CONNECT it validated when its predecessor disconnects, keeping the invariant, and re-marks the predecessor as taken over |
| Connection.ConnectHandler.ApplySettings | src/test/java/com/hivemq/mqtt/handler/connect/ConnectHandlerTest.java:1243-1263 | writes only the receive maximum and throttling attributes |
| Connection.ConnectHandler.MarkAuthenticated | src/test/java/com/hivemq/mqtt/handler/connect/ConnectHandlerTest.java:1243-1263 | marks the client authenticated and removes the auth-in-progress stage, changing nothing else |
| Connection.ConnectHandler.ConnectSuccessfulAuthenticated | src/test/java/com/hivemq/mqtt/handler/connect/ConnectHandlerTest.java:1243-1263 | continues after successful authentication as Admission.OnAuthenticated does, and returns the CONNECT with the client's receive maximum applied |
| Connection.ConnectHandler.ConnectAuthenticationFailed | src/test/java/com/hivemq/mqtt/handler/connect/ConnectHandlerTest.java:929-947 | refuses the connection as Admission.OnAuthenticationFailed does, keeping the invariant |
| Connection.ConnectHandler.OnWillAuthorizerResult | src/test/java/com/hivemq/mqtt/handler/connect/ConnectHandlerTest.java:1021-1216 | concludes the will authorization as Admission.OnWillAuthorizerResult does, keeping the invariant |

## Left out

- The handler's Java source is not part of this model. The behaviour follows the assertions of `ConnectHandlerTest`, and the MQTT 3.1.1 and 5.0 standards where the tests leave a detail open.
- src/main/java/com/hivemq/extensions/services/interceptor/Interceptors.java: an interface with no behaviour, so it is not modelled. src/main/java/com/hivemq/extensions/services/interceptor/GlobalInterceptorRegistryImpl.java only checks for null and delegates to Interceptors, so it is not modelled either.
- Admission.Negotiate: the topic-alias mapping of an MQTT 5 connection has the server's per-client maximum as its size, as the topic-alias test shows (no client request, mapping of 5). The MQTT 5.0 reading min(client request, server maximum) is not modelled.
- Admission.Negotiate: the client's maximum packet size and receive maximum are stored as sent. No clamping to server limits is modelled.
- Admission.Negotiate: an MQTT 3.1.1 connection keeps the client's keep-alive, since MQTT 3.1.1 has no server keep-alive to announce a replacement. The tests pin keep-alive negotiation only on MQTT 5 channels.
- The continuations (authentication verdicts, the will authorizer's answer, a predecessor's disconnect) do not check the connection's phase, because the tests call them directly on fresh channels. So a verdict delivered twice would send a second CONNACK. Likewise, the authentication and will-authorizer verdicts carry a CONNECT of their own, and the handler does not compare it with the one it validated. The single-CONNACK property is proved only for runs in which each continuation arrives while the connection waits for it and is about the validated CONNECT, up to a receive maximum an authenticator overrides.
- Validation.Validate: the client-identifier length counts Unicode characters. Java's `String.length()` counts UTF-16 code units, so an identifier with characters outside the Basic Multilingual Plane is longer there than here.
- An empty client identifier from a client whose identifier the server does not assign is not refused here. Identifier assignment is an input, and the tests pin no refusal for it.
- The CONNACK's receive-maximum, maximum-packet-size and topic-alias-maximum fields are not modelled. The TopicAliasLimiter memory accounting is not modelled either.
- Closing is instantaneous. The window in which a taken-over channel is still open before teardown is not modelled, and neither is the DISCONNECT packet sent to the taken-over client.
- Authenticators' verdicts arrive as events. Their aggregation across several authenticators, the enhanced-authentication exchange (AUTH packets) and the policy for clients that send no authentication method while authenticators exist are not modelled.
- WillAuthorization.AuthorizerVerdict: of the authorizer's results, only success, failure (with or without a disconnect reason) and "next extension or default" are modelled.
- Permissions.Matches: a topic filter matches a topic only when the two are equal. The '+' and '#' wildcard matching of filters is not modelled.
- Forwarding of unrelated channel events (`test_wrong_event_is_passed_through`), the plugin connect-event flag, persistence, metrics and the event log are not modelled.
- Client-identifier generation is not modelled (whether the identifier was assigned is an input). Wire encoding and decoding of packets is not modelled either.
- For MQTT 3.1.1, the session expiry derived from the clean-session flag is not modelled. The session expiry is taken from the CONNECT value.
- Validation.RefusalFor: an MQTT 3.1.1 client with a too-long identifier gets CONNACK IDENTIFIER_REJECTED (MQTT 3.1.1 section 3.1.3.1), not a bare close. A wildcard will topic closes the channel without a CONNACK. The tests pin only the closure and the server-disconnect notification.
