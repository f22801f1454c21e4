/** The server-enforced limits a CONNECT must respect before any connection state
    changes, and the refusal each violated limit leads to. */
module Validation {
  import opened Options
  import opened Mqtt
  import opened Negotiation

  /** The first limit a CONNECT violates, in the order they are checked. */
  datatype ValidationFailure =
    | ClientIdTooLong
    | WillTopicWildcard
    | WillQosNotSupported
    | WillRetainNotSupported

  /** A topic name that holds a multi-level (`#`) or single-level (`+`) wildcard. */
  predicate ContainsWildcard(topic: string) {
    '#' in topic || '+' in topic
  }

  /** Reference definition: the CONNECT respects every limit at once. The will QoS
      limit applies to MQTT 5 connections only. */
  predicate WithinLimits(version: ProtocolVersion, connect: Connect, config: ServerConfig) {
    && |connect.clientId| <= config.maxClientIdLength
    && (connect.will.Some? ==>
          && !ContainsWildcard(connect.will.value.topic)
          && (version == Mqtt5 ==> connect.will.value.qos <= config.maximumQos)
          && (connect.will.value.retain ==> config.retainedMessagesEnabled))
  }

  /** The checks in order: client identifier length, will topic, will QoS, will retain. */
  function Validate(version: ProtocolVersion, connect: Connect, config: ServerConfig): (r: Option<ValidationFailure>)
    ensures r.None? <==> WithinLimits(version, connect, config)
    ensures r == Some(ClientIdTooLong) <==> |connect.clientId| > config.maxClientIdLength
    ensures r == Some(WillTopicWildcard) <==>
      && |connect.clientId| <= config.maxClientIdLength
      && connect.will.Some? && ContainsWildcard(connect.will.value.topic)
    ensures r == Some(WillQosNotSupported) <==>
      && |connect.clientId| <= config.maxClientIdLength
      && connect.will.Some? && !ContainsWildcard(connect.will.value.topic)
      && version == Mqtt5 && connect.will.value.qos > config.maximumQos
    ensures r == Some(WillRetainNotSupported) <==>
      && |connect.clientId| <= config.maxClientIdLength
      && connect.will.Some? && !ContainsWildcard(connect.will.value.topic)
      && (version == Mqtt5 ==> connect.will.value.qos <= config.maximumQos)
      && connect.will.value.retain && !config.retainedMessagesEnabled
  {
    if |connect.clientId| > config.maxClientIdLength then
      Some(ClientIdTooLong)
    else if connect.will.None? then
      None
    else if ContainsWildcard(connect.will.value.topic) then
      Some(WillTopicWildcard)
    else if version == Mqtt5 && connect.will.value.qos > config.maximumQos then
      Some(WillQosNotSupported)
    else if connect.will.value.retain && !config.retainedMessagesEnabled then
      Some(WillRetainNotSupported)
    else
      None
  }

  /** The MQTT 5 reason code for each failure. */
  function FailureReason(f: ValidationFailure): RefusalReason {
    match f
    case ClientIdTooLong => ClientIdentifierNotValid
    case WillTopicWildcard => TopicNameInvalid
    case WillQosNotSupported => QosNotSupported
    case WillRetainNotSupported => RetainNotSupported
  }

  /** The CONNACK sent before the connection closes, if any. A wildcard in an MQTT 3.1.1
      will topic is a protocol violation answered by closing without CONNACK; every other
      failure gets a negative CONNACK in the connection's protocol version. */
  function RefusalFor(version: ProtocolVersion, f: ValidationFailure): (r: Option<Connack>)
    ensures r.Some? ==> !r.value.code.IsSuccess()
    ensures version == Mqtt5 ==> r == Some(RefusalConnack(Mqtt5, FailureReason(f)))
    ensures version == Mqtt3 ==> (r.None? <==> f == WillTopicWildcard)
  {
    if version == Mqtt3 && f == WillTopicWildcard then None
    else Some(RefusalConnack(version, FailureReason(f)))
  }

  /** The version-dependent refusal of a retained will while retained messages are
      disabled: "not authorized" for MQTT 3.1.1, "retain not supported" for MQTT 5. */
  lemma RetainedWillRefusal()
    ensures RefusalFor(Mqtt3, WillRetainNotSupported)
      == Some(Connack(Mqtt3Code(RefusedNotAuthorized), None, None, None, []))
    ensures RefusalFor(Mqtt5, WillRetainNotSupported)
      == Some(Connack(Mqtt5Code(RetainNotSupported), None, None, None, []))
  {
  }

  /** An over-long client identifier is rejected as an identifier problem in both versions. */
  lemma ClientIdRefusal(version: ProtocolVersion)
    ensures RefusalFor(version, ClientIdTooLong).Some?
    ensures RefusalFor(version, ClientIdTooLong).value.code
      == (if version == Mqtt3 then Mqtt3Code(RefusedIdentifierRejected) else Mqtt5Code(ClientIdentifierNotValid))
  {
  }
}
