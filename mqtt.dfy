/** The vocabulary of the CONNECT / CONNACK exchange: protocol versions, bounded
    integers, reason codes (MQTT 5.0) and return codes (MQTT 3.1.1), and the
    packets the admission logic reads and writes. */
module Mqtt {
  import opened Options

  /** A two-byte integer, as used for keep-alive and receive maximum. */
  type uint16 = x: int | 0 <= x < 0x1_0000

  /** A four-byte integer, as used for session expiry and maximum packet size. */
  type uint32 = x: int | 0 <= x < 0x1_0000_0000

  /** The largest session expiry interval; MQTT 5.0 section 3.1.2.11.2 reads it as "never expires". */
  const SESSION_EXPIRY_MAX: uint32 := 0xFFFF_FFFF

  /** MQTT 3.1 and 3.1.1 share one CONNACK format, so one constructor stands for both. */
  datatype ProtocolVersion = Mqtt3 | Mqtt5

  /** Quality-of-service level of a publish: 0 at most once, 1 at least once, 2 exactly once. */
  type QoS = q: int | 0 <= q <= 2

  /** The reason codes of MQTT 5.0 (section 2.4) that a CONNACK (section 3.2.2.2) or a
      DISCONNECT (section 3.14.2.1) can carry. One value space serves both packets;
      0x00 reads "Success" in a CONNACK and "Normal disconnection" in a DISCONNECT. */
  datatype ReasonCode =
    | Success
    | DisconnectWithWill
    | UnspecifiedError
    | MalformedPacket
    | ProtocolError
    | ImplementationSpecificError
    | UnsupportedProtocolVersion
    | ClientIdentifierNotValid
    | BadUserNameOrPassword
    | NotAuthorized
    | ServerUnavailable
    | ServerBusy
    | Banned
    | ServerShuttingDown
    | BadAuthenticationMethod
    | KeepAliveTimeout
    | SessionTakenOver
    | TopicFilterInvalid
    | TopicNameInvalid
    | ReceiveMaximumExceeded
    | TopicAliasInvalid
    | PacketTooLarge
    | MessageRateTooHigh
    | QuotaExceeded
    | AdministrativeAction
    | PayloadFormatInvalid
    | RetainNotSupported
    | QosNotSupported
    | UseAnotherServer
    | ServerMoved
    | SharedSubscriptionsNotSupported
    | ConnectionRateExceeded
    | MaximumConnectTime
    | SubscriptionIdentifiersNotSupported
    | WildcardSubscriptionsNotSupported
  {
    /** The codes that MQTT 5.0 section 2.4 counts as success (values below 0x80). */
    predicate IsSuccessCode() {
      this == Success || this == DisconnectWithWill
    }

    /** The one-byte wire value; values below 0x80 are exactly the success codes. */
    function Value(): (b: int)
      ensures 0 <= b < 0x100
      ensures b < 0x80 <==> IsSuccessCode()
    {
      match this
      case Success => 0x00
      case DisconnectWithWill => 0x04
      case UnspecifiedError => 0x80
      case MalformedPacket => 0x81
      case ProtocolError => 0x82
      case ImplementationSpecificError => 0x83
      case UnsupportedProtocolVersion => 0x84
      case ClientIdentifierNotValid => 0x85
      case BadUserNameOrPassword => 0x86
      case NotAuthorized => 0x87
      case ServerUnavailable => 0x88
      case ServerBusy => 0x89
      case Banned => 0x8A
      case ServerShuttingDown => 0x8B
      case BadAuthenticationMethod => 0x8C
      case KeepAliveTimeout => 0x8D
      case SessionTakenOver => 0x8E
      case TopicFilterInvalid => 0x8F
      case TopicNameInvalid => 0x90
      case ReceiveMaximumExceeded => 0x93
      case TopicAliasInvalid => 0x94
      case PacketTooLarge => 0x95
      case MessageRateTooHigh => 0x96
      case QuotaExceeded => 0x97
      case AdministrativeAction => 0x98
      case PayloadFormatInvalid => 0x99
      case RetainNotSupported => 0x9A
      case QosNotSupported => 0x9B
      case UseAnotherServer => 0x9C
      case ServerMoved => 0x9D
      case SharedSubscriptionsNotSupported => 0x9E
      case ConnectionRateExceeded => 0x9F
      case MaximumConnectTime => 0xA0
      case SubscriptionIdentifiersNotSupported => 0xA1
      case WildcardSubscriptionsNotSupported => 0xA2
    }

    /** The codes MQTT 5.0 section 3.2.2.2 allows in a CONNACK. */
    predicate InConnack() {
      match this
      case Success | UnspecifiedError | MalformedPacket | ProtocolError
        | ImplementationSpecificError | UnsupportedProtocolVersion
        | ClientIdentifierNotValid | BadUserNameOrPassword | NotAuthorized
        | ServerUnavailable | ServerBusy | Banned | BadAuthenticationMethod
        | TopicNameInvalid | PacketTooLarge | QuotaExceeded | PayloadFormatInvalid
        | RetainNotSupported | QosNotSupported | UseAnotherServer | ServerMoved
        | ConnectionRateExceeded => true
      case _ => false
    }

    /** The codes MQTT 5.0 section 3.14.2.1 allows in a DISCONNECT. */
    predicate InDisconnect() {
      match this
      case UnsupportedProtocolVersion | ClientIdentifierNotValid | BadUserNameOrPassword
        | ServerUnavailable | Banned => false
      case _ => true
    }
  }

  /** A reason code a CONNACK may carry. */
  type ConnAckReason = r: ReasonCode | r.InConnack() witness Success

  /** A reason code of a negative CONNACK: a CONNACK code other than Success. */
  type RefusalReason = r: ReasonCode | r.InConnack() && r != Success witness NotAuthorized

  /** A reason code a DISCONNECT may carry, as an extension hands it to the broker. */
  type DisconnectReason = r: ReasonCode | r.InDisconnect() witness Success

  /** The CONNACK return codes of MQTT 3.1.1, section 3.2.2.3. */
  datatype Mqtt3ReturnCode =
    | Accepted
    | RefusedUnacceptableProtocolVersion
    | RefusedIdentifierRejected
    | RefusedServerUnavailable
    | RefusedBadUserNameOrPassword
    | RefusedNotAuthorized
  {
    /** The one-byte wire value, 0 to 5 in the order of section 3.2.2.3. */
    function Value(): (b: int)
      ensures 0 <= b <= 5
      ensures b == 0 <==> this == Accepted
    {
      match this
      case Accepted => 0
      case RefusedUnacceptableProtocolVersion => 1
      case RefusedIdentifierRejected => 2
      case RefusedServerUnavailable => 3
      case RefusedBadUserNameOrPassword => 4
      case RefusedNotAuthorized => 5
    }
  }

  /** The MQTT 3.1.1 return code sent where an MQTT 5 client would get `reason`.
      The five MQTT 5 codes that have an MQTT 3.1.1 counterpart keep their meaning;
      every other refusal is reported as "not authorized". */
  function Mqtt3ReturnCodeFor(reason: ConnAckReason): (c: Mqtt3ReturnCode)
    ensures c == Accepted <==> reason == Success
    ensures c == RefusedUnacceptableProtocolVersion <==> reason == UnsupportedProtocolVersion
    ensures c == RefusedIdentifierRejected <==> reason == ClientIdentifierNotValid
    ensures c == RefusedServerUnavailable <==> reason == ServerUnavailable
    ensures c == RefusedBadUserNameOrPassword <==> reason == BadUserNameOrPassword
  {
    match reason
    case Success => Accepted
    case UnsupportedProtocolVersion => RefusedUnacceptableProtocolVersion
    case ClientIdentifierNotValid => RefusedIdentifierRejected
    case ServerUnavailable => RefusedServerUnavailable
    case BadUserNameOrPassword => RefusedBadUserNameOrPassword
    case _ => RefusedNotAuthorized
  }

  /** A user property: an ordered name/value pair. */
  datatype UserProperty = UserProperty(name: string, value: string)

  /** The will publish a client declares in its CONNECT. */
  datatype WillPublish = WillPublish(topic: string, qos: QoS, retain: bool)

  /** The fields of an inbound CONNECT that admission reads. The protocol version is
      not here: it belongs to the connection, which the decoder set before. */
  datatype Connect = Connect(
    clientId: string,
    keepAlive: uint16,
    sessionExpiry: uint32,
    receiveMaximum: uint16,
    maximumPacketSize: uint32,
    authMethod: Option<string>,
    userProperties: seq<UserProperty>,
    will: Option<WillPublish>)

  /** The status field of a CONNACK: a return code for MQTT 3, a reason code for MQTT 5. */
  datatype ConnackCode = Mqtt3Code(returnCode: Mqtt3ReturnCode) | Mqtt5Code(reason: ConnAckReason) {
    predicate IsSuccess() {
      match this
      case Mqtt3Code(c) => c == Accepted
      case Mqtt5Code(r) => r == Success
    }
  }

  /** The CONNACK fields admission decides. An absent session expiry or server keep-alive
      is the "not set" sentinel: the client's own request stands. MQTT 3.1.1 CONNACKs carry
      no properties, so for them every optional field is absent. */
  datatype Connack = Connack(
    code: ConnackCode,
    sessionExpiry: Option<uint32>,
    serverKeepAlive: Option<uint16>,
    assignedClientId: Option<string>,
    userProperties: seq<UserProperty>)

  /** The status a connection of `version` receives for `reason`. */
  function ConnackCodeFor(version: ProtocolVersion, reason: ConnAckReason): (c: ConnackCode)
    ensures c.IsSuccess() <==> reason == Success
    ensures version == Mqtt5 ==> c == Mqtt5Code(reason)
    ensures version == Mqtt3 ==> c == Mqtt3Code(Mqtt3ReturnCodeFor(reason))
  {
    match version
    case Mqtt3 => Mqtt3Code(Mqtt3ReturnCodeFor(reason))
    case Mqtt5 => Mqtt5Code(reason)
  }

  /** A negative CONNACK: only the status, no properties. */
  function RefusalConnack(version: ProtocolVersion, reason: RefusalReason): (c: Connack)
    ensures !c.code.IsSuccess()
    ensures c.sessionExpiry.None? && c.serverKeepAlive.None? && c.assignedClientId.None?
    ensures c.userProperties == []
  {
    Connack(ConnackCodeFor(version, reason), None, None, None, [])
  }
}
