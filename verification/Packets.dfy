/** Decoded MQTT packets, as far as the broker looks at them. */
module Packets {
  import opened Prelude

  type Topic = string
  type Payload = seq<bv8>
  type PacketId = nat

  const U32_RANGE: nat := 0x1_0000_0000

  /** An unsigned 32-bit integer. */
  type U32 = n: int | 0 <= n < U32_RANGE

  datatype QoS = AtMostOnce | AtLeastOnce | ExactlyOnce

  datatype PublishPacket = PublishPacket(
    topic: Topic,
    payload: Payload,
    qos: QoS,
    retain: bool,
    packetId: Option<PacketId>,
    expiry: Option<U32>)

  /** A packet as the packet builder makes it from topic and payload alone. */
  function Built(topic: Topic, payload: Payload, retain: bool): PublishPacket {
    PublishPacket(topic, payload, AtMostOnce, retain, None, None)
  }

  datatype TopicFilter =
    | Concrete(name: Topic)
    | Wildcard(name: Topic)
    | SharedConcrete(name: Topic)
    | SharedWildcard(name: Topic)

  datatype SubscribeCode = GrantedQoSZero | WildcardNotSupported | SharedNotSupported

  datatype UnsubscribeCode = Unsubscribed | NoSubscriptionExisted | ImplementationSpecificError

  datatype PublishAckReason = Success | UnspecifiedError
}
