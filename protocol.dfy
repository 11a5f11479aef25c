/**
 * Value shapes of the MQTT library (`vaux_mqtt`) and the client library
 * (`vaux_client`) that the core builds and passes around. Only the fields the
 * core sets or reads are kept; the libraries' own behaviour is not modelled.
 */
module Protocol {
  import opened Results

  /** Unsigned 16-bit values (ports, packet identifiers). */
  type U16 = x: int | 0 <= x < 0x1_0000

  /** Unsigned 32-bit values (expiry intervals in seconds). */
  type U32 = x: int | 0 <= x < 0x1_0000_0000

  /** The three delivery guarantees of MQTT 5.0 section 4.3. */
  datatype QoSLevel = AtMostOnce | AtLeastOnce | ExactlyOnce

  /** The control packet type number of MQTT 5.0 section 2.1.2 (CONNECT = 1 .. AUTH = 15). */
  type PacketType = x: int | 1 <= x <= 15 witness 1

  /** A decoded inbound packet; the runner forwards it without looking inside. */
  datatype Packet = Packet(kind: PacketType, packetId: Option<U16>)

  /** An outbound PUBLISH as built by `Publish::new_with_message(..).with_retain(..)`. */
  datatype PublishPacket = PublishPacket(packetId: Option<U16>, topic: string, qos: QoSLevel, payload: string, retain: bool)

  /** A last-will message (`WillMessage`) with its delay and expiry in seconds. */
  datatype WillMessage = WillMessage(qos: QoSLevel, retain: bool, topic: string, payload: string, delay: U32, expiry: U32)

  datatype Credentials = Credentials(username: string, password: string)

  /** Transport parameters (`MqttConnection`): TLS and credentials are optional. */
  datatype Connection = Connection(host: string, port: U16, tls: bool, credentials: Option<Credentials>)

  /** Session parameters collected by `ClientBuilder` before `build()`. */
  datatype ClientBuilder = ClientBuilder(
    connection: Connection,
    clientId: string,
    sessionExpiry: U32,
    autoAck: bool,
    autoPacketId: bool,
    pingResp: bool,
    will: Option<WillMessage>)
}
