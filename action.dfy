/**
 * The command-building rules inside the click handlers of the action panel
 * (`src/ui/action.rs`). Each handler reads its widgets into a form record
 * and either sends exactly one command or sends nothing; these functions give
 * that command, with `None` for "nothing sent".
 *
 * The commands are built in the shapes this file uses, which differ from the
 * ones `src/client.rs` declares (see module `Client`).
 */
module Action {
  import opened Results
  import opened Protocol
  import Client

  /**
   * The largest value a packet-id spin button can take. Its adjustment has
   * upper bound 65535 and page size 1, and GTK clamps a value to
   * `upper - page_size`.
   */
  const SpinMax := 65534

  /** Values of the subscribe and unsubscribe packet-id spin buttons: 1 to `SpinMax`. */
  type SpinPacketId = x: int | 1 <= x <= 65534 witness 1

  /** Values of the publish packet-id spin button: 0 to `SpinMax`. */
  type PublishSpin = x: int | 0 <= x <= 65534

  /** The commands the action panel sends. */
  datatype Command =
    | StartClient(builder: ClientBuilder)
    | ResumeSession(connection: Connection)
    | Ping
    | Publish(publish: PublishPacket)
    | Subscribe(packetId: U16, qos: QoSLevel, topic: string)
    | Unsubscribe(packetId: U16, topic: string)
    | StopClient

  /** The entry of the QoS combo box that stands for each level. */
  function QoSLabel(q: QoSLevel): string
  {
    match q
    case AtMostOnce => "At Most Once (QoS 0)"
    case AtLeastOnce => "At Least Once (QoS 1)"
    case ExactlyOnce => "Exactly Once (QoS 2)"
  }

  /**
   * The QoS of the combo box's active text: each entry gives its own level,
   * and any other text, or no selection, falls back to at-most-once.
   */
  function QoSFromLabel(text: Option<string>): (q: QoSLevel)
    ensures forall level :: text == Some(QoSLabel(level)) ==> q == level
    ensures (forall level :: text != Some(QoSLabel(level))) ==> q == AtMostOnce
  {
    match text
    case Some("At Most Once (QoS 0)") => AtMostOnce
    case Some("At Least Once (QoS 1)") => assert text == Some(QoSLabel(AtLeastOnce)); AtLeastOnce
    case Some("Exactly Once (QoS 2)") => assert text == Some(QoSLabel(ExactlyOnce)); ExactlyOnce
    case _ => AtMostOnce
  }

  /** The publish packet id: the spin value 0 means "no packet identifier". */
  function PublishPacketId(v: U16): (id: Option<U16>)
    ensures id.None? <==> v == 0
    ensures id.Some? ==> id.value == v && id.value != 0
  {
    if v == 0 then None else Some(v)
  }

  /** The spin value that shows a publish packet id (0 for none). */
  function SpinValue(id: Option<U16>): U16
  {
    match id
    case None => 0
    case Some(v) => v
  }

  /** Every packet id other than `Some(0)` is set by exactly one spin value. */
  lemma PublishPacketIdRoundTrip(id: Option<U16>, v: U16)
    ensures id != Some(0) ==> PublishPacketId(SpinValue(id)) == id
    ensures SpinValue(PublishPacketId(v)) == v
  {
  }

  datatype SubscribeForm = SubscribeForm(packetId: SpinPacketId, qosLabel: Option<string>, topic: string)

  /** The subscribe click: an empty topic sends nothing. */
  function SubscribeCommand(f: SubscribeForm): (c: Option<Command>)
    ensures c.Some? <==> f.topic != ""
    ensures c.Some? ==> c.value == Subscribe(f.packetId, QoSFromLabel(f.qosLabel), f.topic)
  {
    var qos := QoSFromLabel(f.qosLabel);
    if f.topic == "" then None else Some(Subscribe(f.packetId, qos, f.topic))
  }

  /**
   * The subscribe commands the panel can send are exactly those with a
   * non-empty topic and a packet id from 1 to `SpinMax`, for every QoS level.
   */
  lemma SubscribeImage(c: Command)
    ensures (exists f :: SubscribeCommand(f) == Some(c))
      <==> c.Subscribe? && c.topic != "" && 1 <= c.packetId <= SpinMax
  {
    if c.Subscribe? && c.topic != "" && 1 <= c.packetId <= SpinMax {
      var f := SubscribeForm(c.packetId, Some(QoSLabel(c.qos)), c.topic);
      assert SubscribeCommand(f) == Some(c);
    }
  }

  datatype UnsubscribeForm = UnsubscribeForm(packetId: SpinPacketId, topic: string)

  /** The unsubscribe click: an empty topic sends nothing. */
  function UnsubscribeCommand(f: UnsubscribeForm): (c: Option<Command>)
    ensures c.Some? <==> f.topic != ""
    ensures c.Some? ==> c.value == Unsubscribe(f.packetId, f.topic)
  {
    if f.topic == "" then None else Some(Unsubscribe(f.packetId, f.topic))
  }

  /** The unsubscribe commands the panel can send: non-empty topic, packet id from 1 to `SpinMax`. */
  lemma UnsubscribeImage(c: Command)
    ensures (exists f :: UnsubscribeCommand(f) == Some(c))
      <==> c.Unsubscribe? && c.topic != "" && 1 <= c.packetId <= SpinMax
  {
    if c.Unsubscribe? && c.topic != "" && 1 <= c.packetId <= SpinMax {
      assert UnsubscribeCommand(UnsubscribeForm(c.packetId, c.topic)) == Some(c);
    }
  }

  datatype PublishForm = PublishForm(packetId: PublishSpin, qosLabel: Option<string>, retain: bool, topic: string, message: string)

  /**
   * The publish click. `built` is the outcome of `Publish::new_with_message`
   * for these inputs, a call into the MQTT library: when it fails, or when the
   * topic is empty, nothing is sent; otherwise the packet carries the retain flag.
   */
  function PublishCommand(f: PublishForm, built: Result<()>): (c: Option<Command>)
    ensures c.Some? <==> f.topic != "" && built.Ok?
    ensures c.Some? ==> c.value.Publish?
    ensures c.Some? ==>
      c.value.publish == PublishPacket(PublishPacketId(f.packetId), f.topic, QoSFromLabel(f.qosLabel), f.message, f.retain)
  {
    var qos := QoSFromLabel(f.qosLabel);
    var packetId := PublishPacketId(f.packetId);
    if f.topic == "" then None
    else if built.Err? then None
    else Some(Publish(PublishPacket(packetId, f.topic, qos, f.message, f.retain)))
  }

  /**
   * Whenever the library builds the packet, the publish commands the panel can
   * send are exactly those with a non-empty topic and either no packet id or
   * one from 1 to `SpinMax`, for every QoS, payload and retain flag; when the
   * library refuses, nothing is sent.
   */
  lemma PublishImage(c: Command)
    ensures (exists f :: PublishCommand(f, Ok(())) == Some(c))
      <==> c.Publish? && c.publish.topic != ""
           && (c.publish.packetId.Some? ==> 1 <= c.publish.packetId.value <= SpinMax)
    ensures forall f, e :: PublishCommand(f, Err(e)) == None
  {
    if c.Publish? && c.publish.topic != "" && (c.publish.packetId.Some? ==> 1 <= c.publish.packetId.value <= SpinMax) {
      var p := c.publish;
      PublishPacketIdRoundTrip(p.packetId, 0);
      var f := PublishForm(SpinValue(p.packetId), Some(QoSLabel(p.qos)), p.retain, p.topic, p.payload);
      assert PublishCommand(f, Ok(())) == Some(c);
    }
  }

  /**
   * What the connect handler reads: the shared settings, the will delay and
   * the state of the "Resume Session" check.
   */
  datatype ConnectForm = ConnectForm(setting: Client.ClientSetting, willDelay: U32, resumeChecked: bool)

  /** The transport: TLS only when `with_tls` is set, credentials only when `with_credentials` is. */
  function ConnectionFor(s: Client.ClientSetting): (c: Connection)
    ensures c.host == s.host && c.port == s.port
    ensures c.tls <==> s.withTls
    ensures c.credentials.Some? <==> s.withCredentials
    ensures c.credentials.Some? ==> c.credentials.value == Credentials(s.username, s.password)
  {
    var plain := Connection(s.host, s.port, false, None);
    var secured := if s.withTls then plain.(tls := true) else plain;
    if s.withCredentials then secured.(credentials := Some(Credentials(s.username, s.password))) else secured
  }

  /** The client builder: session options from the settings, a will only when `with_will` is set. */
  function BuilderFor(f: ConnectForm): (b: ClientBuilder)
    ensures b.connection == ConnectionFor(f.setting)
    ensures b.clientId == f.setting.clientId && b.sessionExpiry == f.setting.sessionExpiry
    ensures b.autoAck == f.setting.autoAck && b.autoPacketId == f.setting.autoPacketId
    ensures b.pingResp == f.setting.withPingResp
    ensures b.will.Some? <==> f.setting.withWill
    ensures b.will.Some? ==> b.will.value == WillMessage(
      f.setting.willQos, f.setting.willRetain, f.setting.willTopic, f.setting.willPayload,
      f.willDelay, f.setting.willExpiry)
  {
    var s := f.setting;
    var builder := ClientBuilder(ConnectionFor(s), s.clientId, s.sessionExpiry, s.autoAck, s.autoPacketId, s.withPingResp, None);
    if s.withWill then
      var will := WillMessage(s.willQos, s.willRetain, s.willTopic, s.willPayload, f.willDelay, s.willExpiry);
      builder.(will := Some(will))
    else builder
  }

  /**
   * The connect toggle: activating it resumes the session when the check is
   * active and starts a fresh client otherwise; deactivating it stops the client.
   */
  function ConnectCommand(f: ConnectForm, active: bool): (c: Command)
    ensures c == StopClient <==> !active
    ensures c.ResumeSession? <==> active && f.resumeChecked
    ensures c.StartClient? <==> active && !f.resumeChecked
    ensures c.ResumeSession? ==> c.connection == ConnectionFor(f.setting)
    ensures c.StartClient? ==> c.builder == BuilderFor(f)
  {
    if !active then StopClient
    else if f.resumeChecked then ResumeSession(ConnectionFor(f.setting))
    else StartClient(BuilderFor(f))
  }

  /**
   * Connecting with the default settings starts a fresh client on
   * localhost:1883, in the clear, without credentials, with a 300-second
   * session expiry and an empty at-most-once will that expires after 300 seconds.
   */
  lemma DefaultSettingsConnect(uuid: string, willDelay: U32)
    ensures ConnectCommand(ConnectForm(Client.NewClientSetting(uuid), willDelay, false), true)
      == StartClient(ClientBuilder(
           Connection("localhost", 1883, false, None),
           "client-" + uuid, 300, true, true, false,
           Some(WillMessage(AtMostOnce, false, "", "", willDelay, 300))))
  {
  }
}
