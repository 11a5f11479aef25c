/**
 * The session runner of `src/client.rs`: the settings defaults, the command
 * surface the runner accepts, and the `run` loop that multiplexes inbound
 * packets and operator commands over three mutable slots (`running`, `client`,
 * `packet_consumer`).
 *
 * Every call into the client library and every channel operation whose outcome
 * the runner cannot decide (`build()`, `try_start`, `take_packet_consumer`,
 * `ping`, `stop`, `mqtt_tx.send`) is an input: the verifier covers every outcome.
 * What the runner prints is recorded as a `Note`, and every foreign call it
 * makes as a `Call`, in the order the loop makes them.
 */
module Client {
  import opened Results
  import opened Protocol

  /** `DEFAULT_EXPIRY_SECONDS`: five minutes. */
  const DefaultExpirySeconds: U32 := 300

  /** The fixed connect deadline handed to `try_start`. */
  const ConnectTimeoutSeconds: nat := 10

  /** The settings the presentation layer edits, one value per shared cell. */
  datatype ClientSetting = ClientSetting(
    clientId: string,
    withTls: bool,
    caFile: string,
    clientCert: string,
    host: string,
    port: U16,
    sessionExpiry: U32,
    autoAck: bool,
    autoPacketId: bool,
    withPingResp: bool,
    withCredentials: bool,
    username: string,
    password: string,
    withWill: bool,
    willTopic: string,
    willPayload: string,
    willQos: QoSLevel,
    willRetain: bool,
    willExpiry: U32)

  /** `ClientSetting::new`; `uuid` stands for the freshly generated v4 UUID's text. */
  function NewClientSetting(uuid: string): (s: ClientSetting)
    ensures s.clientId == "client-" + uuid
    ensures s.host == "localhost" && s.port == 1883
    ensures !s.withTls && s.caFile == "" && s.clientCert == ""
    ensures s.sessionExpiry == DefaultExpirySeconds && s.willExpiry == DefaultExpirySeconds
    ensures s.autoAck && s.autoPacketId && !s.withPingResp
    ensures !s.withCredentials && s.username == "" && s.password == ""
    ensures s.withWill && s.willTopic == "" && s.willPayload == ""
    ensures s.willQos == AtMostOnce && !s.willRetain
  {
    ClientSetting(
      clientId := "client-" + uuid,
      withTls := false, caFile := "", clientCert := "",
      host := "localhost", port := 1883,
      sessionExpiry := DefaultExpirySeconds,
      autoAck := true, autoPacketId := true, withPingResp := false,
      withCredentials := false, username := "", password := "",
      withWill := true, willTopic := "", willPayload := "",
      willQos := AtMostOnce, willRetain := false,
      willExpiry := DefaultExpirySeconds)
  }

  /** The commands the runner accepts, as this file declares them. */
  datatype Command =
    | StartClient(builder: ClientBuilder)
    | Ping
    | Publish(topic: string, payload: string)
    | Subscribe(topic: string)
    | Unsubscribe(topic: string)
    | StopClient
    | StopRunner

  /** Identity of one `MqttClient` returned by `build()`. */
  datatype ClientToken = ClientToken(id: nat)

  /** Identity of one packet receiver returned by `take_packet_consumer()`. */
  datatype ConsumerToken = ConsumerToken(id: nat)

  /** The three locals of `run`. */
  datatype RunnerState = RunnerState(running: bool, client: Option<ClientToken>, consumer: Option<ConsumerToken>)

  /** `running = true`, no client, no packet consumer. */
  const Initial := RunnerState(true, None, None)

  /** What the client library answers, for whichever of these calls the command makes. */
  datatype Replies = Replies(
    build: Result<ClientToken>,
    start: Result<()>,
    taken: Option<ConsumerToken>,
    ping: Result<()>,
    stop: Result<()>)

  /** Foreign calls the runner makes. `Forward` is `mqtt_tx.send`. */
  datatype Call =
    | Build
    | TryStart(timeoutSeconds: nat, waitForAck: bool)
    | TakePacketConsumer
    | SendPing
    | Stop
    | Forward(packet: Packet)

  /** The messages the runner prints. */
  datatype Note =
    | PacketReceived(packet: Packet)
    | ConsumerClosed
    | SendPanicked(sendError: string)
    | UnwrapPanicked
    | StartRequested
    | ClientBuilt
    | StartFailed(buildError: string)
    | ConnectFailed(startError: string)
    | PingFailed(pingError: string)
    | PingWithoutClient
    | Published(topic: string, payload: string)
    | Subscribed(topic: string)
    | Unsubscribed(topic: string)
    | StopRequested
    | StopFailed(stopError: string)
    | Stopped
    | NoClientToStop
    | RunnerStopped
    | CommandChannelClosed
  {
    /** Printed on standard error (`eprintln!` or the panic of `expect`). */
    predicate IsError() {
      SendPanicked? || UnwrapPanicked? || StartFailed? || ConnectFailed? || PingFailed? || PingWithoutClient? || StopFailed?
    }
  }

  datatype Effect = Say(note: Note) | Invoke(call: Call)

  datatype Transition = Transition(next: RunnerState, effects: seq<Effect>)

  /**
   * The packet arm, enabled only while a consumer is installed. A received
   * packet is printed and sent to the observer queue; a failed send panics
   * (`expect`), which ends the loop. A closed consumer is only reported.
   */
  function PacketStep(s: RunnerState, packet: Option<Packet>, send: Result<()>): (t: Transition)
    requires s.consumer.Some?
    ensures t.next.client == s.client && t.next.consumer == s.consumer
    ensures t.next.running <==> s.running && !(packet.Some? && send.Err?)
  {
    match packet
    case None => Transition(s, [Say(ConsumerClosed)])
    case Some(p) =>
      var delivered := [Say(PacketReceived(p)), Invoke(Forward(p))];
      match send
      case Ok(_) => Transition(s, delivered)
      case Err(e) => Transition(s.(running := false), delivered + [Say(SendPanicked(e))])
  }

  /** The command arm; `None` is the closed command channel. */
  function CommandStep(s: RunnerState, command: Option<Command>, r: Replies): (t: Transition)
    ensures t.next.running <==> s.running && !(command.None? || command == Some(StopRunner))
    ensures t.next.consumer != s.consumer ==>
      command.Some? && command.value.StartClient? && r.build.Ok? && r.start.Ok? && t.next.consumer == r.taken
    ensures forall e | e in t.effects :: !(e.Invoke? && e.call.Forward?)
  {
    match command
    case None => Transition(s.(running := false), [Say(CommandChannelClosed)])
    case Some(StartClient(_)) =>
      var tried := [Say(StartRequested), Invoke(Build)];
      (match r.build
       case Err(e) => Transition(s, tried + [Say(StartFailed(e))])
       case Ok(c) =>
         var started := tried + [Say(ClientBuilt), Invoke(TryStart(ConnectTimeoutSeconds, true))];
         (match r.start
          case Err(e) => Transition(s, started + [Say(ConnectFailed(e))])
          case Ok(_) => Transition(s.(client := Some(c), consumer := r.taken), started + [Invoke(TakePacketConsumer)])))
    case Some(Ping) =>
      if s.client.None? then Transition(s, [Say(PingWithoutClient)])
      else if r.ping.Ok? then Transition(s, [Invoke(SendPing)])
      else Transition(s, [Invoke(SendPing), Say(PingFailed(r.ping.error))])
    case Some(Publish(topic, payload)) => Transition(s, [Say(Published(topic, payload))])
    case Some(Subscribe(topic)) => Transition(s, [Say(Subscribed(topic))])
    case Some(Unsubscribe(topic)) => Transition(s, [Say(Unsubscribed(topic))])
    case Some(StopClient) =>
      if s.client.None? then Transition(s, [Say(StopRequested), Say(NoClientToStop)])
      else
        var outcome := if r.stop.Ok? then Say(Stopped) else Say(StopFailed(r.stop.error));
        Transition(s.(client := None), [Say(StopRequested), Invoke(Stop), outcome])
    case Some(StopRunner) => Transition(s.(running := false), [Say(RunnerStopped)])
  }

  /** One branch of `select!` that became ready, with the outcomes of the calls it makes. */
  datatype Ready =
    | PacketReady(packet: Option<Packet>, send: Result<()>)
    | CommandReady(command: Option<Command>, replies: Replies)

  /**
   * The consumer slot after one ready branch: only a `StartClient` whose
   * `build()` and `try_start` both succeed installs a consumer (the one
   * `take_packet_consumer` gives, possibly none).
   */
  function NextConsumer(consumer: Option<ConsumerToken>, ready: Ready): Option<ConsumerToken>
  {
    match ready
    case CommandReady(Some(StartClient(_)), r) => if r.build.Ok? && r.start.Ok? then r.taken else consumer
    case _ => consumer
  }

  /**
   * One iteration of the loop as intended: while no consumer is installed the
   * packet branch is disabled and a ready packet is not handled. (The code as
   * written panics instead; see `SelectAsWritten`.)
   */
  function Select(s: RunnerState, ready: Ready): (t: Transition)
    ensures t.next.consumer == NextConsumer(s.consumer, ready)
    ensures t.next.client != s.client ==> ready.CommandReady?
  {
    match ready
    case PacketReady(packet, send) =>
      if s.consumer.Some? then PacketStep(s, packet, send) else Transition(s, [])
    case CommandReady(command, r) => CommandStep(s, command, r)
  }

  datatype RunResult = RunResult(final: RunnerState, effects: seq<Effect>, consumed: nat)

  /**
   * The loop `while running { select! .. }` over a script of ready branches,
   * with the intended `Select`. It stops early only once `running` is cleared.
   */
  function Trace(s: RunnerState, script: seq<Ready>): (t: RunResult)
    ensures t.consumed <= |script|
    ensures t.consumed < |script| ==> !t.final.running
    decreases |script|
  {
    if !s.running || script == [] then RunResult(s, [], 0)
    else
      var t := Select(s, script[0]);
      var rest := Trace(t.next, script[1..]);
      RunResult(rest.final, t.effects + rest.effects, rest.consumed + 1)
  }

  /**
   * One iteration as the code is written. `select!` evaluates every branch's
   * expression, the disabled ones included, before it polls; the packet
   * branch's `packet_consumer.as_mut().unwrap()` therefore panics whenever no
   * consumer is installed, before anything is received, and the task ends.
   */
  function SelectAsWritten(s: RunnerState, ready: Ready): (t: Transition)
    ensures s.consumer.Some? ==> t == Select(s, ready)
    ensures s.consumer.None? ==> !t.next.running
    ensures s.consumer.None? ==> forall e | e in t.effects :: e.Say? && e.note.IsError()
  {
    if s.consumer.None? then Transition(s.(running := false), [Say(UnwrapPanicked)])
    else Select(s, ready)
  }

  /** The loop as the code is written, iterating `SelectAsWritten`. */
  function TraceAsWritten(s: RunnerState, script: seq<Ready>): (t: RunResult)
    ensures t.consumed <= |script|
    ensures t.consumed < |script| ==> !t.final.running
    decreases |script|
  {
    if !s.running || script == [] then RunResult(s, [], 0)
    else
      var t := SelectAsWritten(s, script[0]);
      var rest := TraceAsWritten(t.next, script[1..]);
      RunResult(rest.final, t.effects + rest.effects, rest.consumed + 1)
  }

  /** The runner actor, its three locals as fields. */
  class Runner {
    var running: bool
    var client: Option<ClientToken>
    var consumer: Option<ConsumerToken>
    /** Every packet handed to the observer queue so far. */
    ghost var forwarded: seq<Packet>

    function State(): RunnerState
      reads this
    {
      RunnerState(running, client, consumer)
    }

    constructor ()
      ensures State() == Initial && forwarded == []
    {
      running, client, consumer := true, None, None;
      forwarded := [];
    }

    /** The packet branch of `select!`, taken only while a consumer is installed. */
    method OnPacket(packet: Option<Packet>, send: Result<()>) returns (effects: seq<Effect>)
      requires consumer.Some?
      modifies this
      ensures State() == PacketStep(old(State()), packet, send).next
      ensures effects == PacketStep(old(State()), packet, send).effects
      ensures forwarded == old(forwarded) + (if packet.Some? then [packet.value] else [])
    {
      match packet {
        case None =>
          effects := [Say(ConsumerClosed)];
        case Some(p) =>
          effects := [Say(PacketReceived(p)), Invoke(Forward(p))];
          forwarded := forwarded + [p];
          if send.Err? {
            effects := effects + [Say(SendPanicked(send.error))];
            running := false;
          }
      }
    }

    /** The command branch of `select!`; `None` means the command channel closed. */
    method OnCommand(command: Option<Command>, r: Replies) returns (effects: seq<Effect>)
      modifies this
      ensures State() == CommandStep(old(State()), command, r).next
      ensures effects == CommandStep(old(State()), command, r).effects
      ensures forwarded == old(forwarded)
    {
      match command {
        case Some(StartClient(_)) =>
          effects := [Say(StartRequested), Invoke(Build)];
          match r.build {
            case Ok(c) =>
              effects := effects + [Say(ClientBuilt), Invoke(TryStart(ConnectTimeoutSeconds, true))];
              match r.start {
                case Ok(_) =>
                  effects := effects + [Invoke(TakePacketConsumer)];
                  consumer := r.taken;
                  client := Some(c);
                case Err(e) =>
                  effects := effects + [Say(ConnectFailed(e))];
              }
            case Err(e) =>
              effects := effects + [Say(StartFailed(e))];
          }
        case Some(Ping) =>
          if client.Some? {
            effects := [Invoke(SendPing)];
            if r.ping.Err? {
              effects := effects + [Say(PingFailed(r.ping.error))];
            }
          } else {
            effects := [Say(PingWithoutClient)];
          }
        case Some(Publish(topic, payload)) =>
          effects := [Say(Published(topic, payload))];
        case Some(Subscribe(topic)) =>
          effects := [Say(Subscribed(topic))];
        case Some(Unsubscribe(topic)) =>
          effects := [Say(Unsubscribed(topic))];
        case Some(StopClient) =>
          effects := [Say(StopRequested)];
          if client.Some? {
            client := None;
            effects := effects + [Invoke(Stop)];
            if r.stop.Err? {
              effects := effects + [Say(StopFailed(r.stop.error))];
            } else {
              effects := effects + [Say(Stopped)];
            }
          } else {
            effects := effects + [Say(NoClientToStop)];
          }
        case Some(StopRunner) =>
          effects := [Say(RunnerStopped)];
          running := false;
        case None =>
          effects := [Say(CommandChannelClosed)];
          running := false;
      }
    }
  }

  /**
   * `run`: a fresh runner loops while it is running and the script still has a
   * ready branch; the caller's script plays the part of `select!`.
   */
  method Run(script: seq<Ready>) returns (final: RunnerState, effects: seq<Effect>, consumed: nat)
    ensures Trace(Initial, script) == RunResult(final, effects, consumed)
    ensures Forwarded(effects) == DeliveredPackets(None, script[..consumed])
  {
    var runner := new Runner();
    effects, consumed := [], 0;
    while runner.running && consumed < |script|
      invariant consumed <= |script|
      invariant var t := Trace(runner.State(), script[consumed..]);
        Trace(Initial, script) == RunResult(t.final, effects + t.effects, consumed + t.consumed)
    {
      var step: seq<Effect>;
      ghost var before := runner.State();
      match script[consumed] {
        case PacketReady(packet, send) =>
          if runner.consumer.Some? {
            step := runner.OnPacket(packet, send);
          } else {
            step := [];
          }
        case CommandReady(command, r) =>
          step := runner.OnCommand(command, r);
      }
      assert script[consumed..][1..] == script[consumed + 1..];
      assert step == Select(before, script[consumed]).effects;
      effects := effects + step;
      consumed := consumed + 1;
    }
    final := runner.State();
    TraceForwardsDeliveredPackets(Initial, script);
  }

  /** The packets handed to the observer queue, in order. */
  function Forwarded(effects: seq<Effect>): seq<Packet>
  {
    if effects == [] then []
    else
      var head := if effects[0].Invoke? && effects[0].call.Forward? then [effects[0].call.packet] else [];
      head + Forwarded(effects[1..])
  }

  lemma {:induction false} ForwardedAppend(a: seq<Effect>, b: seq<Effect>)
    ensures Forwarded(a + b) == Forwarded(a) + Forwarded(b)
  {
    if a == [] {
      assert a + b == b;
    } else {
      assert (a + b)[1..] == a[1..] + b;
      ForwardedAppend(a[1..], b);
    }
  }

  /** Effects that neither receive nor forward a packet. */
  ghost predicate Quiet(e: seq<Effect>)
  {
    forall i :: 0 <= i < |e| ==> !(e[i].Say? && e[i].note.PacketReceived?) && !(e[i].Invoke? && e[i].call.Forward?)
  }

  lemma {:induction false} QuietForwardsNothing(e: seq<Effect>)
    requires Quiet(e)
    ensures Forwarded(e) == []
  {
    if e != [] {
      assert forall i :: 0 <= i < |e| - 1 ==> e[1..][i] == e[i + 1];
      QuietForwardsNothing(e[1..]);
    }
  }

  /**
   * One iteration forwards exactly the packet that arrived on the installed
   * consumer, and nothing otherwise.
   */
  lemma SelectForwards(s: RunnerState, ready: Ready)
    ensures Forwarded(Select(s, ready).effects)
      == if ready.PacketReady? && ready.packet.Some? && s.consumer.Some? then [ready.packet.value] else []
  {
    var e := Select(s, ready).effects;
    if ready.PacketReady? && ready.packet.Some? && s.consumer.Some? {
      PacketForwardedUnchanged(s, ready.packet.value, ready.send);
    } else {
      assert Quiet(e);
      QuietForwardsNothing(e);
    }
  }

  /**
   * The packets the script delivers on an installed consumer, in order. The
   * consumer slot is tracked by `NextConsumer` alone.
   */
  function DeliveredPackets(consumer: Option<ConsumerToken>, script: seq<Ready>): seq<Packet>
    decreases |script|
  {
    if script == [] then []
    else
      var ready := script[0];
      var head := if ready.PacketReady? && ready.packet.Some? && consumer.Some? then [ready.packet.value] else [];
      head + DeliveredPackets(NextConsumer(consumer, ready), script[1..])
  }

  /**
   * Packet forwarding over the whole loop: the packets sent to the observer
   * queue are exactly the packets delivered on an installed consumer by the
   * branches the loop handles, in arrival order, none dropped or repeated.
   */
  lemma {:induction false} TraceForwardsDeliveredPackets(s: RunnerState, script: seq<Ready>)
    ensures Forwarded(Trace(s, script).effects) == DeliveredPackets(s.consumer, script[..Trace(s, script).consumed])
    decreases |script|
  {
    if s.running && script != [] {
      var t := Select(s, script[0]);
      var rest := Trace(t.next, script[1..]);
      TraceForwardsDeliveredPackets(t.next, script[1..]);
      SelectForwards(s, script[0]);
      ForwardedAppend(t.effects, rest.effects);
      var k := rest.consumed;
      assert script[..k + 1][0] == script[0];
      assert script[..k + 1][1..] == script[1..][..k];
    } else {
      assert script[..0] == [];
    }
  }

  /** A `StartClient` that succeeds but leaves no packet consumer installed. */
  predicate StartsWithoutConsumer(ready: Ready)
  {
    ready.CommandReady? && ready.command.Some? && ready.command.value.StartClient?
    && ready.replies.build.Ok? && ready.replies.start.Ok? && ready.replies.taken.None?
  }

  /** Every packet that arrives in the script, in order. */
  function PacketsOf(script: seq<Ready>): seq<Packet>
  {
    if script == [] then []
    else
      var head := if script[0].PacketReady? && script[0].packet.Some? then [script[0].packet.value] else [];
      head + PacketsOf(script[1..])
  }

  lemma {:induction false} DeliveredWhileInstalled(consumer: Option<ConsumerToken>, script: seq<Ready>)
    requires consumer.Some?
    requires forall i | 0 <= i < |script| :: !StartsWithoutConsumer(script[i])
    ensures DeliveredPackets(consumer, script) == PacketsOf(script)
    decreases |script|
  {
    if script != [] {
      assert !StartsWithoutConsumer(script[0]);
      assert forall i | 0 <= i < |script| - 1 :: script[1..][i] == script[i + 1];
      DeliveredWhileInstalled(NextConsumer(consumer, script[0]), script[1..]);
    }
  }

  /**
   * While a consumer stays installed, every packet that arrives before the
   * loop stops is forwarded, in order, none dropped or repeated.
   */
  lemma ForwardsEveryArrivingPacket(s: RunnerState, script: seq<Ready>)
    requires s.consumer.Some?
    requires forall i | 0 <= i < |script| :: !StartsWithoutConsumer(script[i])
    ensures Forwarded(Trace(s, script).effects) == PacketsOf(script[..Trace(s, script).consumed])
  {
    var k := Trace(s, script).consumed;
    TraceForwardsDeliveredPackets(s, script);
    assert forall i | 0 <= i < k :: script[..k][i] == script[i];
    DeliveredWhileInstalled(s.consumer, script[..k]);
  }

  /** Each received packet is sent to the observer queue by the very next effect. */
  ghost predicate ForwardsOnReceipt(e: seq<Effect>)
  {
    forall i :: 0 <= i < |e| && e[i].Say? && e[i].note.PacketReceived? ==>
      i + 1 < |e| && e[i + 1] == Invoke(Forward(e[i].note.packet))
  }

  lemma ForwardsOnReceiptAppend(a: seq<Effect>, b: seq<Effect>)
    requires ForwardsOnReceipt(a) && ForwardsOnReceipt(b)
    ensures ForwardsOnReceipt(a + b)
  {
    forall i | 0 <= i < |a + b| && (a + b)[i].Say? && (a + b)[i].note.PacketReceived?
      ensures i + 1 < |a + b| && (a + b)[i + 1] == Invoke(Forward((a + b)[i].note.packet))
    {
      if i >= |a| {
        assert (a + b)[i] == b[i - |a|];
      }
    }
  }

  lemma {:induction false} TraceForwardsOnReceipt(s: RunnerState, script: seq<Ready>)
    ensures ForwardsOnReceipt(Trace(s, script).effects)
    decreases |script|
  {
    if s.running && script != [] {
      var t := Select(s, script[0]);
      TraceForwardsOnReceipt(t.next, script[1..]);
      assert ForwardsOnReceipt(t.effects);
      ForwardsOnReceiptAppend(t.effects, Trace(t.next, script[1..]).effects);
    }
  }

  /** A ready branch whose handling ends the loop when it is taken. */
  predicate EndsLoop(ready: Ready)
  {
    match ready
    case CommandReady(None, _) => true
    case CommandReady(Some(StopRunner), _) => true
    case PacketReady(Some(_), Err(_)) => true
    case _ => false
  }

  /**
   * One iteration clears `running` exactly when it handles `StopRunner`, a
   * closed command channel, or a packet whose forwarding failed.
   */
  lemma SelectStops(s: RunnerState, ready: Ready)
    ensures Select(s, ready).next.running
      == (s.running && !(EndsLoop(ready) && (ready.CommandReady? || s.consumer.Some?)))
  {
  }

  /**
   * The loop consumes the script until it stops: it leaves ready branches
   * untouched only after `running` was cleared, and it clears `running` only
   * on a branch that ends the loop.
   */
  lemma {:induction false} TraceRunsUntilStopped(s: RunnerState, script: seq<Ready>)
    requires s.running
    ensures !Trace(s, script).final.running ==>
      0 < Trace(s, script).consumed && EndsLoop(script[Trace(s, script).consumed - 1])
    decreases |script|
  {
    if script != [] {
      var t := Select(s, script[0]);
      SelectStops(s, script[0]);
      if t.next.running {
        TraceRunsUntilStopped(t.next, script[1..]);
        var rest := Trace(t.next, script[1..]);
        if !rest.final.running {
          assert script[rest.consumed] == script[1..][rest.consumed - 1];
        }
      }
    }
  }

  /**
   * `StopRunner` or a closed command channel ends the loop at once: nothing
   * ready after it is handled.
   */
  lemma {:induction false} StopRunnerEndsLoop(s: RunnerState, script: seq<Ready>, k: nat)
    requires s.running
    requires k < |script| && script[k].CommandReady?
    requires script[k].command.None? || script[k].command == Some(StopRunner)
    requires forall j :: 0 <= j < k ==> !EndsLoop(script[j])
    ensures Trace(s, script).consumed == k + 1 && !Trace(s, script).final.running
    decreases k
  {
    var t := Select(s, script[0]);
    SelectStops(s, script[0]);
    if k > 0 {
      assert !EndsLoop(script[0]);
      forall j | 0 <= j < k - 1 ensures !EndsLoop(script[1..][j]) {
        assert script[1..][j] == script[j + 1];
      }
      StopRunnerEndsLoop(t.next, script[1..], k - 1);
    }
  }

  /** The packet branch is disabled while no consumer is installed. */
  lemma PacketArmNeedsConsumer(s: RunnerState, packet: Option<Packet>, send: Result<()>)
    requires s.consumer.None?
    ensures Select(s, PacketReady(packet, send)) == Transition(s, [])
  {
  }

  /**
   * A closed consumer is only reported: the state, including the installed
   * consumer, is unchanged, so the branch stays enabled.
   */
  lemma ClosedConsumerOnlyReports(s: RunnerState, send: Result<()>)
    requires s.consumer.Some?
    ensures PacketStep(s, None, send).next == s
    ensures PacketStep(s, None, send).effects == [Say(ConsumerClosed)]
  {
  }

  /** A received packet is forwarded unchanged; only a failed send stops the loop. */
  lemma PacketForwardedUnchanged(s: RunnerState, p: Packet, send: Result<()>)
    requires s.consumer.Some?
    ensures Forwarded(PacketStep(s, Some(p), send).effects) == [p]
    ensures PacketStep(s, Some(p), send).next == s.(running := s.running && send.Ok?)
  {
    var e := PacketStep(s, Some(p), send).effects;
    var head := [Say(PacketReceived(p)), Invoke(Forward(p))];
    assert e == head + e[2..];
    assert Quiet(e[2..]);
    QuietForwardsNothing(e[2..]);
    ForwardedAppend(head, e[2..]);
    assert head[1..] == [Invoke(Forward(p))];
    assert head[1..][1..] == [];
  }

  /**
   * `StartClient` installs the new client and its consumer only when both
   * `build()` and `try_start` succeed; otherwise the state is unchanged.
   * `try_start` always gets the fixed 10-second deadline, and an old client is
   * replaced without being stopped.
   */
  lemma StartClientOnlyOnSuccess(s: RunnerState, b: ClientBuilder, r: Replies)
    ensures var t := CommandStep(s, Some(StartClient(b)), r);
      && (r.build.Ok? && r.start.Ok? ==> t.next == s.(client := Some(r.build.value), consumer := r.taken))
      && (r.build.Err? || r.start.Err? ==> t.next == s)
      && (forall e | e in t.effects && e.Invoke? && e.call.TryStart? :: e.call.timeoutSeconds == ConnectTimeoutSeconds)
      && Invoke(Stop) !in t.effects
      && (r.build.Err? ==> Say(StartFailed(r.build.error)) in t.effects)
      && (r.build.Ok? && r.start.Err? ==> Say(ConnectFailed(r.start.error)) in t.effects)
  {
  }

  /** `Ping` never changes the state; without a client it only reports an error. */
  lemma PingKeepsState(s: RunnerState, r: Replies)
    ensures var t := CommandStep(s, Some(Ping), r);
      && t.next == s
      && (s.client.None? ==> t.effects == [Say(PingWithoutClient)] && PingWithoutClient.IsError())
      && (s.client.Some? ==> Invoke(SendPing) in t.effects)
      && (s.client.Some? && r.ping.Err? ==> Say(PingFailed(r.ping.error)) in t.effects)
  {
  }

  /**
   * `StopClient` leaves no client whether `stop()` succeeds or fails, and never
   * touches the consumer; with no client it only reports that.
   */
  lemma StopClientClearsClient(s: RunnerState, r: Replies)
    ensures var t := CommandStep(s, Some(StopClient), r);
      && t.next == s.(client := None)
      && (s.client.None? <==> Say(NoClientToStop) in t.effects)
      && (s.client.Some? <==> Invoke(Stop) in t.effects)
  {
  }

  /** `Publish`, `Subscribe` and `Unsubscribe` only print: no state change, no foreign call. */
  lemma RequestsOnlyLog(s: RunnerState, c: Command, r: Replies)
    requires c.Publish? || c.Subscribe? || c.Unsubscribe?
    ensures CommandStep(s, Some(c), r).next == s
    ensures forall e | e in CommandStep(s, Some(c), r).effects :: e.Say? && !e.note.IsError()
  {
  }

  /** `StopRunner` and a closed command channel clear `running` and change nothing else. */
  lemma StopRunnerOnlyStops(s: RunnerState, c: Option<Command>, r: Replies)
    requires c.None? || c == Some(StopRunner)
    ensures CommandStep(s, c, r).next == s.(running := false)
    ensures forall e | e in CommandStep(s, c, r).effects :: e.Say?
  {
  }

  /**
   * The code as written handles nothing from the initial state: the first
   * iteration panics on the missing consumer, whatever is ready, so no command
   * is handled and no foreign call is made.
   */
  lemma AsWrittenHandlesNoCommand(script: seq<Ready>)
    ensures TraceAsWritten(Initial, script).consumed == if script == [] then 0 else 1
    ensures TraceAsWritten(Initial, script).effects == if script == [] then [] else [Say(UnwrapPanicked)]
    ensures script != [] ==> !TraceAsWritten(Initial, script).final.running
  {
    if script != [] {
      var t := SelectAsWritten(Initial, script[0]);
      assert TraceAsWritten(t.next, script[1..]) == RunResult(t.next, [], 0);
    }
  }

  /** A first `StartClient` builds a client in the intended loop but not in the code as written. */
  lemma AsWrittenDropsFirstStartClient(b: ClientBuilder, r: Replies)
    ensures Invoke(Build) in Trace(Initial, [CommandReady(Some(StartClient(b)), r)]).effects
    ensures Invoke(Build) !in TraceAsWritten(Initial, [CommandReady(Some(StartClient(b)), r)]).effects
  {
    var script := [CommandReady(Some(StartClient(b)), r)];
    var t := CommandStep(Initial, Some(StartClient(b)), r);
    assert t.effects[1] == Invoke(Build);
    assert Trace(Initial, script).effects[..|t.effects|] == t.effects by {
      FirstCommandHandled(Some(StartClient(b)), r, []);
      assert [CommandReady(Some(StartClient(b)), r)] + [] == script;
    }
    assert Trace(Initial, script).effects[1] == Invoke(Build);
    AsWrittenHandlesNoCommand(script);
  }

  /**
   * In the intended loop the first ready command is handled from the initial
   * state: the loop's effects begin with that command's own effects.
   */
  lemma FirstCommandHandled(c: Option<Command>, r: Replies, rest: seq<Ready>)
    ensures Trace(Initial, [CommandReady(c, r)] + rest).consumed >= 1
    ensures |CommandStep(Initial, c, r).effects| <= |Trace(Initial, [CommandReady(c, r)] + rest).effects|
    ensures Trace(Initial, [CommandReady(c, r)] + rest).effects[..|CommandStep(Initial, c, r).effects|]
      == CommandStep(Initial, c, r).effects
  {
    var script := [CommandReady(c, r)] + rest;
    assert script[0] == CommandReady(c, r);
    assert script[1..] == rest;
  }
}
