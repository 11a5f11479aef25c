# vaux-gtk-client core in Dafny

This project models two pieces of sequential decision logic from an interactive MQTT client that is otherwise made of GTK widgets and tokio tasks:

- **The session runner** (`run` in `src/client.rs`). One `while running` loop owns three mutable slots: `running`, `client` (the live `MqttClient`, if any) and `packet_consumer` (the inbound packet receiver, if any). Each iteration `select!`s either an inbound packet, which is forwarded to the observer queue `mqtt_tx`, or an operator `Command`, which performs a fixed transition. A closed command channel counts as a command too.
- **The action panel's command building** (`src/ui/action.rs`). The click handlers turn form inputs into `Command` values. The rules are: the QoS combo text becomes a QoS level; an empty topic sends nothing; publish packet id 0 means "no packet identifier"; the "Resume Session" check chooses `ResumeSession` over `StartClient`; TLS, credentials and the will are attached only when their flags are set.

Modules:

- `Results` (`results.dfy`): `Option` and `Result`.
- `Protocol` (`protocol.dfy`): the value shapes of the MQTT and client libraries that the core builds or passes on. These are QoS levels (section 4.3 of MQTT 5.0), packets, PUBLISH packets, will messages, connections and client builders. The libraries' behaviour is not modelled.
- `Client` (`client.rs` → `client.dfy`):
  - The settings defaults of `ClientSetting::new`.
  - The command enum as `client.rs` declares it.
  - The runner, which is described three ways:
    - Pure step functions `PacketStep`, `CommandStep`, `Select` and `Trace`. They describe the loop as intended: a disabled packet branch is skipped. The loop as written, which panics when no consumer is installed, is `SelectAsWritten` and `TraceAsWritten` (see "## Findings").
    - The class `Runner`, whose fields are the three locals, plus a ghost `forwarded` sequence. Its methods `OnPacket` and `OnCommand` are proved to perform exactly those steps.
    - The method `Run`, the loop itself over a script of ready `select!` branches. It is proved to produce exactly `Trace`.
  - Every foreign outcome is an input: `build()`, `try_start`, `take_packet_consumer`, `ping`, `stop` and `mqtt_tx.send`. The printed messages become `Note` values and the foreign calls become `Call` values. The loop's observable behaviour is the ordered sequence of both.
- `Action` (`action.rs` → `action.dfy`): pure functions from form records to the one command a click sends, or `None` when it sends nothing. The commands have the shapes that `action.rs` uses.

The two files disagree about the command surface, and each module follows its own file:
- `action.rs` sends `Subscribe(packet_id, qos, topic)`, `Unsubscribe(packet_id, topic)`, `Publish(packet)` and `ResumeSession(connection)`.
- `client.rs` declares `Publish(topic, payload)`, `Subscribe(topic)` and `Unsubscribe(topic)`, and has no `ResumeSession`.

The runner therefore has no session-resumption slot and no `ResumeSession` arm. Its `Publish`, `Subscribe` and `Unsubscribe` arms only print, because that is all the loop does.

The model captures several limits of the code as written:
- The code keeps no session state across `StopClient`.
- The code does not forward requests to the client.
- The code has no will-delay default.
- `StopRunner` does not stop a live client.
- `StartClient` is not refused while a client exists. The old client is dropped without `stop()`.

The model also shows a consequence of the code as written (`ClosedConsumerOnlyReports`). When the packet consumer reports closure, the runner keeps the closed receiver installed. The packet branch therefore stays enabled, and it reports the closure again on every later iteration it wins.

## Model

| member | source | states |
|---|---|---|
| `Client.NewClientSetting` | src/client.rs:32-59 | defaults: client id `client-<uuid>`, host `localhost`, port 1883, no TLS, session and will expiry 300, auto-ack and auto packet id on, ping-response pass-through off, no credentials, will on with empty topic and payload, at-most-once, not retained |
| `Client.PacketStep` | src/client.rs:82-94 | handling the packet branch keeps the client and the consumer; `running` stays set unless a packet arrived and its send to `mqtt_tx` failed |
| `Client.CommandStep` | src/client.rs:95-165 | handling a command clears `running` iff the command is `StopRunner` or the channel closed; the consumer changes only on a `StartClient` whose build and start both succeed, to the consumer taken; no command forwards a packet |
| `Client.Select` | src/client.rs:81-166 | one iteration of the intended loop: the consumer afterwards is the one `NextConsumer` tracks from the script alone, and only a command branch changes the client |
| `Client.Trace` | src/client.rs:80-167 | the intended loop handles at most the whole script and stops before its end only once `running` is cleared |
| `Client.SelectAsWritten` | src/client.rs:81-82 | one iteration as written: with a consumer installed it is the intended iteration; without one it clears `running` and only reports an error (the `unwrap` panic) |
| `Client.TraceAsWritten` | src/client.rs:80-167 | the loop as written handles at most the whole script and stops before its end only once `running` is cleared |
| `Client.AsWrittenHandlesNoCommand` | src/client.rs:78-82 | from the initial state the loop as written handles one branch at most, whatever is ready, and its only effect is the panic report: no command runs and no call is made |
| `Client.AsWrittenDropsFirstStartClient` | src/client.rs:82-102 | for a first `StartClient`, the intended loop calls `build()` and the loop as written does not |
| `Client.FirstCommandHandled` | src/client.rs:80-166 | in the intended loop the first ready command is handled from the initial state: the loop's effects begin with exactly that command's effects |
| `Client.Runner.constructor` | src/client.rs:76-78 | the loop starts running with no client, no consumer and nothing forwarded |
| `Client.Runner.OnPacket` | src/client.rs:82-94 | callable only while a consumer is installed; performs exactly `PacketStep`, and the forwarded sequence grows by exactly the received packet (by nothing for a closed consumer) |
| `Client.Runner.OnCommand` | src/client.rs:95-165 | performs exactly `CommandStep` for each command and for the closed channel; forwards nothing |
| `Client.Run` | src/client.rs:72-168 | the intended loop driven by a script of ready branches produces exactly `Trace` from the initial state (final state, effects in order, number of branches handled); the packets it sends to `mqtt_tx` are exactly those the handled part of the script delivers on an installed consumer, in order |
| `Client.SelectForwards` | src/client.rs:82-92 | one iteration sends to `mqtt_tx` exactly the packet that arrived on the installed consumer, and nothing for a closed consumer, a command or a disabled packet branch |
| `Client.TraceForwardsDeliveredPackets` | src/client.rs:80-167 | over the whole intended loop, the packets sent to `mqtt_tx` are exactly the packets the handled part of the script delivers while a consumer is installed, in arrival order, none dropped or duplicated |
| `Client.DeliveredWhileInstalled` | src/client.rs:97-110 | once a consumer is installed and no later `StartClient` succeeds without taking one, every packet of the script counts as delivered |
| `Client.ForwardsEveryArrivingPacket` | src/client.rs:82-94 | while a consumer stays installed, every packet that arrives before the loop stops is sent to `mqtt_tx`, in order, none dropped or duplicated |
| `Client.TraceForwardsOnReceipt` | src/client.rs:84-88 | every received packet is sent to `mqtt_tx` by the very next effect, unchanged |
| `Client.PacketForwardedUnchanged` | src/client.rs:84-89 | a received packet is forwarded as-is; the state is unchanged unless the send fails, which ends the loop |
| `Client.PacketArmNeedsConsumer` | src/client.rs:82 | in the intended loop, with no consumer installed, a ready packet is not handled: no effect, no state change (the code as written panics instead, see "## Findings") |
| `Client.ClosedConsumerOnlyReports` | src/client.rs:90-92 | a closed consumer is only reported; state, including the installed consumer, is unchanged |
| `Client.StartClientOnlyOnSuccess` | src/client.rs:97-119 | client and consumer are replaced (by the new client and the taken consumer) only if both `build()` and `try_start` succeed, otherwise the state is unchanged and the failure reported; `try_start` always gets the 10-second deadline; the previous client is never stopped |
| `Client.PingKeepsState` | src/client.rs:120-128 | `Ping` never changes state; without a client it only reports an error; with one it pings and reports a failure |
| `Client.RequestsOnlyLog` | src/client.rs:129-140 | `Publish`, `Subscribe`, `Unsubscribe` change no state and call nothing; they only print a non-error line |
| `Client.StopClientClearsClient` | src/client.rs:141-153 | afterwards there is no client whatever `stop()` returns; consumer and `running` untouched; `stop()` is called iff a client existed, "no client to stop" reported iff none did |
| `Client.StopRunnerOnlyStops` | src/client.rs:154-164 | `StopRunner` and a closed command channel clear `running` and change nothing else |
| `Client.SelectStops` | src/client.rs:88 | one iteration of the intended loop leaves `running` set iff it did not handle `StopRunner`, a closed channel, or an installed consumer's packet whose send failed |
| `Client.TraceRunsUntilStopped` | src/client.rs:80-167 | the intended loop handles branches until `running` is cleared, and it is cleared only by a branch that ends the loop |
| `Client.StopRunnerEndsLoop` | src/client.rs:154-163 | in the intended loop, the first `StopRunner` or channel closure (with nothing earlier ending the loop) is the last branch handled |
| `Action.QoSFromLabel` | src/ui/action.rs:141-146 | each combo entry's text gives its own level; any other text or no selection gives at-most-once |
| `Action.PublishPacketId` | src/ui/action.rs:437-441 | spin value 0 gives no packet id; any other value v gives `Some(v)` |
| `Action.PublishPacketIdRoundTrip` | src/ui/action.rs:437-441 | the spin value and the publish packet id determine each other (every id except `Some(0)` is reachable) |
| `Action.SubscribeCommand` | src/ui/action.rs:139-161 | a command is sent iff the topic is non-empty, and it is exactly `Subscribe(packet id, QoS of the combo, topic)` |
| `Action.SubscribeImage` | src/ui/action.rs:100-161 | the subscribe commands the panel can send are exactly those with a non-empty topic and a packet id from 1 to 65534 (the spin button's reachable range), at every QoS |
| `Action.UnsubscribeCommand` | src/ui/action.rs:217-233 | a command is sent iff the topic is non-empty, and it is exactly `Unsubscribe(packet id, topic)` |
| `Action.UnsubscribeImage` | src/ui/action.rs:193-233 | the unsubscribe commands the panel can send are exactly those with a non-empty topic and a packet id from 1 to 65534 |
| `Action.PublishCommand` | src/ui/action.rs:426-465 | a command is sent iff the topic is non-empty and the packet could be built; it carries the mapped packet id, topic, QoS, payload and the retain flag |
| `Action.PublishImage` | src/ui/action.rs:388-465 | whenever the library builds the packet, the publish commands the panel can send are exactly those with a non-empty topic and either no packet id or one from 1 to 65534, for every QoS, payload and retain flag; when the library refuses, nothing is sent |
| `Action.ConnectionFor` | src/ui/action.rs:281-290 | the connection has the settings' host and port, TLS iff `with_tls`, and credentials (username, password) iff `with_credentials` |
| `Action.BuilderFor` | src/ui/action.rs:313-327 | the builder carries the connection and session options, and a will iff `with_will`, holding the will topic, payload, QoS, retain, delay and expiry |
| `Action.ConnectCommand` | src/ui/action.rs:278-354 | deactivating sends `StopClient`; activating sends `ResumeSession(connection)` iff the resume check is active, `StartClient(builder)` otherwise |
| `Action.DefaultSettingsConnect` | src/ui/action.rs:279-334 | connecting with `ClientSetting::new` defaults starts a client on localhost:1883 without TLS or credentials, with a 300-second session and an at-most-once empty will expiring after 300 seconds |

## Findings

| source | as written | input that shows it | evidently intended | confidence | as-written member | corrected member |
|---|---|---|---|---|---|---|
| src/client.rs:82 | the packet branch's expression `packet_consumer.as_mut().unwrap().recv()` is evaluated by `select!` even when its precondition `packet_consumer.as_ref().is_some()` disables the branch, so `unwrap()` panics whenever no consumer is installed; the consumer starts as `None` (line 78), so the first iteration panics and no command is ever handled | the first iteration from the initial state with any ready branch, e.g. a `StartClient` command: the intended loop calls `build()`, the code as written panics first | a disabled packet branch is skipped and the command branch runs (for example by moving the `unwrap` inside an `async` block, or matching on the option inside the branch) | high (tokio documents that the expressions of disabled `select!` branches are still evaluated); not executed | `Client.AsWrittenHandlesNoCommand` | `Client.FirstCommandHandled` |

## Left out

- Widgets: construction, layout, labels, sensitivity toggling, and the reset of the connect toggle when sending on the command channel fails (`src/ui/action.rs`, `src/ui.rs`, `src/message.rs`, `src/model/`). These are presentation only.
- Sending on the command channel from the panel. Its failure is only printed. The model gives the command that is handed to the send.
- The Ping button (`src/ui/action.rs:46-57`). It sends `Ping` unconditionally and has no rule to model beyond the `Action.Command.Ping` shape.
- The shared packet-id cells that the spin buttons write (`Rc<RefCell<u16>>`, initially 1). The form's packet id stands for the cell's current value.
- The conversion of floating-point spin values to integers (`value() as u16`). The forms take the converted integer. Its range stops at 65534, not 65535, because GTK clamps an adjustment's value to its upper bound minus its page size (1).
- Random generation of the default client id. `NewClientSetting` takes the UUID text as a parameter.
- The behaviour of the client and MQTT libraries: `ClientBuilder::build`, `try_start`, `take_packet_consumer`, `ping`, `stop` and `Publish::new_with_message`. Each outcome is an input.
- UTF-8 encoding of the will payload. Payloads stay strings.
- The exact wording of printed lines, including the debug formatting of packets. Each printed line is a `Note`, and `Note.IsError` tells stderr from stdout.
- Process bootstrap, thread spawn, tokio runtimes and channel creation (`src/main.rs`).
- Fairness of `select!` and the real-time 10-second deadline. The caller's script chooses which ready branch runs. A connect timeout is one of the failed `try_start` outcomes.
- Client.Runner.OnPacket: a failed send to the observer queue panics (`expect`), which ends the task. The model records this as a `SendPanicked` note followed by clearing `running`. It does not model unwinding.
- Session-state capture and `ResumeSession` handling in the runner. The `run` loop has neither.
- `will_delay` and `clean_start` settings, which the UI uses but `ClientSetting` lacks. The will delay is a separate field of `Action.ConnectForm`. `clean_start` is not part of this model.
- The arity of `build_actions`, which differs between `src/main.rs` and `src/ui/action.rs`. Only the command-building rules are modelled.
- The CA file and client certificate settings. The connect handler never passes them: `with_tls()` takes no arguments.
