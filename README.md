# Ping-pong command/response protocol, modelled in Dafny

The system is a session-scoped command/response protocol over MQTT. A
commander ("ping") publishes device commands on the shared topic
`ping/command`, stamped with its session id `ping_<seconds>`. A responder
("pong") queues what it receives. On each poll the responder drains the queue,
runs the dispatcher on every command against a simulated device record
`{rgb, temperature, rpm}`, and publishes each response on
`pong/<session_id>/response`. The commander subscribes to that topic and
drains its own response queue.

Three entry points repeat this logic with small differences, and each is
modelled on its own:

- `pong.dfy` models app-pong.py, the standalone responder. Its RGB handler
  stores the command's `data` verbatim. `check_commands` is guarded by the
  client and publishes in the drain loop.
- `pingpong.dfy` models app-pingpong.py, where the commander and the
  responder share one process. Its RGB handler applies `int(...)` to each
  channel, with 0 for a missing one. `int(...)` can raise, which aborts the
  drain. The dispatcher publishes the response itself, and only when the pong
  client exists. This file also has the three preview setters.
- `ping.dfy` models app-ping.py, the standalone commander: sending, session
  creation, the subscription topic and the response drain.
- `protocol.dfy` holds the wire vocabulary:
  - JSON values, commands and responses;
  - the two topic shapes with their inverse, and session ids with their inverse;
  - Python's `int(...)` on decoded values.
- `simulation.dfy` holds the device. `Device` is a class whose fields the
  handlers update in place. The Temperature Reading, Weight Data and
  unknown-type handlers are word for word the same in both responders, so
  they are defined once here.
- `routing.dfy` holds the laws that cross files. Answers travel on the
  command's own session topic. An integer RGB command comes back with
  exactly the values sent.

Each process's globals form a class: `Pong.Responder`, `PingPong.PingPong`
and `Ping.Commander`. Queues are `seq` fields. Publishing appends to a ghost
`outbox` of `(topic, body)` messages. Each poll method is a loop proved
against a pure function (`Pong.Drain`, `PingPong.RunQueue`),
and the laws are proved about those functions. Random draws and `time.time()`
are passed in as a `Sample` per command. Their `random.uniform` ranges
(`InRange`) are assumed only by the lemmas that need them.

Some facts about the code that the model keeps:

- Device values are never range-checked. No RGB channel is clamped to a
  colour range and `rpm` has no upper limit. In app-pong.py, `rgb` and `rpm`
  are whatever JSON values the command carried.
- The command types are the strings `"RGB Command"`, `"Temperature Reading"`
  and `"Weight Data"`.
- A response is `{type, data, timestamp, session_id}` and echoes the
  command's `type` and `session_id`.

## Model

| member | source | states |
|---|---|---|
| Protocol.Trunc | app-pingpong.py:189-191 | `int()` of a float truncates toward zero: the result is within 1 of the input, on the zero side |
| Protocol.GetOr | app-pingpong.py:114-116 | `dict.get(key, default)`: the stored value when the key is present, the default otherwise |
| Protocol.NatToDecimal | app-ping.py:31 | an integer prints as a non-empty string of decimal digits, a single digit exactly when it is below 10, and with no leading zero unless it is 0 |
| Protocol.IntToDecimal | app-ping.py:31 | `str(i)` starts with a minus sign exactly when `i` is negative, followed by its digits, with a leading zero only for 0 itself |
| Protocol.ParseInt | app-pingpong.py:114-116 | `int(s)` on a string: the empty string raises, only a leading minus sign gives a negative number, and a run of digits gives the number it denotes |
| Protocol.DecimalRoundTrip | app-ping.py:31 | reading back the printed digits of `n` gives `n` |
| Protocol.IntDecimalRoundTrip | app-ping.py:31 | parsing the printed form of any integer, negative ones included, gives it back |
| Protocol.PyInt | app-pingpong.py:114-116 | `int()` raises exactly on null, lists, objects and unparsable strings, with ValueError only for strings; floats truncate |
| Protocol.PyIntOfInteger | app-pingpong.py:114-116 | `int()` is the identity on an integer sent as a JSON int, as an integral float or as its decimal text |
| Protocol.SessionIdAt | app-ping.py:31 | the session id is `ping_` followed by text that parses back to `int(now)` |
| Protocol.SessionIdRoundTrip | app-ping.py:31 | the session id `ping_<int(now)>` gives back the whole second it was created in |
| Protocol.SessionIdsDistinct | app-ping.py:31 | two session ids are equal exactly when they were created in the same whole second |
| Protocol.ResponseTopic | app-ping.py:18 | the response topic `pong/<sid>/response` names session `sid` and nothing else |
| Protocol.ResponseTopicsSeparate | app-pong.py:97-98 | different sessions have different response topics, and no response topic is `ping/command` |
| Protocol.OrEmpty | app-ping.py:46 | `data or {}`: a missing data argument is sent as the empty object, a given one unchanged |
| Protocol.Payload | app-pong.py:37 | `command.get("data", {})`: a command without data reads as the empty object, and one with data reads as exactly that object |
| Protocol.NewCommand | app-ping.py:44-49 | a sent command carries the given type, the current session, the time and `data or {}`, never a missing data field |
| Protocol.Announce | app-pong.py:97-98 | a response is published as itself on the topic that names its own session |
| Protocol.Announcements | app-pong.py:97-98 | publishing a list of responses yields one message per response, in order, each on its own session's topic |
| Protocol.ListOrNotice | app-pong.py:101 | a poll returns the fixed notice exactly when nothing was taken, and otherwise the taken items unchanged |
| Simulation.OtherStep | app-pong.py:47-63 | Temperature Reading moves only `temperature`, by the draw, and reports the new value. Weight Data sets `rpm` to `set_rpm` when present and otherwise leaves it, and reports the rpm it leaves. An unknown type changes nothing and answers exactly `{"error": "Unknown command type"}`. Every branch echoes the type and session and never touches `rgb` |
| Simulation.Device.constructor | app-pong.py:15-19 | the device starts at rgb {0,0,0}, temperature 25.0, rpm 0 |
| Simulation.Device.SetRgb | app-pingpong.py:111-118 | rebinding the record with a new `rgb` changes that field only |
| Simulation.Device.SetTemperature | app-pingpong.py:210-213 | rebinding the record with a new `temperature` changes that field only |
| Simulation.Device.SetRpm | app-pingpong.py:200-203 | rebinding the record with a new `rpm` changes that field only |
| Simulation.Device.ApplyOther | app-pingpong.py:125-141 | the in-place Temperature, Weight and unknown-type branches leave the device and return the response that `OtherStep` specifies |
| Simulation.LastRpmCons | app-pong.py:54-56 | last write wins composes: the rpm after one command and then a run is the run's last write, or else that command's |
| Pong.Handle | app-pong.py:35-70 | every response echoes the command's type and session. RGB stores `data` verbatim as `rgb`, changes nothing else and answers it as `applied_values`. Every other type behaves as `OtherStep` |
| Pong.Drain | app-pong.py:93-99 | draining a queue yields exactly one response per queued command |
| Pong.DrainStepwise | app-pong.py:94-96 | the i-th response is the dispatcher's answer to the i-th command, on the state the earlier commands left |
| Pong.DrainEchoes | app-pong.py:97-98 | responses come in queue order, each echoing its command's type and session and published on that session's topic |
| Pong.DrainRpm | app-pong.py:54-56 | after a drain, `rpm` is the `set_rpm` of the last Weight Data command carrying one, or unchanged if none did |
| Pong.WeightResponseReportsLatest | app-pong.py:54-61 | each Weight Data response's `current_rpm` is the last `set_rpm` up to and including its own command |
| Pong.DrainTemperatureBound | app-pong.py:47-48 | after K Temperature Reading commands the temperature lies within T0 ± 0.5·K |
| Pong.Responder.constructor | app-pong.py:11-19 | empty command queue, no client, initial device |
| Pong.Responder.StartMqtt | app-pong.py:73-80 | starting sets the client and changes no queue and publishes nothing |
| Pong.Responder.Receive | app-pong.py:26-29 | a delivered command joins the back of the queue |
| Pong.Responder.ProcessCommand | app-pong.py:35-70 | the in-place dispatcher leaves the device and returns the response that `Handle` specifies |
| Pong.Responder.CheckCommands | app-pong.py:89-101 | without a client: "MQTT client not started", and queue, device and outbox unchanged. With one: queue emptied, device as `Drain` leaves it, one publication per command in queue order on its session topic, "No new commands" exactly when the queue was empty |
| Pong.Responder.DrainQueue | app-pong.py:93-99 | the pop-process-publish loop equals `Drain` on the queue it started with |
| PingPong.CoerceRgb | app-pingpong.py:111-118 | the new colour has exactly keys r, g, b, each `int()` of the sent value or of 0 when missing. It fails exactly when some channel's `int()` raises, and the error is that of the first failing channel in r, g, b order |
| PingPong.Raises | app-pingpong.py:109-118 | the dispatcher raises exactly on an RGB command one of whose channels `int()` rejects |
| PingPong.CoerceRgbIntegers | app-pingpong.py:113-117 | integer channels are applied exactly as sent, without clamping |
| PingPong.CoerceRgbMissing | app-pingpong.py:114-116 | each missing channel becomes 0 on its own, whatever the other channels carry, and a payload with no channel gives {0,0,0} |
| PingPong.CoerceRgbSliders | app-pingpong.py:186-193 | an RGB command carrying slider values applies the same colour as the RGB preview of those values |
| PingPong.Handle | app-pingpong.py:103-148 | fails exactly on an RGB command whose channels `int()` rejects, and then changes nothing. Otherwise it echoes type and session. RGB rebinds only `rgb`, to the coerced record, and answers it as `applied_values`. Other types behave as `OtherStep` |
| PingPong.RunQueue | app-pingpong.py:162-169 | without an exception every command is answered and the queue is empty. With one, the answered commands are a prefix, the next command raises and is consumed, its `int()` error is the result, and the rest stay queued |
| PingPong.RunStops | app-pingpong.py:165-167 | the drain ends without an exception exactly when no queued command raises, and no answered command raises, so it stops at the first raising command |
| PingPong.RunStepwise | app-pingpong.py:165-168 | each answered command got the dispatcher's answer on the state the earlier commands left |
| PingPong.RunEchoes | app-pingpong.py:143-148 | every response of a drain echoes its command's type and session, in queue order |
| PingPong.RunRpm | app-pingpong.py:132-134 | after a drain, `rpm` is the last `set_rpm` among the commands handled |
| PingPong.RunTemperatureBound | app-pingpong.py:125-126 | a drain moves the temperature by at most 0.5 per Temperature Reading command it handled, not counting those left queued behind a raising command |
| PingPong.Broadcast | app-pingpong.py:150-151 | defined as the announcements of the responses (each on its session topic, in order) when the pong client exists, and nothing otherwise; its contract states one message per response exactly when the client exists |
| PingPong.PingPong.constructor | app-pingpong.py:13-22 | no clients, no session, empty queues, initial device |
| PingPong.PingPong.InitializePing | app-pingpong.py:51-59 | the session becomes `ping_<int(now)>` and is reported, nothing else changes |
| PingPong.PingPong.InitializePong | app-pingpong.py:94-101 | the pong client exists afterwards, nothing else changes |
| PingPong.PingPong.ReceiveResponse | app-pingpong.py:34-37 | a delivered response joins the back of the response queue |
| PingPong.PingPong.ReceiveCommand | app-pingpong.py:42-45 | a delivered command joins the back of the command queue |
| PingPong.PingPong.SendCommand | app-pingpong.py:61-72 | without a ping client it returns "Please initialize ping first" and publishes nothing. Otherwise it publishes one command with `data or {}` and the current session on `ping/command` |
| PingPong.PingPong.SendRgb | app-pingpong.py:74-88 | without a ping client it neither publishes nor enqueues. Otherwise the same `{r, g, b}` command is published on `ping/command` and appended to the command queue |
| PingPong.PingPong.SendWeightRequest | app-pingpong.py:90-91 | sends "Weight Data" with exactly `{set_rpm, request_weight: true}` |
| PingPong.PingPong.ProcessCommand | app-pingpong.py:103-152 | the device changes as `Handle` says. The response is published on the command's session topic exactly when the pong client exists and nothing raised. A raising command changes nothing |
| PingPong.PingPong.CheckPingResponses | app-pingpong.py:154-160 | the response queue is emptied and its items returned oldest first. "No new responses" is returned exactly when it was empty |
| PingPong.PingPong.CheckPongCommands | app-pingpong.py:162-169 | the device, the remaining queue and the publications are those of `RunQueue`. The result is "No new commands" exactly when the queue was empty, or the exception |
| PingPong.PingPong.DrainCommands | app-pingpong.py:164-168 | the pop-process loop equals `RunQueue` on the queue it started with |
| PingPong.PingPong.ProcessNext | app-pingpong.py:166-167 | one turn of that loop: the front command leaves the queue and either the run continues with its response appended, or the run ends there with its exception |
| PingPong.PingPong.UpdateRgbPreview | app-pingpong.py:183-194 | only `rgb` changes, to the truncated slider values |
| PingPong.PingPong.UpdateRpmPreview | app-pingpong.py:197-204 | only `rpm` changes, to the truncated slider value |
| PingPong.PingPong.UpdateTemperaturePreview | app-pingpong.py:207-214 | only `temperature` changes |
| Ping.Commander.constructor | app-ping.py:10-12 | no client or session, empty response queue |
| Ping.Commander.Subscription | app-ping.py:15-18 | a commander with a session listens on the topic that names exactly that session, and one without a session listens on none |
| Ping.Commander.InitializeSession | app-ping.py:29-37 | the session becomes `ping_<int(now)>` and is reported. The queue is kept and nothing is published |
| Ping.Commander.Receive | app-ping.py:20-23 | a delivered response joins the back of the queue |
| Ping.Commander.SendCommand | app-ping.py:40-52 | without a client it returns "Please initialize session first" and publishes nothing. Otherwise it publishes exactly one command, stamped with the session and `data or {}`, on `ping/command` |
| Ping.Commander.SendRgb | app-ping.py:55-56 | sends "RGB Command" with data exactly `{r, g, b}` |
| Ping.Commander.SendWeightRequest | app-ping.py:58-59 | sends "Weight Data" with data exactly `{set_rpm, request_weight: true}` |
| Ping.Commander.CheckResponses | app-ping.py:61-66 | the queue is emptied and its items returned oldest first. "No new responses" is returned exactly when it was empty |
| Routing.AnswersRouteToTheirSession | app-pong.py:97-98 | both responders answer on the topic of the command's own session, and never on another session's topic |
| Routing.RgbEndToEnd | app-ping.py:55-56 | an integer `{r, g, b}` sent by a commander is applied and answered as `applied_values` exactly as sent by both responders, on the sender's session topic |

## Left out

- The Gradio interface is presentation only: layout, themes, CSS and event wiring.
- The MQTT client lifecycle is network I/O in a foreign library and is not
  modelled:
  - connect, loop start and stop, disconnect;
  - broker settings;
  - the `on_connect`/`on_message` callbacks, apart from their queue hand-off
    (`Receive*`) and the subscribed topic (`Subscription`).
  - `initialize_session` in app-ping.py makes a new client each time and
    leaves the old one connected and subscribed. Its `on_message` still fills
    the same response queue, so after a second session the process also
    receives the first session's responses, and each one twice when both
    sessions fall in the same second. `Subscription` describes only the
    current client.
  - `stop_mqtt` in both responders never clears the client globals. It
    changes nothing the model holds, so it has no member.
- JSON encoding and decoding are foreign calls, and so is the exception
  swallowing around a failed decode. Messages are datatypes. The polls return
  `Entries(items)` instead of the items' indented JSON text joined by
  newlines. app-pingpong.py's `process_command` returns the response itself
  instead of its JSON text.
- A decoded command whose `type` or `session_id` key is missing, or whose
  `data` is not an object, is not modelled. Every command the commanders build
  has all of these.
- `random.uniform` and `time.time()` are nondeterministic or foreign. They
  arrive as one `Sample` per command. Drains take at least as many samples
  as queued commands.
- Floating-point rounding is not modelled: temperatures and draws are `real`.
- Concurrency is not modelled: the thread-safe queues, delivery on another
  thread, and commands that arrive while a drain runs. Every drain is a
  sequential loop over a `seq`.
- The streaming (repeat-publish) controller is not part of this model: no
  modelled source file contains it.
- Protocol.PyInt, Protocol.ParseInt: CPython's `int()` also raises ValueError
  on a decimal string of more than 4300 digits, the default limit on integer
  string conversion since Python 3.11. Here a string of any length converts,
  so an RGB channel sent as such a string is applied instead of stopping the
  drain.
- Protocol.PyInt: `int()` on a string accepts only an optional sign followed by
  ASCII digits. Python also accepts surrounding whitespace, underscores
  between digits and non-ASCII digits; here those are a ValueError.
  Python's `json.loads` also makes non-finite floats from `1e400`, `Infinity`
  and `NaN`, and `int()` raises OverflowError or ValueError on them. `Real`
  holds only finite values, so here every float converts.
- PingPong.PingPong.SendRgb: the status text `Sent RGB Command: R=…, G=…, B=…`
  is represented as `Sent("RGB Command")`. Python's rendering of the numbers
  is not modelled.
- Ping.Commander.SendCommand: the status text `Sent <type>` is represented as
  `Sent(type)`. The same holds for the other send methods.
