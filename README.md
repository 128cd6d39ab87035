# zwave-js Prometheus exporter: a Dafny model of its core

The exporter connects to a zwave-js server over a websocket and turns its
"value updated" events into samples of one Prometheus gauge, `zwave_value`.
This project models the two classes that do this and proves properties about them:

- **`PromClient.handleEvent`** (prom-client.js). It keeps only node events named
  `value updated`. It coerces the new value: a boolean becomes 1 or 0, a number
  passes through, and anything else makes it return early. It builds the gauge's
  five labels, with `||` defaults for the property key and the endpoint. Then it
  overwrites the gauge entry for that label tuple. Module `Prom` (prom_client.dfy)
  holds a class `PromClient` whose field `gauge` is a map from label tuple to the
  latest value. Its `HandleEvent` method is proved against the pure `Apply`, and the
  lemmas about `Apply` state the filtering, the coercion, the defaults, the fixed
  label schema, overwriting, idempotence and last-write-wins over many events.
- **`ZwaveWebSocketClient`** (websocket-client.js). The client stamps every outbound
  command with `messageId`, a counter that starts at 1 and is post-incremented as
  the message is built. It sends `initialize` (schema version 0) when the socket
  opens. On a `version` message it sends `start_listening`. It forwards the `event`
  of an `event` message to the Prometheus side. `result` messages and unknown types
  are only logged. Module `WsClient` (websocket_client.dfy) holds a class with the
  counter, the socket and the frames the socket accepted. Each of its methods is
  proved against a pure function over a `Session` value (`Send`, `Forward`, `Step`).
  Lemmas about `Run`, which handles a list of messages, cover the send counts, the
  id numbering and exact forwarding.

Module `JsValues` (js_values.dfy) holds the JavaScript values the code inspects:
`typeof`, truthiness, `||`, and the exceptions it can throw.

Exceptions are modelled, not excluded:
- A frame that decodes to `null` throws a `TypeError` at `message.type`.
- Handling an `undefined` event throws a `TypeError` at `event.source`.
- So does a value update whose `args` is missing or empty, when `args[0]` is destructured.
- Sending before `connect` throws a `TypeError` at `this.ws.send`, since `ws` is still `null`.
- Sending on a socket that is not open throws from the socket library.

In both send cases the counter has already moved on; in the other three nothing is sent, so the counter does not move. A run over a list of messages
stops at the first exception, because nothing in the client catches it.

## Model

| member | source | states |
|---|---|---|
| `Prom.LabelObject` | prom-client.js:10-15 | the labels object has exactly the five declared label names, and the label tuple can be read back from it unchanged |
| `Prom.Coerce` | prom-client.js:40-46 | a value is kept exactly when `typeof` says boolean or number; true gives 1, false gives 0, a number is kept as it is |
| `Prom.BuildLabels` | prom-client.js:48-54 | node id, command class and property are copied; a falsy property key becomes `''` and a falsy endpoint becomes `0`; truthy ones are kept |
| `Prom.FilteredEventLeavesGauge` | prom-client.js:35 | an event whose source is not `node` or whose name is not `value updated` is ignored and leaves the gauge unchanged |
| `Prom.BooleanRecordedAsOneOrZero` | prom-client.js:41-42 | a boolean new value is stored as 1 when true and 0 when false, under the built labels |
| `Prom.NumberRecordedUnchanged` | prom-client.js:40-56 | a numeric new value is stored unchanged under the built labels |
| `Prom.NonNumericValueWritesNothing` | prom-client.js:43-45 | a value that is neither boolean nor number ends the handler early with no exception; no entry is created or changed |
| `Prom.ZeroPropertyKeyBecomesEmpty` | prom-client.js:52 | a property key of 0 is falsy and is recorded as `''` |
| `Prom.ZeroAndMissingPropertyKeysCollide` | prom-client.js:52 | a property key of 0 and a missing property key write the same gauge entry |
| `Prom.Translate` | prom-client.js:34-58 | classifies every event exactly: it throws `TypeError` exactly for an undefined event or a value update without `args[0]`; it is ignored exactly when it is not a node "value updated" event; it is skipped exactly when the new value does not coerce; a write carries the built labels and the coerced value |
| `Prom.Apply` | prom-client.js:56 | no label tuple is ever removed, and any entry that is new or changed is exactly the event's own write |
| `Prom.WriteOverwrites` | prom-client.js:56 | after a write, the written key holds exactly the new value, the key set grows by at most that key, and every other entry is unchanged |
| `Prom.HandlingTwiceIsHandlingOnce` | prom-client.js:56 | handling the same event twice leaves the gauge as handling it once |
| `Prom.ApplyAllSnoc` | prom-client.js:34-58 | handling a list of events and then one more is handling the longer list |
| `Prom.LastWriteWins` | prom-client.js:34-58 | after a run of events, each label tuple holds the value of the last write to it; a tuple never written keeps its old entry or stays absent |
| `Prom.GaugeOnlyGrows` | prom-client.js:34-58 | handling events never removes a label tuple from the gauge |
| `Prom.PromClient.constructor` | prom-client.js:10-15 | the gauge starts empty |
| `Prom.PromClient.HandleEvent` | prom-client.js:34-58 | the new gauge is `Apply` of the old one; it throws `TypeError` exactly when the event is undefined or a value update has no `args[0]` |
| `WsClient.CommandMessage` | websocket-client.js:34-38 | the message holds `messageId`, `command` and every params field; a params field of the same name overrides the stamped one |
| `WsClient.CommandShapes` | websocket-client.js:42-48 | `initialize` carries exactly messageId, command and `schemaVersion: 0`; `start_listening` carries only messageId and command |
| `WsClient.Send` | websocket-client.js:33-40 | the counter rises by exactly 1 whether or not the send succeeds; exactly one frame stamped with the old counter is accepted when the socket is open, and none otherwise; a missing socket throws `TypeError` |
| `WsClient.Forward` | websocket-client.js:63-67 | the event is handed on unchanged exactly once and the gauge becomes `Apply` of it; the outcome fails exactly when the Prometheus side throws |
| `WsClient.Step` | websocket-client.js:50-61 | a version message advances the counter by one; an event message forwards its event once and sends nothing; a `null` frame throws `TypeError` and changes nothing; any other type, `result` included, changes nothing |
| `WsClient.Run` | websocket-client.js:19-22 | handling frames in order, stopped by the first exception: the socket is untouched, the counter never moves back, and the sent frames and the forwarded events are only ever appended to |
| `WsClient.StartListeningAt` | websocket-client.js:35 | the i-th of n successive start_listening commands carries the id first + i |
| `WsClient.StartListeningIds` | websocket-client.js:35 | each of n successive start_listening commands numbered from first carries the id first + i |
| `WsClient.CompletedRunSends` | websocket-client.js:50-61 | over a run that throws nothing, the counter rises by the number of version messages, and exactly that many start_listening frames go out with consecutive ids |
| `WsClient.CompletedRunForwards` | websocket-client.js:56-57 | over a run that throws nothing, exactly the events of the event messages are forwarded, each once, unchanged and in order |
| `WsClient.CompletedRunGauge` | websocket-client.js:50-67 | over a run that throws nothing, the gauge is the result of handling the forwarded events in turn |
| `WsClient.SendKeepsNumbering` | websocket-client.js:35 | a send keeps every sent id below the counter and the ids strictly increasing |
| `WsClient.RunKeepsNumbering` | websocket-client.js:33-61 | any run, even one that throws, keeps sent ids strictly increasing and below the counter |
| `WsClient.FirstCommandsNumberedFromOne` | websocket-client.js:8 | from a fresh client whose socket opens, `initialize` goes out with id 1 and the k-th frame carries id k, with no gap or repeat |
| `WsClient.ZwaveWebSocketClient.constructor` | websocket-client.js:4-9 | no socket, the counter at 1, nothing sent |
| `WsClient.ZwaveWebSocketClient.Connect` | websocket-client.js:11-12 | a new, not yet open socket replaces the old one; the counter and the sent frames are unchanged |
| `WsClient.ZwaveWebSocketClient.OnOpen` | websocket-client.js:14-17 | once the socket opens, `initialize` is sent as by `Send` |
| `WsClient.ZwaveWebSocketClient.SendCommand` | websocket-client.js:33-40 | the new state and outcome are those of `Send` |
| `WsClient.ZwaveWebSocketClient.SendInitialize` | websocket-client.js:42-44 | sends `initialize` with `schemaVersion: 0` as by `Send` |
| `WsClient.ZwaveWebSocketClient.SendStartListening` | websocket-client.js:46-48 | sends `start_listening` with no extra fields as by `Send` |
| `WsClient.ZwaveWebSocketClient.HandleMessage` | websocket-client.js:50-61 | the new state and outcome are those of `Step`, including the `TypeError` on a `null` frame |
| `WsClient.ZwaveWebSocketClient.HandleEvent` | websocket-client.js:63-67 | the new state and outcome are those of `Forward` |

## Left out

- The HTTP `/metrics` server and its rendering (prom-client.js:17-31): network I/O and asynchronous rendering by a library.
- `collectDefaultMetrics` and the prom-client registry (prom-client.js:6-7): a foreign library. The gauge is only its map from label tuple to value.
- The constructor's `port` argument: it only configures the HTTP server.
- Prom.LabelObject: label values are kept as JavaScript values. prom-client turns them into strings, so that, for example, node id `5` and `"5"` would share one series; that conversion is not modelled.
- The `message`, `error` and `close` hooks of `connect` (websocket-client.js:19-30). `error` and `close` only log, and the `message` hook is `JSON.parse` followed by `HandleMessage`. Reconnection does not exist in the source.
- Sockets left behind when `connect` is called again: their hooks stay registered, and the model does not track them.
- `JSON.parse` and `JSON.stringify`: messages are modelled already decoded, and outbound commands as maps before serialisation. A malformed frame, which makes `JSON.parse` throw, and the order of properties in a frame are not modelled. A frame that parses to `null` is modelled (`NullMessage`).
- `WsClient.Send`: a send on a socket that is not open is modelled as throwing, which is what the socket library does while connecting. On a socket that is closing or closed, the library drops the frame without throwing. Either way no frame is accepted.
- WsClient.RunKeepsNumbering: the counter is an unbounded integer here. In JavaScript it is a double, and once `this.messageId++` reaches 2^53 it stops increasing, so from then on ids would repeat.
- WsClient.FirstCommandsNumberedFromOne: consecutive ids hold only while the counter is below 2^53, for the same reason.
- WsClient.CompletedRunSends: the same 2^53 limit applies to the consecutive ids of the start_listening frames.
- Every `console.log` and `console.error` call: logging only.
- index.js: reading two environment variables and wiring the two objects together. There is no logic in it.
- Numbers are modelled as reals. NaN, the infinities and negative zero are not modelled, so neither are NaN's falsiness nor the fact that NaN is not equal to itself.
- `args` and `args[0]`: a missing `args` and an empty one are both `[]`, and both throw. A non-object `args[0]` such as `null` is not modelled.
