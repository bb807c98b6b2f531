# CoreCONF sensor node: a Dafny model of the device-side CoAP server

This project models the device program of a constrained sensor node
(`main.py`). The node serves five CoAP resources (RFC 7252): `/sensors`,
`/capabilities`, `/.well-known/core`, `/config` and `/leds`. It supports
the Observe extension (RFC 7641) on `/leds`. Payloads are CBOR maps
(RFC 8949).

The model covers:

- `ConfigManager`: a one-key configuration dict that starts as `{"sampling_interval": 10}`, and its merge update.
- `SensorManager`: the LED state dict, the three LED pins it drives, the red-LED toggle from the button, and the cached last sample with its timestamp.
- `SensorServer`: the five resource handlers registered in `setup`, the observer registry, `notify_observers`, and the change-detection step of `run`.
- The sampling loop's choice of the next sleep interval.

The model follows the code literally:

- The configuration key is `"sampling_interval"`.
- Observers are stored under the key `"leds"`, not `"/leds"`.
- Every response passes content-format 0.
- A PUT on `/leds` stores whatever item was decoded, whatever keys it has.
- A PUT whose body fails to decode gets a 5.00 response. So does a PUT whose `{"status": "updated", …}` payload fails to encode, or whose 2.04 send raises. The 5.00 payload is `{"status": "error", "message": str(e)}`.
- Change detection uses Python's `!=` (`Cbor.PyEq`), so `True == 1 == 1.0`.
- Pins take the truthiness of `states.get(key, 0)`.

Some consequences of the code that the model makes explicit:

- `last_data["ledStates"]` is the very dict held in `led_states`. So a button toggle after a sample also changes what `/sensors` reports, until a PUT on `/leds` replaces the dict. `SensorManager.lastDataSharesLeds` records this sharing.
- A PUT on `/leds` whose body decodes to something that is not a dict still becomes the LED state. The pins are then left as they were: the first `.get` raises, and the error is caught.
- After such a PUT, the next poll step sends the notifications and then calls `.copy()`. For an item with no `.copy()` (anything but a dict or a list) that call raises out of `run`. `PollTick` reports this as `ok == false`, with the snapshot unchanged.
- Observers are never unregistered. The notification message id is `int(utime.time()) & 0xFFFF`, shared by every notification of one fan-out.

Further facts about the code that the model states:

- A sample fails only when the DHT22 read raises. A missing light or distance reading only leaves that field empty.
- The configuration key is `sampling_interval`, and a PUT accepts any value for it.
- A PUT on `/leds` replaces the LED state first and writes the pins after.
- The button toggle changes the LED state directly, with no serialisation against the request handlers.
- When the fallback error payload also fails to encode, no response is sent.

The codec and the CoAP engine are foreign code. They are parameters: `Coap.Platform` holds `cbor.dumps` and `cbor.loads`, each able to fail with a message, and says whether a given `sendResponse` call raises. Every `sendResponse` call is appended to `SensorServer.outbox`. Hardware reads and clock readings are method parameters.

## Model

| member | source | states |
|---|---|---|
| `Config.ConfigManager.constructor` | main.py:204-207 | The configuration starts as exactly `{"sampling_interval": 10}`. |
| `Config.ConfigManager.GetConfig` | main.py:209-210 | Returns the live configuration dict. |
| `Config.ConfigManager.UpdateConfig` | main.py:212-217 | The new configuration is `MergeConfig` of the old one and the update; the key stays present. |
| `Config.MergeConfig` | main.py:212-217 | Copies `sampling_interval` exactly when the update is a dict holding it. Any other update, including a non-dict, leaves the configuration unchanged. Other keys are never touched. |
| `Config.MergeConfigIdempotent` | main.py:212-217 | Applying the same update twice equals applying it once. |
| `Config.SleepInterval` | main.py:442-443 | The next sleep is the stored `sampling_interval`, or 1 when the key is absent. |
| `Config.ConfigManager.SampleInterval` | main.py:442-443 | On a valid manager, the interval read is the stored `sampling_interval`. |
| `Sensors.SensorManager.constructor` | main.py:62-68 | The LED state starts as all three LEDs false, with no cached sample. |
| `Sensors.WrittenPins` | main.py:84-88 | For a dict, each pin is the truthiness of its key's value, false when the key is missing. For a non-dict, no pin changes. |
| `Sensors.SensorManager.UpdateLedStates` | main.py:80-88 | The LED state becomes exactly the given item. The pins are `WrittenPins` of it. The cached sample stops sharing the dict. |
| `Sensors.ToggledRed` | main.py:90-96 | For a dict holding `redLed`: the same keys, `redLed` becomes `not` its old value, all other entries unchanged. Otherwise the state is unchanged. |
| `Sensors.ToggleTwiceRestores` | main.py:93 | Two toggles restore a dict whose `redLed` is a bool. |
| `Sensors.ToggleKeepsOtherLeds` | main.py:93 | A toggle never changes whether `yellowLed` and `greenLed` are present, nor their values. |
| `Sensors.SensorManager.ToggleRedLed` | main.py:90-96 | The LED state becomes `ToggledRed` of the old one, and the pins are rewritten when it changes. A cached sample that shares the dict sees the new value. With no `redLed` nothing changes. |
| `Sensors.BinLevel` | main.py:112-126 | A fill level is present exactly when a distance was read and it is at most `MAX_BIN_HEIGHT`. It is `100 - d`, within [0, 100] for a non-negative distance. |
| `Sensors.SampledRecord` | main.py:128-158 | No record exactly when the DHT22 read raises. Otherwise the record carries the timestamp of the clock fields, the light and bin readings, and the live LED state. Temperature and humidity are present exactly when the DHT22 is fitted, and then hold its reading. |
| `Sensors.RecordPayload` | main.py:146-153 | The encoded sample is a dict with exactly the six keys of the source. Each key holds its field of the record, with a missing reading as null. |
| `Sensors.SensorManager.GetSensorData` | main.py:128-158 | Returns `SampledRecord`. On success the record is cached and shares the LED dict. On failure the cache is unchanged. The LED state and pins never change. |
| `Timestamps.ZeroPadValue` | main.py:141-144 | A zero-padded decimal field reads back as the number it renders. |
| `Timestamps.ZeroPadLength` | main.py:141-144 | A value below 10^width renders in exactly `width` characters. |
| `Timestamps.TimestampLength` | main.py:140-144 | For in-range clock fields, the timestamp is exactly 19 characters long. |
| `Timestamps.TimestampRoundTrip` | main.py:140-144 | For in-range clock fields, the timestamp has the form `YYYY-MM-DD HH:MM:SS` and parses back to the same six fields. |
| `Cbor.PyEqReflexive` | main.py:427-430 | Every value compares equal to its own copy. So right after the snapshot is refreshed, the state and the snapshot do not differ. |
| `Cbor.PyEqSymmetric` | main.py:427 | `a != b` and `b != a` agree. |
| `Cbor.PyEq` | main.py:427 | Python `==` on decoded items: `True == 1 == 1.0`, dicts are equal when their keys and values are, lists when their items are pairwise. Its laws are `Cbor.PyEqReflexive` and `Cbor.PyEqSymmetric`. |
| `Cbor.Truthy` | main.py:84-86 | Python truthiness, used for `not` in the toggle (main.py:93) and for the pin level that `Pin.value(x)` sets. `Sensors.WrittenPins` and `Sensors.ToggleTwiceRestores` state its consequences. |
| `Cbor.Copyable` | main.py:430 | Which decoded items have `.copy()`: dicts and lists. `Server.SensorServer.PollTick` succeeds after a change exactly when the new LED state is one of these. |
| `Timestamps.ZeroPad` | main.py:141-144 | A `{:0Nd}` field: the digits of the value, left-padded with zeros to the width. Every character is a digit. `Timestamps.ZeroPadValue` and `Timestamps.ZeroPadLength` give its value and length. |
| `Timestamps.Timestamp` | main.py:140-144 | The `YYYY-MM-DD HH:MM:SS` string built from the first six clock fields. `Timestamps.TimestampLength` and `Timestamps.TimestampRoundTrip` state its properties. |
| `Observe.Registered` | main.py:371-373 | The tuple is in the list afterwards. The list is unchanged when the tuple was already there, and otherwise grows by that tuple at the end. A duplicate-free list stays duplicate-free. |
| `Observe.RegisterObserver` | main.py:370-373 | After `setdefault`/append under `leds`, the list there is `Registered` of the earlier list: unchanged when the tuple is already present, and otherwise the tuple appended at the end. A first registration gives the one-tuple list. Other keys are untouched, and the registry invariant is preserved. |
| `Observe.RegisterIdempotent` | main.py:371-373 | Registering the same `(ip, port, token)` twice equals registering it once. |
| `Observe.FanOut` | main.py:261-263 | One response per observer, in list order, each for that observer. |
| `Observe.NotificationId` | main.py:260 | The notification message id is the clock reading modulo 65536 (`& 0xFFFF`), so it lies in [0, 65535]. |
| `Observe.NotifyReplies` | main.py:252-266 | Nothing for an unobserved resource or a payload that fails to encode. Otherwise exactly one 2.05 response per observer, in order, with that observer's ip, port and token, the same encoded payload and one shared id. |
| `Replies.EncodeWithFallback` | main.py:334-339 | The encoded value; else the encoded `{"error": "encoding failed"}`; none only when both encodings raise. |
| `Replies.ContentReplies` | main.py:380-384 | At most one 2.05 response. It echoes the request's message id and token, and is absent only when both encodings fail. |
| `Replies.ErrorReplies` | main.py:356-360 | At most one 5.00 response carrying the encoded error message. It is absent exactly when that message fails to encode. |
| `Replies.PutReplies` | main.py:345-360 | At most two responses, each echoing the request. The first is a 2.04 carrying `{"status": "updated", key: value}` exactly when the update succeeded and that payload encoded. If that 2.04 send raises, it is followed by the error response for the send's message. A decode failure, or a failure to encode the updated payload, yields only the error response for that message. Every later response is a 5.00. |
| `Coreconf.Capabilities` | main.py:188-194 | The encoded schema when it encodes. Otherwise the encoded `{"error": "encoding failed"}` marker when that encodes. Nothing only when both fail to encode. |
| `Server.SensorServer.constructor` | main.py:242-250 | No observers; the snapshot is a copy of the current LED state. |
| `Server.SensorServer.Send` | main.py:286-290 | One `sendResponse` call: the response is appended to the outbox, and the fault it reports is the engine's for that response. The registry and snapshot are kept. |
| `Server.SensorServer.SendContent` | main.py:280-290 | The encode-with-fallback and guarded `sendResponse` of a 2.05 reply: the outbox grows by exactly `ContentReplies`, and the registry and snapshot are kept. |
| `Server.SensorServer.SendError` | main.py:356-360 | The except branch of a PUT: the outbox grows by exactly `ErrorReplies` for the message, and the registry and snapshot are kept. |
| `Server.SensorServer.SendUpdated` | main.py:349-360 | The 2.04 `{"status": "updated", key: value}` reply with its error path: the outbox grows by exactly `PutReplies` of a successful outcome, and the registry and snapshot are kept. |
| `Server.SensorServer.SensorsHandler` | main.py:277-290 | No response while no sample is cached. Otherwise the cached sample is sent with 2.05, for any method. |
| `Server.SensorServer.CapabilitiesHandler` | main.py:293-305 | A GET gets the encoded schema with 2.05. Any other method gets no response. |
| `Server.SensorServer.WellKnownHandler` | main.py:308-328 | A GET gets the encoded resource list with 2.05. Any other method gets no response. |
| `Server.SensorServer.ConfigHandler` | main.py:331-360 | A GET answers the configuration with 2.05. A PUT merges the decoded body and answers as `PutReplies` with key `config`, or with 5.00 when the body fails to decode. Other methods get no response. |
| `Server.SensorServer.LedsHandler` | main.py:363-400 | A GET with Observe 0 registers the sender under `leds`; one without it leaves the registry unchanged. Every GET answers the LED state with 2.05. A PUT stores the decoded item and answers as `PutReplies` with key `ledStates`. A failed decode changes no state. |
| `Server.SensorServer.NotifyObservers` | main.py:252-266 | The outbox grows by exactly `NotifyReplies`, and the registry is unchanged. |
| `Server.SensorServer.PollTick` | main.py:425-430 | No change sends nothing. A change sends `NotifyReplies` for `leds` and then sets the snapshot to the current state. The step fails only when that state has no `.copy()`. After a successful step, state and snapshot compare equal. |
| `Server.SamplingStep` | main.py:436-444 | A sample is taken as `GetSensorData` specifies. The LED state and the pins are kept. A new sample shares the LED dict; without one the sharing is as before. The next sleep is the configured interval as it stands after the sample. |
| `Scenarios.FreshServer` | main.py:450-454 | A freshly wired server has the initial LED state and its snapshot, the default configuration, no sample, no observers and nothing sent. |
| `Scenarios.IdenticalLedPuts` | main.py:385-395 | Two identical PUTs on `/leds` leave the same state. Both answer or both stay silent, and their first responses are equal, whatever the engine does with each send. A later GET from another caller answers that state. |
| `Scenarios.ConfigRoundTrip` | main.py:331-360 | A fresh server answers `{sampling_interval: 10}`. A PUT of 5 answers the merged configuration. The next GET and the sampling interval both give 5. |
| `Scenarios.FirstPress` | main.py:93 | A press on a fresh device yields red true, yellow and green false, which differs from the initial state. |
| `Scenarios.NotifySingleObserver` | main.py:261-263 | With one observer, a notification is exactly one response to that observer, or nothing when encoding fails. |
| `Scenarios.ButtonPressNotifies` | main.py:425-430 | One registered observer, one button press, one poll step: exactly one notification, to that observer with its own token, carrying the toggled state. |

## Left out

- Hardware drivers are left out because they are foreign device calls: `DHT22`, `ADC`, `HCSR04`, `Pin` construction and the button `irq` setup. The readings are parameters: the DHT22 result, the light level and the distance.
- Initial pin levels are left out because the source never writes the pins at start-up. The model starts them low.
- `Sensors.BinLevel`: the fill percentage is computed exactly in reals. The float arithmetic and `round(…, 2)` are left out.
- The microcoapy engine is foreign code and is left out: `addIncomingRequestCallback`, `start`, `poll`, frame parsing and path dispatch. How it treats unregistered paths is not modelled. Exceptions that escape a handler are caught around `poll` and are modelled only as "no further sends".
- The CBOR codec is opaque: `cbor.dumps` and `cbor.loads` are platform functions. The model of decoded data has text-only map keys, and floats without NaN or infinities.
- `asyncio` scheduling, `sleep` and `gather`, and the button interrupt firing at any moment, are concurrency concerns and are left out. The toggle is an ordinary sequential operation. The loops appear one iteration at a time (`PollTick`, `SamplingStep`).
- `Server.SamplingStep` returns the configured interval as stored. What `asyncio.sleep` does with a non-number is not modelled.
- `NetworkManager.connect_wifi` is left out because it is network I/O with a wall-clock timeout.
- The YANG model and the discovery list are static constants. They appear as constant payloads (`Coreconf.YANG_MODEL`, `Coreconf.DISCOVERY`), not as behaviour.
- `CoAPClient.py` and `CoAPClientPut.py` are left out: they are network clients that send one request and print the reply.
- All `print` logging is left out.
- A `sendResponse` call that raises is modelled as a function of its arguments (`Coap.Platform.sendFault`). So the model cannot express an engine that fails one send and not an identical later one. `Scenarios.IdenticalLedPuts` states only what holds for any engine.
- `Scenarios.ButtonPressNotifies` does not go on to show that a second poll step with no change sends nothing. That property is stated for any server by `Server.SensorServer.PollTick`.
