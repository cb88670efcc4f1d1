# whill_ctrl — a verified model of the device state machine and command routing

whill_ctrl drives a WHILL electric wheelchair from two network protocols. OSC messages
and MQTT messages are turned into calls on one `WHILLController`. The controller
forwards them to a device object, which is either a simulated WHILL (`MockWHILL`) or the
hardware reached through the WHILL Python SDK (`RealWHILL`). A background monitor
reconnects a lost device with exponential backoff.

This project models that core in Dafny:

- **`Interface`** (`interface.dfy`) holds the fields every device shares, the SDK calls a
  device can make, and the base `get_status`.
- **`Mock`** (`mock.dfy`) is the simulated device, a class whose methods update
  `connected` and `port` in place.
- **`Real`** (`real.dfy`) is the hardware device, a class with `connected`, `port`,
  `lastError` and the SDK handle `device`. It also keeps a ghost log of the calls it made
  into the SDK. Each SDK call gets an oracle argument: `None` when the call returns,
  `Some(msg)` when it raises an exception whose text is `msg`. Pure functions
  (`AfterConnect`, `AfterSend`, `AfterDisconnect`, `AfterReconnect`) state what each
  operation does to the fields, and every method is proved to do exactly that. The
  invariant `Consistent` holds throughout: while connected, the device has an open handle
  on its current port.
- **`Whill`** (`whill.dfy`) is a device of either variant, as the controller holds it. It
  has the per-operation effects (`SendEffect`, `DisconnectEffect`, `ReconnectEffect`) and
  the factory `create_whill_device`.
- **`Commands`** (`commands.dfy`) is the normalised call both ingress adapters hand to the
  controller, with the joystick clamp to [-100, 100].
- **`Controller`** (`controller.dfy`) covers:
  - dispatch by command name;
  - the OSC and MQTT entry points;
  - `change_port`, `start` and `stop`;
  - the connection monitor as a loop whose backoff intervals are proved equal to a
    reference trace. The interval stays in [5, 60]; six failures in a row wait 5, 10, 20,
    40, 60, 60.
- **`Text`** (`text.dfy`) holds the Python string built-ins the MQTT router relies on:
  `str.strip`, `str.split` on one character, and `int()` on a decimal string, with
  CPython's default limit of 4300 digits, `str(n)`, and the round trip `int(str(n)) == n`
  within that limit.
- **`Mqtt`** (`mqtt.dfy`) holds:
  - `_process_message` as a pure router from (topic, payload, retain) to an action;
  - the method that carries that action out on the controller;
  - the `publish_status` payload and the last-will payload.
- **`Osc`** (`osc.dfy`) holds the four OSC addresses and their callbacks, covering the
  arity check, the order (side first, then front) and the clamp.
- **`Ingress`** (`ingress.dfy`) shows that the same joystick values sent over OSC and over
  MQTT become the same controller call.

Calls are modelled as sequential, one operation at a time. The asyncio locks do not fully
give that in the source: see the concurrency line under "## Left out".

Two behaviours of the code are worth stating outright:

- An unexpected exception in the monitor loop leaves the backoff interval as it was
  (`controller/controller.py:146-148`). It does not double as after a failed reconnect.
- The last-will payload has no `last_error` key (`mqtt/client.py:73-80`), while the
  forced-offline status published on shutdown has one. `Mqtt.ForcedOfflineMatchesWill`
  proves the two agree once `last_error` is removed.

## Model

| member | source | states |
|---|---|---|
| `Interface.BaseState` | src/whill_ctrl/whill/interface.py:13-17 | a fresh base device is not connected and has port `""`; it has no SDK calls, and error and handle are `None` as each variant's constructor sets them |
| `Interface.BaseStatus` | src/whill_ctrl/whill/interface.py:49-51 | the base status carries exactly connected, port and mode as given, with last_error `None` |
| `Whill.Device.IsConnected` | src/whill_ctrl/whill/interface.py:58-60 | `is_connected()` is the device's connection field |
| `Whill.Device.Port` | src/whill_ctrl/whill/interface.py:62-64 | the `port` property is the device's port field |
| `Whill.Device.GetStatus` | src/whill_ctrl/whill/real.py:137-141 | `get_status`, as each variant overrides it (here and in `whill/mock.py:54-58`), reports the current connected, port and last_error fields with the variant's mode; as a function it changes no field |
| `Whill.Device.GetMode` | src/whill_ctrl/whill/interface.py:53-56 | the mode is `"mock"` for the simulated variant and `"real"` for the hardware one |
| `Mock.MockWhill.constructor` | src/whill_ctrl/whill/mock.py:16-21 | after construction the mock is connected to the given port with last_error `None` |
| `Mock.MockWhill.SendJoystick` | src/whill_ctrl/whill/mock.py:23-25 | no field changes |
| `Mock.MockWhill.SendPowerOn` | src/whill_ctrl/whill/mock.py:27-29 | no field changes |
| `Mock.MockWhill.SendPowerOff` | src/whill_ctrl/whill/mock.py:31-33 | no field changes |
| `Mock.MockWhill.SendEmergencyStop` | src/whill_ctrl/whill/mock.py:35-37 | no field changes |
| `Mock.MockWhill.Disconnect` | src/whill_ctrl/whill/mock.py:39-42 | afterwards not connected, with the port unchanged |
| `Mock.MockWhill.Reconnect` | src/whill_ctrl/whill/mock.py:44-52 | always returns true and leaves the mock connected, on the given port if one is passed and on the old port otherwise |
| `Mock.MockWhill.GetMode` | src/whill_ctrl/whill/mock.py:60-61 | the mode is `"mock"` |
| `Mock.MockWhill.GetStatus` | src/whill_ctrl/whill/mock.py:54-58 | the status reports the fields, mode `"mock"` and last_error `None` |
| `Real.AfterConnect` | src/whill_ctrl/whill/real.py:30-42 | `_connect(p)` attempts to open `p`; on success: connected to `p`, no error, an open handle on `p`; on failure: disconnected, the message recorded, port and handle unchanged, and the exception passed on; the invariant holds in both cases |
| `Real.RealWhill.constructor` | src/whill_ctrl/whill/real.py:21-28 | the device starts from the base fields with the given port, then `_connect(port)`; the invariant holds |
| `Real.RealWhill.Connect` | src/whill_ctrl/whill/real.py:30-42 | the fields and the raised exception are those `AfterConnect` gives |
| `Real.AfterSend` | src/whill_ctrl/whill/real.py:44-98 | a `send_*` is a no-op on every field unless connected with a handle; otherwise the call reaches the SDK, a fault disconnects the device and records the message without raising, and the port and handle never change |
| `Real.RealWhill.Send` | src/whill_ctrl/whill/real.py:44-56 | the shared body of the four `send_*` methods changes the fields exactly as `AfterSend` says |
| `Real.RealWhill.SendJoystick` | src/whill_ctrl/whill/real.py:44-56 | `AfterSend` with the SDK joystick call carrying front and side |
| `Real.RealWhill.SendPowerOn` | src/whill_ctrl/whill/real.py:58-70 | `AfterSend` with the SDK power-on call |
| `Real.RealWhill.SendPowerOff` | src/whill_ctrl/whill/real.py:72-84 | `AfterSend` with the SDK power-off call |
| `Real.RealWhill.SendEmergencyStop` | src/whill_ctrl/whill/real.py:86-98 | `AfterSend` with the SDK joystick call front 0, side 0 |
| `Real.AfterDisconnect` | src/whill_ctrl/whill/real.py:100-112 | with no handle, nothing changes; otherwise the port is closed, the handle dropped and the device disconnected, whether or not closing fails; port and last_error are kept |
| `Real.RealWhill.Disconnect` | src/whill_ctrl/whill/real.py:100-112 | the fields change exactly as `AfterDisconnect` says, for either close outcome |
| `Real.AfterClose` | src/whill_ctrl/whill/real.py:117-122 | the close step of `reconnect` keeps an existing handle on its port; the handle ends closed unless closing raised, when it is left as it was; no other field changes |
| `Real.AfterReconnect` | src/whill_ctrl/whill/real.py:114-135 | `reconnect(port?)` opens the given port, else the current one; it returns true exactly when opening succeeds; on failure the device is disconnected, the message recorded and the port unchanged; the SDK sees close (if there was a handle) and then open; the invariant holds |
| `Real.RealWhill.Reconnect` | src/whill_ctrl/whill/real.py:114-135 | the fields and the result are those `AfterReconnect` gives |
| `Real.RealWhill.GetMode` | src/whill_ctrl/whill/real.py:143-144 | the mode is `"real"` |
| `Real.RealWhill.GetStatus` | src/whill_ctrl/whill/real.py:137-141 | the status reports the fields, mode `"real"`, and last_error from the field |
| `Whill.SdkCallOf` | src/whill_ctrl/whill/real.py:94 | the joystick operation issues the SDK joystick call with its values; the emergency stop issues the SDK joystick call with 0, 0 |
| `Whill.SendEffect` | src/whill_ctrl/whill/mock.py:23-37 | on the mock every `send_*` leaves the state unchanged; on either variant port and handle are kept and a call without a fault changes neither connected nor last_error; a fault on a connected real device disconnects it and records the message; the variant's invariant is preserved |
| `Whill.DisconnectEffect` | src/whill_ctrl/whill/real.py:100-112 | from a valid state, `disconnect` leaves the device not connected with no handle and still valid; port and last_error are kept on both variants |
| `Whill.ReconnectEffect` | src/whill_ctrl/whill/real.py:114-135 | `reconnect` succeeds exactly on the mock or when opening succeeds; success means connected on the target port; failure means disconnected, port unchanged, message recorded; validity is preserved |
| `Whill.EmergencyStopIsJoystickZero` | src/whill_ctrl/whill/real.py:86-98 | on either variant an emergency stop has exactly the effect of a joystick command with front 0 and side 0 |
| `Whill.DisconnectIdempotent` | src/whill_ctrl/whill/mock.py:39-42 | disconnecting twice has the same effect as disconnecting once, on either variant |
| `Whill.Send` | src/whill_ctrl/whill/interface.py:19-37 | a `send_*` on either variant changes the device as `SendEffect` says |
| `Whill.Disconnect` | src/whill_ctrl/whill/interface.py:39-42 | `disconnect` on either variant changes the device as `DisconnectEffect` says |
| `Whill.Reconnect` | src/whill_ctrl/whill/interface.py:44-47 | `reconnect` on either variant changes the device and returns as `ReconnectEffect` says |
| `Whill.Create` | src/whill_ctrl/whill/factory.py:13-33 | the mock is always created; without the SDK the real device fails with the import message; a failed first connect is re-raised with its message; a created device is fresh, valid, connected to the port, with no error |
| `Commands.Clamp` | src/whill_ctrl/osc/server.py:54-55 | the result lies in [-100, 100], equals the input inside that range, and saturates at the nearer bound outside it |
| `Commands.ClampIdempotent` | src/whill_ctrl/osc/server.py:54-55 | clamping twice is clamping once |
| `Controller.Dispatch` | src/whill_ctrl/controller/controller.py:81-101 | an unknown command name invokes no device operation; a known one invokes the operation of that name; the joystick takes `front` and `side` from the parameters, 0 when absent |
| `Controller.DispatchReachesEveryOp` | src/whill_ctrl/controller/controller.py:89-101 | every device operation is invoked by the command that names it, with its own arguments |
| `Controller.NextInterval` | src/whill_ctrl/controller/controller.py:135-148 | the interval resets to 5 while connected or after a successful reconnect, becomes `min(2 * interval, 60)` after a failed one, and stays the same after an unexpected exception; inside [5, 60] it stays inside |
| `Controller.SleepFor` | src/whill_ctrl/controller/controller.py:128-148 | an iteration waits 10 seconds while connected, and the current interval otherwise |
| `Controller.Trace` | src/whill_ctrl/controller/controller.py:119-148 | one interval per iteration; the last is the interval after all of them |
| `Controller.Waits` | src/whill_ctrl/controller/controller.py:119-148 | one wait per iteration: the k-th iteration waits as `SleepFor` says for its observation, with the interval left by the iteration before it (5 seconds for the first) |
| `Controller.CurrentInBounds` | src/whill_ctrl/controller/controller.py:121-148 | starting inside [5, 60], the interval stays inside after any sequence of iterations |
| `Controller.TraceInBounds` | src/whill_ctrl/controller/controller.py:121-148 | every interval the monitor ever uses lies in [5, 60] |
| `Controller.SuccessResets` | src/whill_ctrl/controller/controller.py:135-137 | one successful reconnect brings the interval back to 5, whatever came before |
| `Controller.FailuresDoubleUpToCap` | src/whill_ctrl/controller/controller.py:138-140 | after n failed reconnects from the base the interval is `min(5 * 2^n, 60)` |
| `Controller.BackoffSequence` | src/whill_ctrl/controller/controller.py:121-148 | six failing iterations in a row wait 5, 10, 20, 40, 60, 60 seconds (the waits `MonitorConnection` is proved to sleep) and leave the intervals 10, 20, 40, 60, 60, 60 |
| `Controller.WhillController.constructor` | src/whill_ctrl/controller/controller.py:16-30 | a new controller holds the device, is not running, and has no monitor task |
| `Controller.WhillController.Start` | src/whill_ctrl/controller/controller.py:32-40 | sets running, starts the monitor task, and returns true |
| `Controller.WhillController.Stop` | src/whill_ctrl/controller/controller.py:42-57 | clears running, cancels the monitor task if there is one, then disconnects the device as `DisconnectEffect` says |
| `Controller.WhillController.ExecuteCommand` | src/whill_ctrl/controller/controller.py:81-101 | the device operation `Dispatch` picks is run with the effect `SendEffect` gives; an unknown name leaves the device unchanged |
| `Controller.WhillController.HandleOscCommand` | src/whill_ctrl/controller/controller.py:59-68 | the same effect as `ExecuteCommand` |
| `Controller.WhillController.HandleMqttCommand` | src/whill_ctrl/controller/controller.py:70-79 | the same effect as `ExecuteCommand`, hence identical to the OSC entry point for the same command and parameters |
| `Controller.WhillController.ChangePort` | src/whill_ctrl/controller/controller.py:103-117 | `change_port(p)` is `reconnect(port=p)` with its result; on success the device is connected on `p` |
| `Controller.Iteration` | src/whill_ctrl/controller/controller.py:125-148 | one monitor iteration: it reports a fault exactly when the body raises and then changes nothing; it reports "connected" exactly when it does not raise and the device is connected, and then changes nothing; otherwise the device is reconnected to its last port as `ReconnectEffect` says, and a failure happens only on the real device, leaving it disconnected with the open error recorded; validity is preserved |
| `Controller.Monitor` | src/whill_ctrl/controller/controller.py:125-148 | a run of iterations: one observation per round, a fault exactly in the rounds whose body raises, no failed reconnect on the mock, validity preserved |
| `Controller.ConnectedStaysConnected` | src/whill_ctrl/controller/controller.py:128-144 | the monitor never touches a connected device: every iteration finds it connected or raises, and the device is unchanged |
| `Controller.ConnectedKeepsBaseInterval` | src/whill_ctrl/controller/controller.py:141-144 | while the device stays connected, the interval is 5 after every iteration |
| `Controller.WhillController.CheckConnection` | src/whill_ctrl/controller/controller.py:126-148 | the device state and the observation are exactly those `Iteration` gives for the old state; validity is preserved |
| `Controller.WhillController.MonitorConnection` | src/whill_ctrl/controller/controller.py:119-148 | while running, the device state and the observations are exactly those `Monitor` gives for the rounds, the intervals equal the reference trace from 5 over those observations, each lies in [5, 60], and each wait is the one `SleepFor` gives; when not running the loop does nothing and the device is unchanged |
| `Text.Trim` | src/whill_ctrl/mqtt/client.py:123 | the result is a slice of the input with only whitespace of the given kind outside it, and it neither starts nor ends with such whitespace, so exactly the leading and trailing whitespace is removed; `Strip` is this with the whitespace of `str.strip()`, which includes `\x1c` to `\x1f` |
| `Text.IntSkipsLessThanStrip` | src/whill_ctrl/mqtt/client.py:149 | `int()` skips less than `strip()` removes: `"5\x1c".strip()` is `"5"`, but `int("5\x1c")` raises |
| `Text.Split` | src/whill_ctrl/mqtt/client.py:133 | `split` yields at least one piece and no piece contains the separator |
| `Text.JoinSplit` | src/whill_ctrl/mqtt/client.py:133 | joining the pieces of a split with the separator gives back the string |
| `Text.SplitJoin` | src/whill_ctrl/mqtt/client.py:133 | splitting a join of separator-free pieces gives back the pieces |
| `Text.ParseDigits` | src/whill_ctrl/mqtt/client.py:149 | a run of digits is read exactly when it is non-empty digits with single underscores only between digits, and has at most 4300 digits once the underscores are removed (leading zeros count) |
| `Text.ParseDigitsReadsShow` | src/whill_ctrl/mqtt/client.py:149 | the value read is the number whose `str` is the literal without its underscores and leading zeros |
| `Text.ParseInt` | src/whill_ctrl/mqtt/client.py:149 | `int(s)` succeeds exactly when the text without the surrounding space and `\t` to `\r` (the whitespace `int()` skips, narrower than `strip()`'s), and without its sign, is a well-formed literal of at most 4300 digits; the magnitude is that literal's value; a negative result comes only from a leading `-` and a positive one only without it |
| `Text.ParseShow` | src/whill_ctrl/mqtt/client.py:149 | `int(str(n)) == n` for every n of at most 4300 digits; the decimal text of a longer n is rejected by `int()` |
| `Text.FitsRange` | src/whill_ctrl/mqtt/client.py:149 | n has at most 4300 decimal digits exactly when its magnitude is below 10^4300 |
| `Mqtt.JoystickPayload` | src/whill_ctrl/mqtt/client.py:142-157 | a joystick payload is accepted exactly when it splits on `,` into two integers that `int()` accepts (so at most 4300 digits each); the first becomes front and the second side, each clamped |
| `Mqtt.Route` | src/whill_ctrl/mqtt/client.py:115-136 | a retained message under `whill/commands/` is dropped, and so is a topic of fewer than three segments |
| `Mqtt.RouteParts` | src/whill_ctrl/mqtt/client.py:133-177 | a command comes only from `whill/commands/<name>` with a known name, carrying the parsed joystick payload or no parameters; a port change comes only from `whill/ctrl/serial/change_port`, with the payload |
| `Mqtt.CommandShape` | src/whill_ctrl/mqtt/client.py:138-172 | a routed command's topic splits into `whill`, `commands` and the command name, which is known; the joystick carries the parsed payload, the others no parameters |
| `Mqtt.ChangePortShape` | src/whill_ctrl/mqtt/client.py:174-177 | a port change comes only from a topic starting `whill/ctrl/serial/change_port`, and asks for the stripped payload |
| `Mqtt.CommandRouted` | src/whill_ctrl/mqtt/client.py:138-172 | an unretained `whill/commands/<name>` message is routed by its name and stripped payload alone |
| `Mqtt.RetainedCommandIgnored` | src/whill_ctrl/mqtt/client.py:127-130 | a retained message under `whill/commands/` is ignored whatever its name and payload |
| `Mqtt.JoystickPayloadOfShow` | src/whill_ctrl/mqtt/client.py:144-152 | the payload `str(front),str(side)` is read back as the clamped pair when both values have at most 4300 digits, and rejected otherwise |
| `Mqtt.JoystickRoundTrip` | src/whill_ctrl/mqtt/client.py:142-157 | the message `str(front),str(side)` on `whill/commands/joystick` sends the joystick call with clamped front and side when both have at most 4300 digits; otherwise `int()` raises and nothing is sent |
| `Mqtt.SeparatorInsidePayloadIgnored` | src/whill_ctrl/mqtt/client.py:123-157 | the joystick payload `5\x1c,3` sends nothing: `strip()` leaves the inner `\x1c`, and `int()` rejects `"5\x1c"` |
| `Mqtt.JoystickRouted` | src/whill_ctrl/mqtt/client.py:142-157 | the joystick topic sends the parsed payload when it is two integers, and nothing when the message is retained or the payload is malformed |
| `Mqtt.PlainCommandsIgnorePayload` | src/whill_ctrl/mqtt/client.py:159-169 | `power_on`, `power_off` and `emergency_stop` send their command with no parameters, whatever the payload |
| `Mqtt.UnknownCommandIgnored` | src/whill_ctrl/mqtt/client.py:171-172 | an unknown name under `whill/commands` sends nothing, retained or not |
| `Mqtt.ChangePortRouted` | src/whill_ctrl/mqtt/client.py:174-177 | `whill/ctrl/serial/change_port` asks for the stripped payload as the new port, retained or not |
| `Mqtt.ProcessMessage` | src/whill_ctrl/mqtt/client.py:115-177 | an ignored message leaves the device unchanged; a command changes it as the dispatched operation's `SendEffect` says; a port change changes it as `ReconnectEffect` with the payload as port says |
| `Mqtt.PublishStatus` | src/whill_ctrl/mqtt/client.py:179-197 | with no client nothing is published; otherwise exactly connected, port, mode, last_error and last_update, where connected is forced false when asked and the rest are the status fields |
| `Mqtt.WillPayload` | src/whill_ctrl/mqtt/client.py:73-80 | the will has exactly connected false, the current port, the current mode and last_update, and no last_error |
| `Mqtt.ForcedOfflineMatchesWill` | src/whill_ctrl/mqtt/client.py:73-80 | the forced-offline status carries last_error, and without it equals the will payload |
| `Osc.Handler` | src/whill_ctrl/osc/server.py:29-34 | an address has a callback exactly when it is one of the four mapped addresses |
| `Osc.Invoke` | src/whill_ctrl/osc/server.py:36-95 | the joystick callback forwards a call exactly when it has at least two scalable arguments, and that call dispatches the joystick with front the clamped second argument and side the clamped first; the other callbacks always forward their own command with no parameters |
| `Osc.FourAddresses` | src/whill_ctrl/osc/server.py:29-34 | exactly four addresses are mapped, to four different callbacks, and every callback has an address |
| `Osc.JoystickNeedsTwoArgs` | src/whill_ctrl/osc/server.py:44-46 | the joystick address with fewer than two arguments leads to no controller call |
| `Osc.JoystickSideThenFront` | src/whill_ctrl/osc/server.py:49-60 | the first argument becomes side and the second front, each clamped into [-100, 100]; extra arguments are ignored |
| `Osc.PlainAddressesIgnoreArgs` | src/whill_ctrl/osc/server.py:64-95 | the power-on, power-off and emergency-stop addresses forward their own command with no parameters whatever the arguments, and it dispatches the matching device operation |
| `Osc.Deliver` | src/whill_ctrl/osc/server.py:36-95 | a message that leads to no call leaves the device unchanged; otherwise the device changes as the dispatched operation's `SendEffect` says |
| `Ingress.JoystickIngressAgree` | src/whill_ctrl/osc/server.py:49-60 | an OSC joystick message (side, front) and the MQTT joystick message `front,side` lead to the same controller call, for values of at most 4300 digits (beyond that the MQTT side sends nothing) |

## Left out

- Text.Show: models `str(n)` for every integer; CPython's `str(n)` raises for more than 4300 digits, which the model states instead as `Text.Fits`, the condition under which `int()` accepts the text back.
- Text.ParseInt: the digit limit is CPython's default of 4300; a limit changed at run time (`sys.set_int_max_str_digits`, `PYTHONINTMAXSTRDIGITS`) is not modelled.
- Concurrency: the asyncio locks, `create_task` and task cancellation are not modelled. Calls are sequential; the monitor task is a state (`NoTask`, `MonitorRunning`, `MonitorCancelled`), not a running coroutine.
- Controller.WhillController.CheckConnection: `monitor_connection` checks `is_connected()`, sleeps and then calls `reconnect()` without holding `command_lock` (`controller/controller.py:128-133`), so a command or a `change_port` can run in between and the monitor still reconnects afterwards, to whatever port is current then. The model makes the check and the reconnect one atomic step and does not capture that interleaving.
- Timing: `asyncio.sleep` is not executed. The monitor records how long each iteration would wait, and it runs one iteration per element of its `rounds` argument rather than until `running` is cleared from outside.
- The hardware SDK (`ComWHILL`, `com.close()`) is replaced by oracle arguments. Whether the SDK is installed is a parameter of `Whill.Create`.
- Controller.WhillController.Start: calling `start` twice leaves the first monitor task running in the source. The model has a single task state and does not capture the orphaned task.
- Osc.Invoke: OSC arguments are taken after the float scaling `int(round(x * 100))`. Floating-point rounding is not modelled; an argument on which scaling raises is `Unscalable`.
- The OSC dispatcher library (`pythonosc`) and the UDP server start/stop are not modelled. Incoming OSC address patterns are not modelled: the dispatcher matches a pattern such as `/whill/*` against every mapped address, so one message can run several callbacks. `Osc.Receive` takes a plain address that runs at most one callback, and none for an unmapped address.
- Mqtt.Route: the payload is taken as already-decoded text. A payload that is not valid UTF-8 raises in the source before routing; that path is not modelled.
- Text.Trim and Text.ParseInt: only ASCII whitespace and ASCII decimal digits are modelled. Python's `str.strip` and `int()` also accept other Unicode whitespace and digits. Within ASCII, the two kinds of whitespace are modelled separately: `strip()` also removes `\x1c` to `\x1f`, while `int()` skips only space and `\t` to `\r`.
- The MQTT transport is not modelled. This covers the `_run_mqtt_client` connect/retry loop, aiomqtt `Client`/`Will`, subscriptions and `json.dumps`. The timestamp `last_update` is an opaque parameter.
- Mqtt.PublishStatus: an exception raised while publishing is only logged in the source. The model returns the payload that would be published.
- `core/app.py` (configuration files, signals, CLI options, shutdown order) is not part of this model.
- `__main__.py` (a standalone legacy script that repeats the OSC mapping) is not part of this model.
- `config.py`, `utils/logger.py` and the package `__init__.py` are not part of this model.
- Logging is not modelled.
