# PyLotusLamp in Dafny

A model of the core of PyLotusLamp, a Python library that drives Bluetooth Low Energy
RGB LED controllers ("Lotus Lamp" / MELK style devices) through a proprietary,
write-only frame protocol. Three pieces are modelled:

- **The frame encoders** (`CommandUtils.py`), in `command_utils.dfy`: power, colour,
  pattern, speed, brightness and the microphone options, each a fixed byte frame that
  starts with `0x7E` and ends with `0xEF`, numeric fields clamped with
  `max(lo, min(hi, x))`. `frames.dfy` adds the logical command type and a decoder, the
  encoders' inverse, through which the round trip and injectivity are proved.
- **The controller session** (`Controller.py`), in `controller.dfy` as class
  `Controller`: the write/notify characteristic UUIDs, the shadow fields, the
  characteristic scan over services, characteristics and property strings
  (`discovery.dfy` gives its specification: Python's substring `in` and "first match in
  enumeration order"), the setters, power toggling and the state-loop task handle.
  `hex.dfy` models the `bytearray.fromhex` decoding `set_color_hex` relies on.
- **The signal-strength wording** (`script/scanner.py`, `rssi_to_word`), in `scanner.dfy`.

The BLE client is replaced by what the controller does with it: `hasClient` (whether
`connect` has created it), `sent` (every `write_gatt_char` call: target UUID, payload,
`response=False`) and `subscriptions` (every `start_notify`). The GATT table the scan walks
is a parameter. The asyncio task is an optional handle: `spawned` counts the tasks created,
`cancelled` logs the handles cancelled. `Controller.Valid` is the invariant every reachable state keeps: the
current handle and every cancelled one are below `spawned`; the constructor establishes it and
starting and stopping the loop preserve it. A Python exception is an `Outcome` of
`Raised(fault)`: `ClientMissing` for the AttributeError of a write before `connect`,
`ByteOutOfRange` for the ValueError `bytes([...])` raises on a colour component outside
0..255, `MalformedHex` for the ValueError of `bytearray.fromhex`.

Behaviours of the code that the model keeps:

- The controller does not check that a write characteristic was resolved: with none, the
  write is handed to the client with target `None` (what the BLE library then does is not
  part of this model).
- `start_state_loop` replaces a running task without cancelling it (shown by
  `RestartLeavesFirstTaskRunning`), and without a registered function it returns silently.
- `set_color_hex` records the string before decoding it, so a malformed string still
  replaces the shadow colour; and it accepts any even number of hex digits, producing a
  frame of `|bytes| + 6` bytes.
- `power` starts as `False`; the other shadow fields start as `None` (Controller.py:47-51).
- `_state_loop` catches nothing: the first pass that raises (a malformed colour string, or
  a pass before `connect`) ends the task, while `_task` still holds its handle; so a raising
  pass stops the loop (Controller.py:223-226).

## Model

| member | source | states |
|---|---|---|
| `CommandUtils.Clamp` | CommandUtils.py:35-49 | `max(lo, min(hi, x))` lies in [lo, hi], is x when x is in range, lo below it and hi above it |
| `CommandUtils.FlagByte` | CommandUtils.py:13-15 | the flag byte is 1 exactly when on and 0 exactly when off |
| `CommandUtils.OnOffCommand` | CommandUtils.py:6-20 | nine bytes `7E 04 04 x 00 x FF 00 EF`; bytes 3 and 5 are both the power flag |
| `CommandUtils.ColorCommand` | CommandUtils.py:22-28 | a frame exists exactly when r, g, b are all in 0..255; it is nine bytes with header, footer, `07 05 03`, `10`, and r, g, b at indices 4, 5, 6 |
| `CommandUtils.ColorCommandBytes` | CommandUtils.py:30-31 | length is `|h| + 6`, h sits between `7E 07 05 03` and `10 EF`; for three bytes it is the create_color_command frame |
| `CommandUtils.PatternCommand` | CommandUtils.py:33-36 | nine bytes, byte 3 is `clamp(p, 0, 28) + 128` so in [128, 156], in-range patterns pass unchanged, byte 4 is `0x03` |
| `CommandUtils.SpeedCommand` | CommandUtils.py:38-42 | nine bytes, kind tag `0x02`, byte 3 is speed clamped to 0..100 (0 below, 100 above, unchanged in range) |
| `CommandUtils.BrightnessCommand` | CommandUtils.py:44-49 | nine bytes, kind tag `0x01`, byte 3 is brightness clamped to 0..100 (0 below, 100 above, unchanged in range) |
| `CommandUtils.MicOnOffCommand` | CommandUtils.py:51-56 | nine bytes `7E 04 07 x FF FF FF 00 EF`, x is 1 exactly when on |
| `CommandUtils.MicEqCommand` | CommandUtils.py:58-62 | nine bytes, byte 3 is `clamp(eq, 0, 3) + 128` so in [128, 131], byte 4 is `0x04` |
| `CommandUtils.MicSensitivityCommand` | CommandUtils.py:64-70 | nine bytes, kind tag `0x06`, byte 3 is sensitivity clamped to 0..100 (0 below, 100 above, unchanged in range) |
| `CommandUtils.PatternNeverMicEq` | CommandUtils.py:33-62 | a pattern frame never equals a mic-EQ frame although both start `7E 05 03` |
| `Frames.Encode` | CommandUtils.py:6-70 | every command's frame is nine bytes with header `0x7E` and footer `0xEF` |
| `Frames.Decode` | CommandUtils.py:6-70 | a frame the decoder accepts is nine bytes with header and footer and carries in-range fields |
| `Frames.EncodeThenDecode` | CommandUtils.py:6-70 | decoding any command's frame gives back the command with its fields clamped as the encoders clamp them, and the command itself when in range |
| `Frames.DecodeThenEncode` | CommandUtils.py:6-70 | every frame the decoder accepts is exactly the frame of the command it decodes to |
| `Frames.EncodeInjective` | CommandUtils.py:6-70 | two commands share a frame if and only if they agree after clamping |
| `Frames.ColorFrameRecoversColor` | CommandUtils.py:22-28 | indices 4, 5, 6 give back (r, g, b), so distinct colours give distinct frames |
| `Hex.DigitValue` | Controller.py:153 | a hex digit's value is below 16 |
| `Hex.Digit` | __init__.py:21 | the lower-case digit written for a value decodes back to it |
| `Hex.FromHex` | Controller.py:153 | a successful decode yields one byte per two characters |
| `Hex.ToHex` | __init__.py:21 | the `{:02x}` spelling has two characters per byte |
| `Hex.FromHexSucceedsIff` | Controller.py:153 | decoding succeeds if and only if the string is an even number of hex digits |
| `Hex.FromHexToHex` | __init__.py:21 | decoding the two-digit spelling of a byte string gives that byte string back |
| `Hex.FromHexAt` | Controller.py:153 | decoded byte i is the value of digits 2i and 2i+1 |
| `Hex.SixDigitColor` | Controller.py:148-155 | a six-digit string `rrggbb` decodes to three bytes and yields the create_color_command frame of those bytes |
| `Discovery.ContainsIff` | Controller.py:118-120 | Python's `kind in prop` holds if and only if `kind` occurs at some index of `prop` |
| `Discovery.FlattenAppend` | Controller.py:111-113 | enumeration order is services first, then characteristics within each |
| `Discovery.FirstInAppend` | Controller.py:111-121 | the first match in a concatenation is the first match of the first part, or else of the second |
| `Discovery.FirstInIsFirst` | Controller.py:111-121 | the first qualifying characteristic in enumeration order is the one selected |
| `Discovery.FirstInNone` | Controller.py:111-121 | nothing is selected if and only if no characteristic qualifies |
| `Discovery.FirstInSome` | Controller.py:111-121 | a selected UUID is that of the first qualifying characteristic |
| `Discovery.OneCharacteristicServesBoth` | Controller.py:117-121 | one characteristic with "write-without-response" and "notify" becomes both write and notify target |
| `Controller.Controller.constructor` | Controller.py:21-55 | configured UUIDs are kept, shadow fields are None with power False, no function, no task, interval 0.02, and the task invariant `Valid` holds |
| `Controller.Controller.Connect` | Controller.py:59-89 | after connect the client exists, the scan has run, and notifications are requested exactly when a notify UUID is known |
| `Controller.Controller.ScanServicesCharacteristics` | Controller.py:105-121 | a UUID already set is never changed; an unset one becomes the first write- (notify-) capable characteristic in order, or stays None |
| `Controller.Controller.ScanProperties` | Controller.py:117-121 | over one characteristic's property strings: a UUID already set is kept; an unset one becomes this characteristic's exactly when some property string contains "write" (resp. "notify") |
| `Controller.Controller.SendBytes` | Controller.py:123-129 | one unacknowledged write of the payload to the current write UUID (even None); AttributeError and no write before connect |
| `Controller.Controller.Ping` | Controller.py:131-137 | sends the given payload, by default exactly `[0x00]` |
| `Controller.Controller.SetColor` | Controller.py:139-146 | color becomes (r, g, b); the colour frame is written, or ValueError and no write when a component is outside 0..255 |
| `Controller.Controller.SetColorHex` | Controller.py:148-155 | color becomes the string even when it is malformed; the frame around its decoded bytes is written, or nothing when decoding fails |
| `Controller.Controller.SetBrightness` | Controller.py:157-164 | brightness holds the raw value, the only other change is one write of the clamped brightness frame |
| `Controller.Controller.SetSpeed` | Controller.py:166-173 | speed holds the raw value, the only other change is one write of the clamped speed frame |
| `Controller.Controller.SetPattern` | Controller.py:175-182 | pattern holds the raw value, the only other change is one write of the clamped pattern frame |
| `Controller.Controller.SetPower` | Controller.py:184-191 | power holds the flag, the only other change is one write of the on/off frame |
| `Controller.Controller.TurnOn` | Controller.py:193-197 | power becomes True and the on frame is written |
| `Controller.Controller.TurnOff` | Controller.py:199-203 | power becomes False and the off frame is written |
| `Controller.Controller.TogglePower` | Controller.py:205-209 | power is inverted and the frame for the inverted value is written |
| `Controller.ToggleTwice` | Controller.py:205-209 | two toggles restore power and change only power and sent: with a client they write the frames for not-p, then p, to the unchanged write UUID; without one both raise AttributeError and nothing is written |
| `Controller.Controller.SetStateFunction` | Controller.py:211-217 | the function is registered and nothing else changes |
| `Controller.Controller.StateLoopStep` | Controller.py:219-226 | one loop pass sets the colour to the function's hex string for the given time, via set_color_hex |
| `Controller.Controller.StartStateLoop` | Controller.py:228-240 | the interval is always recorded; a new task is created only when a function is registered; `Valid` is preserved |
| `Controller.RestartLeavesFirstTaskRunning` | Controller.py:228-240 | two starts create handles n and n+1; the handle now names the second task, the first is never cancelled, and only interval, handle and counter change |
| `Controller.Controller.StopStateLoop` | Controller.py:242-252 | no-op without a task; otherwise the task is cancelled and the handle cleared; `Valid` is preserved |
| `Controller.StopTwice` | Controller.py:242-252 | two stops cancel at most the one current task and change nothing but the handle and the cancellation log, so the second stop is a no-op |
| `Scanner.RssiToWord` | script/scanner.py:5-15 | one of five words: Excellent iff rssi >= -50, Good iff -60 <= rssi < -50, Fair iff -70 <= rssi < -60, Poor iff -80 <= rssi < -70, Very Poor iff rssi < -80 |
| `Scanner.Rank` | script/scanner.py:5-15 | orders the five words from Very Poor (0) to Excellent (4) |
| `Scanner.RssiToWordMonotone` | script/scanner.py:5-15 | a larger rssi never yields a worse word |
| `Scanner.RankCountsThresholds` | script/scanner.py:5-15 | the word's rank is the number of thresholds -80, -70, -60, -50 the rssi reaches |

## Left out

- The BLE transport (`BleakClient` construction, `connect`, `pair`, `start_notify`,
  `write_gatt_char`): foreign library; replaced by the client log and a GATT table parameter.
- Connection and pairing outcomes in `connect`: a failed connection (an exception from bleak)
  is not modelled, nor is an exception from `pair()` other than `NotImplementedError`, which
  leaves `connect` before the scan and before `start_notify` (Controller.py:72-84); the
  other outcomes are only logged.
- The notification forwarding closure `_handle_notifications` and the `notif_handler`
  argument: a logging pass-through to a user callback.
- The timing of `_state_loop` (`asyncio.sleep`, `time.time()`, `create_task`, `cancel`):
  concurrency and wall-clock time; one pass of its body is `StateLoopStep`, with the time a
  parameter, and tasks are handles.
- The BLE library's response to a write whose target is `None` (bleak raises when it cannot
  find the characteristic): the model records the write as handed to the client.
- The ending of the state-loop task when a pass raises: `StateLoopStep` returns the
  exception as an outcome, but tasks are handles and their running or ending is not modelled.
- `Hex.FromHex`: does not model the whitespace `bytearray.fromhex` skips between digit pairs.
- Arguments of other Python types (floats, None, non-bool flags) to the setters and encoders.
- `Controller.Controller.SetStateFunction`: takes a function, never `None`, so the TypeError the
  next loop pass raises after `set_state_function(None)` is not modelled.
- `time_to_rainbow_color` and `main` in `__init__.py`: floating-point HSV conversion, and
  calls to methods `Controller` does not define.
- `pretty_discover` and `run` in `script/scanner.py`: scanner I/O and string formatting.
- Logging throughout.
