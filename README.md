# A model of the Twitch controller bot

The bot reads one physical XInput gamepad and mirrors it onto a virtual
Xbox 360 controller plugged into a virtual bus. Chat commands drive that
same virtual controller:

- `aim` points the right stick at a clock hour or a compass point;
- `fire` pulls one or both triggers and releases them later;
- `button` presses A, B, X or Y and releases them later;
- `dpad` taps a D-pad direction one to four times.

The model covers three parts of the bot:

- the virtual-bus binding (`vxinputlib`): setters, stick placement, the
  `GamepadState` flag mask and `set_state`, plugging in a controller;
- the XInput binding (`xinputlib`): button decoding, `get_bit_values`,
  reading a device, enumerating the four devices, the gamepad object;
- the chat plugin (`ctrlbot_plugin.py`): argument parsing, the commands and
  one pass of the mirroring poller.

The two DLLs are oracles.

- The virtual-bus DLL (`Environment.VBus`) answers each call with a
  boolean, chosen by a function of the trace before the call.
- The XInput DLL (`XInput.XInputDll`) answers each `XInputGetState` with a
  result code and a state record, chosen by a function of the earlier
  queries.

Every call into the virtual-bus DLL goes into one shared trace
(`Environment.Trace`), together with every `call_later` and `sleep` of the
event loop. The trace carries each call's arguments after ctypes has
converted them:

- `c_bool` becomes 0 or 1;
- `c_byte`, `c_short` and `c_int` are truncated in two's complement;
- an argument beyond the declared ones goes as a C `int`, because the DLL is
  loaded with the C calling convention.

Trace events are appended in order. Each command is proved to add exactly
the events its source produces: which setters, with which arguments, in
which order, then which callbacks and which sleeps.

Modules:

- `Wrappers` — `Option` and `Result`.
- `PyText` — the parts of Python's `str` the commands use: `in`, `lower()`,
  `int()` and `str()` of an integer, all on ASCII.
- `GamepadFlags` — the `GamepadState` flag enumeration and its composites.
- `Environment` — setters and their ctypes argument types, the conversions,
  the trace, the DLL oracle and the event loop.
- `XInput` — `xinputlib`.
- `VXInput` — `vxinputlib`.
- `CtrlBot` — `ctrlbot_plugin.py`.

Behaviour the model keeps exactly as the code has it:

- Triggers are never clamped to `TRIGGER_MIN`..`TRIGGER_MAX`. `fire` holds
  a trigger at `TRIGGER_MAX` = 127. `set_state`, however, passes a gamepad
  reading of 128..255 to a `c_byte` argument, which wraps it to a negative
  value. `VXInput.TriggerBitsKept` states exactly this: the low eight bits
  survive and the signed value changes.
- A setter of the controller class is guarded by `if filter(None.__ne__,
  values)`. Under Python 3 a filter object is always true, so every setter
  call reaches the DLL. `set_dpad_off()` has no values and still calls
  `SetDpadOff`, which is what the D-pad release relies on. The model has no
  guard: `VXInput.Controller.Control`.
- `is_connected` looks at the state read *before* the last `update`, not
  at the current one. The model keeps that: `XInput.XInputGamepad.IsConnected`.

## Model

| member | source | states |
|---|---|---|
| PyText.ContainsIff | ctrlbot_plugin.py:99 | `t in s` holds exactly when `t` occurs at some index of `s` |
| PyText.ContainsChar | ctrlbot_plugin.py:99-104 | a one-character `in` test holds exactly when that character appears somewhere in the string |
| PyText.LowerContainsLetter | ctrlbot_plugin.py:112-124 | a lower-case letter is in `word.lower()` exactly when the word has that letter in either case |
| PyText.LowerIdempotent | ctrlbot_plugin.py:136 | lowering an already-lowered string changes nothing |
| PyText.ParseFormat | ctrlbot_plugin.py:88 | `int(str(n)) == n` for every integer, negative ones included |
| GamepadFlags.EveryFlagListed | vxinputlib/__init__.py:65-89 | the member list covers every single flag |
| GamepadFlags.FlagBit | vxinputlib/__init__.py:65-89 | each single member is one bit, and that bit decodes back to the member |
| GamepadFlags.FlagBits | vxinputlib/__init__.py:65-89 | the single members get distinct one-bit values from `auto()`, and no two share a bit |
| GamepadFlags.CompositeValues | vxinputlib/__init__.py:65-89 | the composites `abxy`, `buttons`, `triggers`, `axis_l`, `axis_r`, `axis` and `all` have the values their unions produce, and `all` is the full 17-bit mask |
| GamepadFlags.CompositeMembers | vxinputlib/__init__.py:65-89 | each composite holds exactly the members it is made of, and `all` holds every member |
| Environment.SignedWidths | vxinputlib/__init__.py:19-51 | two's-complement truncation to 8, 16 and 32 bits lands in the signed range and keeps the low bits |
| Environment.ConvertFacts | vxinputlib/__init__.py:19-51 | a `c_bool` argument arrives as 1 exactly for a nonzero value and as 0 exactly for zero; `c_byte`, `c_short` and `c_int` arguments land in their signed range with the value's low bits |
| Environment.ConvertInRange | vxinputlib/__init__.py:19-51 | an integer already inside the target type's range arrives unchanged |
| Environment.MarshalOne | vxinputlib/__init__.py:58-62 | a setter called with one value receives exactly that value, converted to the setter's first declared type |
| Environment.MarshalTrue | vxinputlib/__init__.py:58-62 | `True` arrives as 1 whatever the setter's declared argument type |
| Environment.VBus.Invoke | vxinputlib/__init__.py:190-196 | a DLL call appends itself to the trace and returns the `c_bool` answer the DLL gives after the earlier history |
| Environment.EventLoop.CallLater | ctrlbot_plugin.py:21-24 | scheduling a callback leaves the callback and its delay in the trace, and calls nothing yet |
| Environment.EventLoop.Sleep | ctrlbot_plugin.py:25 | a sleep leaves its duration in the trace and nothing else |
| Environment.CallsAppend | ctrlbot_plugin.py:111-124 | the setters called by two traces in sequence are those of the first followed by those of the second |
| Environment.LatestAppend | ctrlbot_plugin.py:111-124 | the last value set by two traces in sequence comes from the second trace when it sets that setter at all, and from the first otherwise |
| XInput.EveryButtonListed | xinputlib/__init__.py:12-26 | iterating the enumeration yields every button |
| XInput.ButtonBit | xinputlib/__init__.py:12-26 | each button is one bit outside the unused bits 0x0400 and 0x0800; its bit and its name each decode back to the button |
| XInput.ButtonBits | xinputlib/__init__.py:12-26 | distinct buttons share no bit and have distinct names |
| XInput.AsDict | xinputlib/__init__.py:28-31 | the dictionary has exactly one key per button name, each mapped to whether that button's bit is set in the value |
| XInput.UnusedBitsIrrelevant | xinputlib/__init__.py:28-31 | setting or clearing the unused bits changes no button's membership test |
| XInput.AsDictOfSameButtons | xinputlib/__init__.py:28-31 | two values that agree on every button bit give equal dictionaries |
| XInput.AsDictIgnoresUnusedBits | xinputlib/__init__.py:28-31 | the dictionary does not depend on bits that are not buttons |
| XInput.BinaryFacts | xinputlib/__init__.py:49 | `f"{n:b}"` of a non-negative number has only 0 and 1 digits, no leading zero unless it is `0`, and reads back as `n` |
| XInput.LeadingZerosVanish | xinputlib/__init__.py:49 | padding with zeros on the left does not change the value the digits stand for |
| XInput.GetBitValuesSpec | xinputlib/__init__.py:34-49 | for a non-negative number, the result has only 0 and 1 bits, is `size` long or as long as the binary form when that is longer, is zero-padded on the left, and reads back as the given number |
| XInput.GetBitValuesExamples | xinputlib/__init__.py:36-47 | the doctests' examples for 1, `0x3` with size 2 and `0x3` with size 4 hold; a negative number raises |
| XInput.Classify | xinputlib/__init__.py:183-195 | success gives the state; "device not connected" gives `None`; any other code raises a `RuntimeError` naming the code and the device; no code gives two outcomes |
| XInput.ToPadState | xinputlib/__init__.py:128-138 | the namedtuple copies the triggers and thumb axes, and each button flag is the matching bit of `buttons` |
| XInput.Range | xinputlib/__init__.py:176 | `range(lo, hi)` is the consecutive integers from `lo` below `hi`, empty when `hi <= lo` |
| XInput.RangeSnoc | xinputlib/__init__.py:176 | extending a range by one adds its upper end at the back |
| XInput.XInputDll.XInputGetState | xinputlib/__init__.py:185 | a query is recorded and answered by the device oracle given the earlier queries |
| XInput.XInputDll.ScanSpec | xinputlib/__init__.py:170-178 | enumeration succeeds exactly when no device reading raised; it then lists, strictly increasing and below the device count, exactly the devices whose reading was a state |
| XInput.XInputDll.ScanOk | xinputlib/__init__.py:170-178 | enumeration succeeds exactly when every reading succeeds |
| XInput.XInputDll.ScanIds | xinputlib/__init__.py:170-178 | a successful enumeration lists exactly the connected devices, in strictly increasing order |
| XInput.XInputDll.ScanErrorSticks | xinputlib/__init__.py:174-178 | once a reading has raised, reading more devices does not change the outcome |
| XInput.XInput.GetState | xinputlib/__init__.py:183-195 | one query for the device; the result is that reading classified by its code |
| XInput.XInput.GetDevice | xinputlib/__init__.py:180-181 | one query for the device; an error is passed on; otherwise a new gamepad for that device whose last and current state are both that reading |
| XInput.XInput.EnumerateDevices | xinputlib/__init__.py:170-178 | it fails exactly when the probe fails, with the probe's error, after querying devices 0 up to and including the first one whose reading raised; otherwise it queries devices 0 to 3 in order and returns new, connected gamepads whose device numbers are exactly the probe's connected devices, each holding in both slots the one reading taken of it |
| XInput.XInput.ProbeDevice | xinputlib/__init__.py:176-177 | one turn of the enumeration: device `i` is queried once; an error makes it the first failing device and the probe's result; otherwise a new gamepad for `i` holding that reading, and the probe lists `i` exactly when the gamepad is connected |
| XInput.XInputGamepad.constructor | xinputlib/__init__.py:97-103 | the last and current state both start as the first reading, and both packet counters start at 0 |
| XInput.XInputGamepad.Update | xinputlib/__init__.py:109-111 | the old current state becomes the last state, and the device is queried once; on success the new reading becomes current; on error the error is passed on and the current state is kept |
| XInput.XInputGamepad.IsConnected | xinputlib/__init__.py:122-123 | `is_connected()` holds exactly when the last state is a reading; after `Update` that is the reading that was current before it |
| XInput.XInputGamepad.State | xinputlib/__init__.py:128-138 | a gamepad whose current reading is a state gives the namedtuple of that reading; one whose current reading is `None` raises `AttributeError` |
| VXInput.DpadCode | vxinputlib/__init__.py:161-169 | the D-pad code combines up 1, down 2, left 4 and right 8; it lies in 0..15 and is `DPAD_OFF` exactly when no direction is held |
| VXInput.DpadCodeBits | vxinputlib/__init__.py:161-169 | each direction is held exactly when its bit is set in the code |
| VXInput.ClockAngle | vxinputlib/__init__.py:154-159 | a clock hour gives an angle in [0, 360) |
| VXInput.ClockSameDirection | vxinputlib/__init__.py:154-159 | two hours give the same angle exactly when they are equal modulo 12 |
| VXInput.ClockHours | vxinputlib/__init__.py:154-159 | 12 and 0 point up, 3 right, 6 down, 9 left; hours outside 1..12 wrap around |
| VXInput.CompassTable | vxinputlib/__init__.py:142-152 | the table knows exactly the sixteen compass points; the i-th point lies at 22.5·i degrees; an unknown word points north |
| VXInput.StickAngleOfNumber | vxinputlib/__init__.py:126-132 | a stick direction that reads as an integer is taken as a clock hour |
| VXInput.StickAngleOfCompassPoint | vxinputlib/__init__.py:126-132 | no compass point reads as an integer, so each one is looked up in the compass table |
| VXInput.ClockMatchesCompass | vxinputlib/__init__.py:142-159 | the hours 12, 3, 6 and 9 point the same way as N, E, S and W |
| VXInput.HourMatchesPoint | vxinputlib/__init__.py:126-159 | an hour and a compass point at the same angle move the stick to the same place |
| VXInput.PaddedHour | vxinputlib/__init__.py:126-132 | an hour surrounded by spaces still reads as an hour, because `int()` strips whitespace |
| VXInput.UnknownWordIsNorth | vxinputlib/__init__.py:126-152 | every word that `int()` rejects and that is not one of the sixteen compass keys points the stick north |
| VXInput.LowerCaseNorth | vxinputlib/__init__.py:142-152 | the keys are case-sensitive: lower-case `north` is an unknown word and points north |
| VXInput.RangesFitArgTypes | vxinputlib/__init__.py:10-13 | a value within `AXIS_MIN`..`AXIS_MAX` reaches a `c_short` setter unchanged, and one within `TRIGGER_MIN`..`TRIGGER_MAX` a `c_byte` setter |
| VXInput.StickTraceShape | vxinputlib/__init__.py:126-140 | moving a stick sets its x axis and then its y axis, and nothing else |
| VXInput.SetterForInjective | vxinputlib/__init__.py:161-186 | distinct flags drive distinct setters |
| VXInput.LinesAreEntries | vxinputlib/__init__.py:161-186 | `set_state` makes one call per line whose flag is in the mask, in line order |
| VXInput.EntryInjective | vxinputlib/__init__.py:161-186 | the calls of different flags differ |
| VXInput.EveryFlagHasALine | vxinputlib/__init__.py:161-186 | every flag has a line in `set_state` |
| VXInput.SetStateHasEntry | vxinputlib/__init__.py:161-186 | a flag's call is in the trace exactly when the flag is in the mask |
| VXInput.SetStateOnlySelected | vxinputlib/__init__.py:161-186 | every call `set_state` makes belongs to a flag in the mask |
| VXInput.SetStateOrder | vxinputlib/__init__.py:161-186 | with `all`, the calls are the D-pad, the buttons, the triggers and the axes in line order, with `AxisRy` twice |
| VXInput.SetStateLeftStick | vxinputlib/__init__.py:182-183 | with `axis_l`, `set_state` calls `SetAxisX` and `SetAxisY` with the thumb readings and nothing else |
| VXInput.SetStateLatest | vxinputlib/__init__.py:161-186 | afterwards, each setter's last value is its flag's reading when the flag is in the mask, and it is untouched otherwise |
| VXInput.MirrorAllValue | vxinputlib/__init__.py:161-186 | with `all`, every setter ends with its flag's converted reading |
| VXInput.DeviceValue | vxinputlib/__init__.py:161-186 | each line passes its field of the reading through its setter's declared argument type |
| VXInput.EntryValue | vxinputlib/__init__.py:161-186 | each line's call carries the controller id and its field's converted value |
| VXInput.MirrorAllFields | vxinputlib/__init__.py:161-186 | mirroring everything leaves every setter holding the value the device would show for its field |
| VXInput.TriggerBitsKept | vxinputlib/__init__.py:180-181 | a trigger reading 0..255 reaches the `c_byte` setter unchanged below 128 and reduced by 256 from 128 up, so its low eight bits survive |
| VXInput.RepeatedAxisRyIsHarmless | vxinputlib/__init__.py:185-186 | the duplicated `AxisRy` line changes no setter's final value |
| VXInput.LinesUnrolled | vxinputlib/__init__.py:161-186 | `set_state` is the eighteen lines in source order, `AxisRy` last and twice |
| VXInput.Controller.Control | vxinputlib/__init__.py:58-62 | a setter call always appends one DLL call, with the controller id and the marshalled arguments, and returns the DLL's answer |
| VXInput.Controller.Destroy | vxinputlib/__init__.py:120-124 | unplugging calls `UnPlugForce` when forced and `UnPlug` otherwise, and returns the DLL's answer |
| VXInput.Controller.SetLs | vxinputlib/__init__.py:126-132 | moving the left stick makes exactly the `SetAxisX` and `SetAxisY` calls for the direction and amount |
| VXInput.Controller.SetRs | vxinputlib/__init__.py:134-140 | moving the right stick makes exactly the `SetAxisRx` and `SetAxisRy` calls for the direction and amount |
| VXInput.Controller.SetLine | vxinputlib/__init__.py:170-186 | one line of `set_state` calls its setter exactly when its flag is in the mask |
| VXInput.Controller.SetState | vxinputlib/__init__.py:161-186 | the DLL calls are exactly the lines whose flags are in the mask, in line order |
| VXInput.ConnectCases | vxinputlib/__init__.py:224-235 | `controller(id)` first asks whether the controller exists; it asks about ownership exactly when it exists and plugs in exactly when it does not; it succeeds exactly for an owned controller or a successful plug-in; otherwise it raises "not owned" or "plug-in failed" |
| VXInput.VXInput.GetNumEmptyBusSlots | vxinputlib/__init__.py:206-216 | on success it returns the byte count the DLL wrote back; on failure it raises |
| VXInput.VXInput.ControllerExists | vxinputlib/__init__.py:218-219 | one DLL call, whose answer is returned |
| VXInput.VXInput.IsControllerOwned | vxinputlib/__init__.py:221-222 | one DLL call, whose answer is returned |
| VXInput.VXInput.Controller | vxinputlib/__init__.py:224-235 | the DLL calls and the outcome are those of the connect decision; on success it returns a new controller for that id on this bus |
| CtrlBot.Duration | ctrlbot_plugin.py:86-91 | a duration always lies between 0 and 10 seconds |
| CtrlBot.DurationDefault | ctrlbot_plugin.py:86-91 | a missing or non-numeric duration counts as 200 ms |
| CtrlBot.DurationOfNumber | ctrlbot_plugin.py:86-91 | a number of milliseconds in 0..10000 is taken as is; below that it becomes 0; above, 10 s |
| CtrlBot.DpadCount | ctrlbot_plugin.py:131-135 | a D-pad count always lies in 1..4 |
| CtrlBot.DpadCountDefault | ctrlbot_plugin.py:131-135 | a missing or non-numeric count means one tap |
| CtrlBot.DpadCountOfNumber | ctrlbot_plugin.py:131-135 | a count in 1..4 is taken as is; below that it becomes 1; above, 4 |
| CtrlBot.HoldCalls | ctrlbot_plugin.py:113-115 | a timed press calls only its own setter, which ends holding the pressed value, and schedules the release |
| CtrlBot.ButtonIfHold | ctrlbot_plugin.py:112-124 | a button is pressed and its release scheduled exactly when the word names it in either case; otherwise nothing happens |
| CtrlBot.ButtonCalls | ctrlbot_plugin.py:111-124 | `button` presses the named buttons in the order A, B, X, Y |
| CtrlBot.ButtonPressed | ctrlbot_plugin.py:111-124 | after `button`, each of A, B, X and Y holds 1 exactly when the word names it and is untouched otherwise; its release is scheduled exactly when it was named |
| CtrlBot.ButtonExamples | ctrlbot_plugin.py:111-124 | `Ab` presses A then B; `hello` presses nothing |
| CtrlBot.FireIfFacts | ctrlbot_plugin.py:99-104 | a trigger is pulled to `TRIGGER_MAX` and its release to 0 is scheduled exactly when the selector holds its letter; no other setter is touched |
| CtrlBot.FireCalls | ctrlbot_plugin.py:98-104 | `fire` pulls the selected triggers in the order left, right |
| CtrlBot.FireTriggers | ctrlbot_plugin.py:98-104 | after `fire`, each trigger holds `TRIGGER_MAX` exactly when selected and is untouched otherwise; its release is scheduled exactly when selected |
| CtrlBot.FireExamples | ctrlbot_plugin.py:98-104 | `LR` pulls both triggers, `R` only the right one, and lower-case `lr` neither |
| CtrlBot.DpadSetter | ctrlbot_plugin.py:136-146 | a direction word selects one of the four D-pad setters or none |
| CtrlBot.DpadSetterChoice | ctrlbot_plugin.py:136-146 | for every word: up exactly when "up" occurs in the lowered word; down exactly when "down" occurs and "up" does not; left and right likewise, each only when the earlier words are absent; no direction exactly when none of the four occurs |
| CtrlBot.DpadSetterIgnoresCase | ctrlbot_plugin.py:136 | the direction word is read without regard to case |
| CtrlBot.DpadSetterExamples | ctrlbot_plugin.py:136-146 | `UP` means up, `Left` means left, `downup` means up because up is tested first, and `north` names no direction |
| CtrlBot.RepeatRounds | ctrlbot_plugin.py:148-152 | repeating a four-event round n times gives 4n events, and each round is the original |
| CtrlBot.DpadRounds | ctrlbot_plugin.py:136-152 | a D-pad command naming a direction is `count` rounds of press (1), sleep, release, sleep; one naming none does nothing |
| CtrlBot.MirrorChoice | ctrlbot_plugin.py:17-24 | without Back, mirroring moves only the left stick, to the gamepad's thumb values; with Back, every setter ends with its flag's reading |
| CtrlBot.PollOnce | ctrlbot_plugin.py:14-25 | one poll: the gamepad is queried once; the old current state becomes the last one, and the new reading becomes current (an error keeps the current state); it goes on exactly when the reading is a state, and otherwise fails with `update`'s `RuntimeError` or with `state`'s `AttributeError` for a missing reading; it then schedules `set_state` of that reading 1 s later and sleeps for the polling interval; an error schedules nothing |
| CtrlBot.ScheduleMirror | ctrlbot_plugin.py:17-25 | schedules `set_state` with the poller's mask and then sleeps for the polling interval |
| CtrlBot.Plugin.constructor | ctrlbot_plugin.py:42-52 | the plugin drives the given loop and controller with a D-pad delay of 200 ms, and the loop and controller share one trace |
| CtrlBot.Plugin.Aim | ctrlbot_plugin.py:77-84 | `aim` moves the right stick fully toward the direction and does nothing else |
| CtrlBot.Plugin.HoldFor | ctrlbot_plugin.py:99-101 | a press is one setter call followed by the scheduled release |
| CtrlBot.Plugin.Fire | ctrlbot_plugin.py:93-104 | `fire` adds exactly the trigger presses and scheduled releases of its selector, with the parsed duration |
| CtrlBot.Plugin.Button | ctrlbot_plugin.py:106-124 | `button` adds exactly the button presses and scheduled releases of its word, with the parsed duration |
| CtrlBot.Plugin.DpadRound | ctrlbot_plugin.py:149-152 | one D-pad round is press, sleep, release, sleep |
| CtrlBot.Plugin.Dpad | ctrlbot_plugin.py:126-152 | `dpad` adds exactly the parsed count of rounds for the named direction, or nothing |

## Left out

- Loading the DLLs and declaring the ctypes signatures: both DLLs are
  oracles. The `SIGNATURES` table survives only as each setter's argument
  types.
- The ctypes structures: they become plain records. `byref` and the
  out-parameter of `GetNumEmptyBusSlots` become oracle results.
- The sine and cosine of stick placement: modelled as a parameter `polar`.
  The model fixes the angle a direction word gives and the two calls made
  with the resulting coordinates.
- Controller.Control: requires at least as many values as the setter
  declares. ctypes raises `TypeError` for fewer, and no caller passes fewer.
- `None` as a setter value: not a value of the model. No caller passes one.
- The controller id: a natural number passed through unchanged. The wrap of
  `c_uint` for ids of 2^32 and above is not modelled.
- PyText: `int()` and `str.lower()` are modelled on ASCII only. They leave
  out Unicode digits and case mappings beyond A–Z.
- Time: `call_later` and `sleep` leave their delay in the trace. Nothing
  waits, and the scheduled callbacks are not run. What a scheduled
  `set_state` then does is what `VXInput.Controller.SetState` proves.
  Under asyncio, events of other tasks can fall between `dpad`'s sleeps;
  each command's trace is shown on its own.
- Durations are Dafny `real` numbers. The source's `int(...) / 1000` gives a
  Python float, whose rounding is not modelled.
- CtrlBot.PollOnce: models one pass of `ctrl_poll`'s endless loop body.
  The loop itself and its scheduling under asyncio are not modelled: other
  tasks' events can fall between one pass and the next.
- `help_reminder`, `on_joined`, `reload` and the plugin's configuration
  reading: IRC and logging plumbing. Those are what choose the gamepad and
  the controller; the plugin's constructor receives them already built.
- CtrlBot.Plugin.Aim: takes the direction as a string. The command syntax
  makes `<dir>` mandatory, so the `None` case does not arise.
- CtrlBot.Plugin.Fire: the selector is the string the command parser hands
  over, tested for `L` and `R` by substring. Which string the parser puts
  under the `L` key is not part of this model.
- Commands issued before a virtual controller is attached: they would raise
  on `None`. The plugin's invariant assumes the controller is present.
- `set_vibration`, `translate_using_data_size`, `translate_identity`,
  `vbus_exists`, `__repr__` and the start-up script: not used by the
  commands or the poller, or only I/O.
- The `received_packets` and `missed_packets` counters: kept at 0, as the
  source never changes them.
- XInput.XInputGamepad.constructor: takes the first reading as a parameter.
  `XInput.XInput.GetDevice` performs that `get_state` call. An error
  raised by it is passed on exactly as in the constructor.
- The `gamepad_factory` and `controller` factory parameters: always the
  default classes.
- Default arguments (`flags=GamepadState.all` of `set_state`, `amount=100`
  of `set_ls` and `set_rs`, `size=32` of `get_bit_values`, `force=False` of
  `destroy`): every model member takes the argument explicitly.
- XInput.GetBitValuesExamples: leaves out the docstring's `0xDEADBEEF`
  example. Evaluating 32 digits concretely is too costly for the prover;
  `XInput.GetBitValuesSpec` covers that input with every other one.
