# OpenTrickler peripheral: actuators, screen and web store logic

This project models the core of the OpenTrickler peripheral. That is the Raspberry Pi software that drives a powder trickler's vibration motor and a powder-measure servo, runs a two-button Mini PiTFT screen for editing the target weight, and serves a small Flask page. The screen and the page share state through memcache.

- `store.dfy` (module `Store`): the shared memcache store.
  - A map from string keys to scalar values: a number (a `Decimal` or `float`) or a boolean.
  - Lookup with a default.
  - Python truthiness of a stored value.
- `motors.dfy` (module `Motors`):
  - `TricklerMotor` as a class over the PWM device's duty cycle and a log of the commands it received.
    - `update` truncates, clamps and scales a percent command.
    - `set_speed` accepts a duty cycle in [0, 1] and rejects anything else; when it accepts, it publishes the new speed if a store client is attached.
    - The exit routine drives the output to zero and then closes the pin.
  - `ServoMotor` as a class over the log of pigpio commands.
    - The pulse width is linear interpolation with no clamping.
    - The exit routine switches the pulses off and then releases pigpio.
- `digit_edit.dfy` (module `DigitEdit`): the screen's digit editor as pure functions.
  - The weight is held as whole hundredths and shown as the text `f"{w:05.2f}"`.
  - An edit advances the selected digit mod 10 and reads the text back as a `Decimal`.
  - The cursor steps over the decimal point.
  - A fixed priority decides what the polled buttons do.
- `screen.dfy` (module `Screen`):
  - `Replay` is the run loop as a function of a finite sequence of button samples.
  - The class `MiniPiTFTApp` has the screen's fields and methods, each proved against those functions.
- `app.dfy` (module `App`): the web handlers' store logic.
  - `index` reads the target weight (default 0.00) and the auto mode (default False).
  - `update` either stores a parsed weight rounded half-to-even to hundredths, or flips the auto mode; a set-weight request without its weight field is rejected.

Both processes share the store. The screen takes its two keys from the configuration (`trickler/screen.py:24,36-37`), while the web application uses the literal keys `"target_weight"` and `"auto_mode"`. It reads them at `trickler/app.py:72-73` and 86, and writes them at lines 82 and 87. The screen model therefore keeps its keys as parameters. The property that the store mirrors the screen (`Screen.ReplayMirrors`) holds when the two keys differ.

Beyond the display range, the text grows by one cell per extra digit of the whole part. From 100.00 to 999.99 it has six cells, and cursor cell 3 sits on the decimal point, where an increment changes nothing (`DigitEdit.IncrementOnPoint`). From 1000.00 to 9999.99 cell 3 is a digit again and cursor cell 4 sits on the point (`DigitEdit.IncrementOnPointThousands`). From 10000.00 up the point lies beyond every cursor cell. Only an initial weight given on the command line can reach that range. The screen itself never carries a digit, so it keeps a weight below 100.00 below 100.00.

## Model

| member | source | states |
|---|---|---|
| Store.Truthy | trickler/app.py:86 | Python truthiness behind `not get_memcache_value(...)`: a bool is its own truth and a number is true exactly when it is non-zero. It has no contract of its own; `App.UpdatedData` and `App.ToggleTwice` state what the toggle does with it |
| Store.Memcache.constructor | trickler/screen.py:41-50 | a client on an empty store |
| Store.Memcache.Get | trickler/app.py:59-64 | the client's `get`: None exactly when the key is absent, else the stored value |
| Store.Memcache.Set | trickler/app.py:66-68 | the client's `set`: the store is the old store with that one key overwritten |
| Store.Lookup | trickler/screen.py:41-46 | get-with-default: the stored value when the key is present, the caller's default otherwise |
| Store.LookupAfterWrite | trickler/screen.py:48-50 | a written key reads back as the written value; every other key reads as before |
| Motors.Trunc | trickler/motors.py:52 | `int()` truncates toward zero: the result is within one of the input, below it for positive inputs and above it for negative ones |
| Motors.Clamp | trickler/motors.py:52 | `max(min(x, hi), lo)` lies in [lo, hi] when lo ≤ hi, is x inside the range and the nearer bound outside it; lo wins when the bounds cross |
| Motors.UpdateRequest | trickler/motors.py:49-54 | the speed `update` hands to `set_speed` lies in [min_pwm/100, max_pwm/100], equals trunc(t)/100 when that is in range, and is a valid duty cycle when 0 ≤ min_pwm ≤ max_pwm ≤ 100 |
| Motors.SpeedAfter | trickler/motors.py:59-65 | `set_speed` accepts exactly the duty cycles in [0, 1] and otherwise keeps the current speed, never clamping |
| Motors.StoreAfter | trickler/motors.py:59-65 | an accepted speed is published under the speed key; no other key changes; a rejected speed publishes nothing |
| Motors.UpdateIdempotent | trickler/motors.py:49-54 | `update(t)` twice leaves the same speed and store as `update(t)` once |
| Motors.LastDuty | trickler/motors.py:71-74 | the device's value is the last duty cycle written, 0 for a fresh device |
| Motors.TricklerMotor.constructor | trickler/motors.py:23-41 | a fresh device at duty 0 with no commands sent, holding the configured pin, bounds, key and optional client |
| Motors.TricklerMotor.Speed | trickler/motors.py:71-74 | the `speed` property is the device's value, always in [0, 1], the last duty cycle written while the pin is open |
| Motors.TricklerMotor.SetSpeed | trickler/motors.py:56-65 | speed becomes s exactly when 0 ≤ s ≤ 1, the device then receives one duty command, and the store holds s under the speed key when a client is attached; otherwise nothing changes |
| Motors.TricklerMotor.Update | trickler/motors.py:49-54 | speed follows `set_speed` of the clamped, truncated command; with 0 ≤ min_pwm ≤ max_pwm ≤ 100 it always ends in [min_pwm/100, max_pwm/100] |
| Motors.TricklerMotor.Off | trickler/motors.py:67-69 | `off` sets the speed to 0 through `set_speed`, so 0 is published |
| Motors.TricklerMotor.GracefulExit | trickler/motors.py:43-47 | the exit writes duty 0 and then closes the pin, as the last two commands and the only close; the store is not touched |
| Motors.PulseWidth | trickler/motors.py:109-117 | the pulse is the linear interpolation (p − min)·max_angle = angle·(max − min); a zero max_angle gives no pulse (division by zero) |
| Motors.PulseEndPoints | trickler/motors.py:109-117 | angle 0 gives the minimum pulse width and angle max_angle the maximum |
| Motors.PulseMonotone | trickler/motors.py:109-117 | with max ≥ min pulse width the pulse grows with the angle |
| Motors.PulseNotClamped | trickler/motors.py:109-117 | angles beyond max_angle give pulses above the maximum, and negative angles pulses below the minimum |
| Motors.ServoMotor.constructor | trickler/motors.py:79-101 | holds the configured pin, angles and pulse widths; no command sent yet |
| Motors.ServoMotor.MoveTo | trickler/motors.py:109-117 | sends exactly one pulse command, with the interpolated width, on the servo pin; sends nothing when max_angle is 0 |
| Motors.ServoMotor.SetInitialAngle | trickler/motors.py:109-112 | sends the pulse for the initial angle |
| Motors.ServoMotor.RunServo | trickler/motors.py:114-117 | sends the pulse for the working angle |
| Motors.ServoMotor.Off | trickler/motors.py:119-121 | sends pulse width 0 on the servo pin |
| Motors.ServoMotor.Stop | trickler/motors.py:123-125 | releases pigpio, after which no command is sent |
| Motors.ServoMotor.GracefulExit | trickler/motors.py:103-107 | the last two commands are pulse 0 and then the release |
| DigitEdit.Succ | trickler/screen.py:85 | the next digit character, 9 wrapping to 0 |
| DigitEdit.NatDigits | trickler/screen.py:81 | the digits of the whole part: at least one, a single one exactly below 10 |
| DigitEdit.ParseNatDigits | trickler/screen.py:80-88 | reading back the digits of n gives n |
| DigitEdit.PlacesOf | trickler/screen.py:81 | the four decimal places of a weight below 100.00 spell that weight |
| DigitEdit.PlacesOfValue | trickler/screen.py:80-88 | distinct places spell distinct weights |
| DigitEdit.Format | trickler/screen.py:81 | the display text has at least five cells, exactly five below 100.00 |
| DigitEdit.ParseFixed | trickler/screen.py:87 | `Decimal("".join(digits))` of a fixed-point text, counted in hundredths. It has no contract of its own; `DigitEdit.ParseFixedParts`, `DigitEdit.ParseFormat` and `DigitEdit.FormatParseShort` state its meaning |
| DigitEdit.ParseFixedParts | trickler/screen.py:87 | the value read is the whole part before the point plus the two decimals as tenths and hundredths, which add less than one whole |
| DigitEdit.ParseText | trickler/screen.py:87 | a five-cell text is well formed and reads back as the weight its places spell |
| DigitEdit.ParseFormat | trickler/screen.py:80-88 | round trip: the display text of every weight is well formed and reads back as that weight |
| DigitEdit.FormatParseShort | trickler/screen.py:80-88 | round trip the other way: every five-cell fixed-point text is the display text of the weight it reads as |
| DigitEdit.Set | trickler/screen.py:85 | replacing one place sets it and leaves the other three places unchanged |
| DigitEdit.Bump | trickler/screen.py:84-85 | a digit cell becomes its successor, a non-digit cell is left as is, and no other cell changes |
| DigitEdit.BumpWellFormed | trickler/screen.py:84-87 | the bumped text still reads as a decimal |
| DigitEdit.IncrementWeight | trickler/screen.py:80-87 | the new weight `increment_digit` computes: bump the cursor cell of the display text and read it back. It has no contract of its own; `DigitEdit.IncrementValue`, `DigitEdit.IncrementShape`, `DigitEdit.IncrementNonDigit` and `DigitEdit.TenIncrementsRestore` state its behaviour |
| DigitEdit.IncrementNonDigit | trickler/screen.py:84-87 | the isdigit guard: when the cursor cell is not a digit the weight stays as it was |
| DigitEdit.Roll | trickler/screen.py:85 | the selected place advances k times mod 10 and the others stay |
| DigitEdit.RollTwice | trickler/screen.py:85 | advancing j then k times is advancing j + k times, and a multiple of ten is no change |
| DigitEdit.BumpText | trickler/screen.py:84-85 | bumping a cursor cell of a five-cell text advances that place once |
| DigitEdit.IncrementPlaces | trickler/screen.py:80-87 | below 100.00 an increment advances the selected place by one mod 10 and changes no other place: no carry |
| DigitEdit.IncrementValue | trickler/screen.py:80-87 | the same for a weight, which stays below 100.00 |
| DigitEdit.IncrementShape | trickler/screen.py:80-87 | the new display text differs from the old one only in the selected cell, which holds the next digit |
| DigitEdit.IncrementTimesPlaces | trickler/screen.py:80-87 | after n increments at one cursor the selected place holds the original digit plus n mod 10; the others are unchanged |
| DigitEdit.IncrementAfterRoll | trickler/screen.py:80-87 | one more increment after k advances is k + 1 advances |
| DigitEdit.TenIncrementsRestore | trickler/screen.py:80-87 | any multiple of ten increments at one cursor gives back the original weight |
| DigitEdit.IncrementOnPoint | trickler/screen.py:81-87 | from 100.00 to 999.99 cursor cell 3 is the decimal point and an increment there changes nothing |
| DigitEdit.IncrementOnPointThousands | trickler/screen.py:81-87 | from 1000.00 to 9999.99 cursor cell 3 is a digit and cell 4 is the decimal point, where an increment changes nothing |
| DigitEdit.NextCursor | trickler/screen.py:91-94 | the cursor always lands on a digit cell, stepping 0→1→3→4→0 |
| DigitEdit.CursorCycle | trickler/screen.py:91-94 | four advances bring the cursor back to where it started |
| DigitEdit.Dispatch | trickler/screen.py:109-120 | hold of button 2 means shutdown; otherwise both buttons toggle, button 1 increments, button 2 advances, and nothing else acts; each exactly when its condition holds |
| Screen.WeightValue | trickler/screen.py:87-88 | the stored weight is the number of hundredths over 100 |
| Screen.Apply | trickler/screen.py:112-120 | every action keeps the cursor on a digit cell and a weight below 100.00 below 100.00 |
| Screen.Publish | trickler/screen.py:80-100 | the store write the loop's action makes. It has no contract of its own; `Screen.PublishWrites` states it |
| Screen.PublishWrites | trickler/screen.py:80-100 | an increment publishes the new weight under the weight key, a toggle the new mode under the mode key, any other action writes nothing, and no other key changes |
| Screen.Replay | trickler/screen.py:105-121 | over any run of samples the cursor stays on a digit cell and the weight stays below 100.00 when it starts there |
| Screen.ReplayFrame | trickler/screen.py:105-121 | a run writes no store key other than the weight's and the mode's |
| Screen.ReplayShutdown | trickler/screen.py:109-111 | the loop ends in a shutdown exactly when some sample has button 2 held |
| Screen.ReplayAppend | trickler/screen.py:108-111 | running two stretches of samples in turn is running their concatenation, and nothing runs after a shutdown |
| Screen.ReplayMirrors | trickler/screen.py:23-121 | with distinct keys, a store that mirrors the screen's weight and mode keeps mirroring them through any run |
| Screen.Repeat | trickler/screen.py:115-116 | n copies of one sample |
| Screen.RepeatedPresses | trickler/screen.py:115-117 | n samples of button 1 alone advance the selected place n times, publish the result, and keep mode and cursor |
| Screen.PressAfterRoll | trickler/screen.py:115-117 | one more press after k advances gives k + 1 advances, published |
| Screen.OnePress | trickler/screen.py:115-117 | one sample of button 1 alone is one increment, published, without shutdown |
| Screen.TenPressesRestore | trickler/screen.py:115-117 | a multiple of ten presses of button 1 alone leaves the screen's state as it was |
| Screen.MiniPiTFTApp.constructor | trickler/screen.py:23-39 | publishes the initial weight and then the mode, the cursor starts at 0, and the store then mirrors the state when the keys differ |
| Screen.MiniPiTFTApp.GetMemcacheValue | trickler/screen.py:41-46 | the default exactly when the key is absent, else the stored value |
| Screen.MiniPiTFTApp.SetMemcacheValue | trickler/screen.py:48-50 | writes one key and nothing else |
| Screen.BumpCell | trickler/screen.py:82-85 | the list of the text's characters is made, and the cursor cell is replaced by its successor digit when it holds a digit (the text is unchanged elsewhere) |
| Screen.MiniPiTFTApp.IncrementDigit | trickler/screen.py:80-89 | the weight becomes the increment of the display text at the cursor, it is published, and mode and cursor stay |
| Screen.MiniPiTFTApp.MoveToNextDigit | trickler/screen.py:91-95 | the cursor takes the next digit cell; weight, mode and store stay |
| Screen.MiniPiTFTApp.ToggleAutoMode | trickler/screen.py:97-100 | the mode flips and is published; weight and cursor stay |
| Screen.MiniPiTFTApp.ShutdownPi | trickler/screen.py:102-103 | the system is asked to halt; the editing state stays |
| Screen.MiniPiTFTApp.Run | trickler/screen.py:105-121 | the loop's final state, store and shutdown flag are those of `Replay` on the samples, and the halt request is made exactly on shutdown |
| App.RoundHalfEven | trickler/app.py:81 | the nearest integer, at most one half away, even on a tie |
| App.RoundHalfEvenUnique | trickler/app.py:81 | no other integer meets that description |
| App.Quantize | trickler/app.py:80-84 | the rounded number of hundredths, or InvalidOperation exactly when it needs more than 28 digits |
| App.QuantizeExact | trickler/app.py:81 | a weight that already has two decimals is kept exactly |
| App.GetMemcacheValue | trickler/app.py:59-64 | the default exactly when the key is absent, else the stored value |
| App.SetMemcacheValue | trickler/app.py:66-68 | writes one key and nothing else |
| App.Index | trickler/app.py:70-74 | the page shows the stored weight or 0.00, and the stored mode or False; nothing is written |
| App.UpdatedData | trickler/app.py:76-88 | set_weight without a weight field is rejected; otherwise a parseable weight is stored rounded half-to-even, an unusable one changes nothing, set_weight takes precedence over toggle, a toggle stores the negated truth of the mode (False when absent), neither field changes nothing, and no other key ever changes |
| App.ToggleTwice | trickler/app.py:85-87 | two toggles leave the mode with the truth value it started with |
| App.Update | trickler/app.py:76-88 | the handler leaves exactly the store `UpdatedData` describes and redirects to the index page, or answers 400 with nothing written |

## Left out

- Rendering is not modelled: `update_display`, PIL, fonts, the ST7789 display and the underline position. They are foreign drawing calls.
- Timing is not modelled: debounce sleeps, the three-second hold time and button sampling. Each loop iteration reads one `Buttons` sample.
- Screen.Replay: the run loop never ends on its own. The model runs it over a finite sequence of samples and reports whether it stopped on a shutdown.
- Screen.MiniPiTFTApp.ShutdownPi: `os.system("/sbin/shutdown -h now")` is reduced to a `halted` flag.
- Concurrency is not modelled: the screen, the motor daemon and the web application race on memcache. The store is one map changed by one process at a time.
- The memcache client's transport, serialisation and `helpers.get_mc_client` are not modelled. `helpers.py` is not part of this model.
- Configuration is not modelled: argparse, configparser, logging and the `memcache_vars` enum. Keys and bounds are constructor parameters.
- Screen.MiniPiTFTApp.constructor: the initial weight is whole hundredths at or above 0.00. A negative command-line weight is not modelled: its "-" cell is never a digit. A weight with more than two decimals is not modelled either: the display would round it, and the first increment would store the rounded value.
- App.UpdatedData: `Decimal(s)` is a parameter, a partial parser returning a real number. Non-finite decimals are not modelled: a quiet NaN quantizes to NaN and would be stored, while an infinity or a signalling NaN raises InvalidOperation.
- Motors: `float` arithmetic is exact `real` arithmetic. The duty-cycle and pulse values do not model rounding.
- Motors.TricklerMotor.SetSpeed and the other `TricklerMotor` methods require an open device. gpiozero raises on a closed device, and that error path is not modelled.
- Motors.ServoMotor.MoveTo and the other `ServoMotor` command methods require that pigpio has not been stopped. Calls into pigpio after `stop()` are not modelled.
- Motors.ServoMotor.MoveTo: pigpio's pulse-width range check is not modelled. pigpio rejects widths outside 500–2500 µs other than 0, and the model records whatever width is computed.
- The servo's memcache client and its `_constants` are not modelled, because no servo method uses them.
- The `atexit` registrations in both constructors are not modelled (`trickler/motors.py:41` for `TricklerMotor`, `trickler/motors.py:101` for `ServoMotor`). Each class's `GracefulExit` is the routine its constructor registers.
- `trickler/servo_app.py` and `utilities/*` are not modelled. The first is a Flask route around the same pulse formula with max_angle 180. The others are hardware test scripts.
- Flask routing, templates, redirects as HTTP and the 400 page are not modelled. The model keeps the handler's outcome: a redirect to `/app/`, or a rejection.
