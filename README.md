# Soil-moisture irrigation sketch, modelled in Dafny

The sketch `temp.c` drives a pump from a soil-moisture sensor on an Arduino.
It has three irrigation profiles, called modes: 0 is wet, 1 is medium and 2 is dry.
Each mode has its own moisture threshold, pump run time and indicator LED.
Every 30 s, `loop()` takes an averaged reading of ten conversions.
If the reading is at or above the mode's threshold plus a hysteresis of 20, the sketch pumps.
It then soaks for 15 s and reads again, and keeps doing so until a reading falls below that limit.
A HIGH level on the button pin advances the mode directly at the top of every `loop()`.
A two-click `Button` class also exists. It is defined with a double-click window of 5000 ms and a
`-10000` start value, but the sketch never calls it.

The model has six modules:

- `Config` holds the pins, the constants, the three per-mode tables and the mode cycle.
  It also defines `Elapsed`, the `unsigned long` subtraction on the 32-bit `millis()` clock, which wraps modulo 2^32.
- `Hardware` defines a `Board`.
  The board records every `digitalWrite` and `delay` in order in an event log.
  It supplies `analogRead` conversions from a script of readings.
  `LevelOf` gives the level a pin shows after a log.
- `Pumps` models the `Pump` class. Its fields are updated in place by `ChangeMode`.
- `Buttons` models the `Button` class. It has a pure press-step function `PressStep` and lemmas about series of presses.
- `Sensor` models `readSoilAveraged` as a loop method, proved against `Mean`.
- `Control` models the sketch's globals (`lastSampleTs`, the pump) as the class `Sketch`.
  `Loop` is one pass of `loop()`.
  `IrrigateUntilWet` is the `while (1)` watering sub-loop, proved against the recursive reference function `Irrigate`.

## Model

| member | source | states |
|---|---|---|
| Config.Limit | temp.c:16-20 | the too-dry limit of a mode lies between 450 and 630 |
| Config.DrierModesPumpLaterAndShorter | temp.c:19-23 | a drier mode has a strictly higher limit and a strictly shorter pump run time |
| Config.NextModeIsSuccessorMod3 | temp.c:52-59 | a mode change moves to the successor modulo 3 and never stays put |
| Config.AdvanceIsAdditionMod3 | temp.c:49-66 | k mode changes add k modulo 3 |
| Config.ThreeChangesReturn | temp.c:49-66 | three mode changes return to the start; one or two do not |
| Config.LedPinsDistinct | temp.c:4-8 | the three indicator pins are distinct, and none of them is the pump pin |
| Config.Elapsed | temp.c:157 | unsigned subtraction gives the plain difference when the clock is at or past the timestamp, and 2^32 minus the gap when it is behind it |
| Hardware.LevelOfAppend | temp.c:51-74 | after further events, a pin shows the level the newer events last wrote to it, or its old level if they never touch it |
| Pumps.Pump.constructor | temp.c:42-47 | run time and LED pin are those of the start mode |
| Pumps.Pump.ChangeMode | temp.c:49-66 | the mode advances cyclically; run time and LED pin follow it; the old LED goes off, the new one on, then a 1000 ms delay |
| Pumps.Pump.RunPump | temp.c:68-77 | pump on, a delay of the current mode's run time, pump off |
| Pumps.Pump.GetPumpMode | temp.c:79-82 | returns the current mode, whose table entries are the stored run time and LED pin |
| Pumps.ModeChangeLightsNewIndicator | temp.c:49-66 | if at most the old mode's LED was lit, exactly the new mode's LED is lit after a change, and the pump pin is untouched |
| Pumps.RunPumpLeavesPumpOff | temp.c:68-77 | a pump run leaves the pump off and the LEDs unchanged |
| Buttons.Button.constructor | temp.c:94-98 | a new button's arming time is -10000 as an unsigned long, which is 2^32 - 10000 |
| Buttons.Button.Pressed | temp.c:100-112 | a press more than 5000 ms after the arming time stores the second clock reading and changes nothing else; otherwise it changes the pump's mode and keeps the arming time |
| Buttons.PressArmsOrAdvances | temp.c:100-112 | a press either re-arms with the mode kept, or advances the mode by one with the arming time kept, never both |
| Buttons.FirstPressArmsExceptNearWrap | temp.c:97-102 | a first press only arms, except when the clock reads between 2^32 - 10000 and 2^32 - 5000, where it advances the mode |
| Buttons.PressesInWindowAdvance | temp.c:100-112 | every press inside the window after arming advances the mode, because the arming time is never refreshed |
| Buttons.DoubleClickAdvancesOnce | temp.c:94-112 | a fresh button's first ordinary press only arms; a second press inside the window advances the mode exactly once |
| Sensor.Mean | temp.c:123 | the truncated mean times ten is at most the sum and within ten of it |
| Sensor.SumBounds | temp.c:117-122 | readings within bounds sum to between the count times each bound |
| Sensor.MeanWithinSamples | temp.c:115-124 | the mean lies within any bounds of the readings, is a 10-bit value (so the int cast loses nothing), and lies between the smallest and largest reading |
| Sensor.MeanTruncates | temp.c:123 | nine readings of 400 and one of 409 average to 400 |
| Sensor.ReadSoilAveraged | temp.c:115-124 | consumes ten readings, delays 5 ms after each, and returns their truncated mean |
| Control.GuardedBase | temp.c:151-154 | a stored timestamp ahead of the clock is pulled back to the clock; otherwise it is kept |
| Control.SampleDueExactly | temp.c:151-157 | after the guard the subtraction never wraps; a sample is due exactly when the clock has not wrapped and at least 30000 ms have passed |
| Control.WrapRestartsInterval | temp.c:151-157 | after a clock wrap no sample is taken, and the next one is due exactly 30000 ms later |
| Control.TriggerBoundaryMode0 | temp.c:172 | in mode 0, a reading of 450 triggers watering and 449 does not; a reading that triggers watering in a drier mode also triggers it in every wetter mode |
| Control.PumpCycle | temp.c:176-184 | one sub-loop pass ends the loop whenever it reads wet; when it does not end it, it consumed exactly one block of ten readings |
| Control.Block | temp.c:118-122 | the k-th block of the readings holds ten readings |
| Control.IrrigateStopsAtFirstWetSample | temp.c:174-185 | the pump runs at least once; the sub-loop stops at the first re-sample below the limit and no other; every earlier one was at or above it; exactly the blocks read are consumed |
| Control.ExitBoundaryMode0 | temp.c:181 | in mode 0, a re-sample of 449 ends watering after one run, and one of 450 pumps again |
| Control.IrrigationLeavesPumpOff | temp.c:174-185 | however the sub-loop ends, the pump is off and the LEDs are as before |
| Control.PassKeepsPinsAgreeing | temp.c:140-188 | with no LED lit at power-up, and from any log where at most the current mode's LED is lit and the pump is off, a mode change, a sample and a whole sub-loop each keep it so |
| Control.Sketch.constructor | temp.c:126-127 | the sample timestamp starts at 0 and the pump in mode 0 |
| Control.Sketch.PumpSoakResample | temp.c:176-180 | runs the pump, soaks 15000 ms, and re-samples when readings remain |
| Control.Sketch.IrrigationPass | temp.c:176-184 | one pass of the sub-loop ends it, and reads wet, exactly when `PumpCycle` says so, with the same events and leftover readings |
| Control.Sketch.IrrigateUntilWet | temp.c:174-185 | the sub-loop produces the events, consumes the readings and makes the number of runs given by `Irrigate` |
| Control.Sketch.Loop | temp.c:140-188 | a HIGH button advances the mode; the timestamp is guarded; a due sample is averaged and stored; watering happens exactly when the reading is too dry; otherwise nothing but the guard changes; if at most the mode's LED was lit and the pump was off before the pass, the same holds after it |

## Left out

- Serial output (`Serial.begin`, `print`, `println`) is not modelled; it has no effect on the pins or the state.
- `setup()` is not modelled. Its `pinMode` calls and its initial `digitalWrite(PIN_PUMP, LOW)` are not modelled either; `LevelOf` treats pins that were never written as low.
- `PIN_SOIL` and `PIN_SWITCH` are not modelled. The one analog input is the board's script of readings; `PIN_SWITCH` is never read.
- `Button::state` is not modelled: it is written once and never read.
- The two `millis()` calls in `Button::pressed` are clock parameters (`now`, `nowAgain`).
- The clock reading in `loop()` is a parameter (`now`).
- The button level read in `loop()` is a parameter (`buttonHigh`).
- Buttons.Button.Pressed: the pump is passed in, because the source refers to the global `ardqua_pump`, which is declared only after the class.
- Control.Sketch.IrrigateUntilWet: the `while (1)` sub-loop has no bound in the sketch. On the model's finite script, the sub-loop ends with `StillPumping` when fewer than ten readings are left for a re-sample. In that case, the last pump run and soak have been made, and the sketch itself would go on.
- Control.Sketch.Loop: it requires at least ten scripted readings, for the sample the pass may take.
- Pumps.Pump.constructor: it requires a start mode in 0..2. The C constructor indexes its tables without a check, and the sketch only ever passes 0.
- Timing is not modelled beyond the order and length of delays; `millis()` values are whatever the caller supplies.
- Three behaviours of the sketch may be unintended; the model keeps them as written:
  - the button pin advances the mode directly, without debouncing;
  - the two-click `Button` class is unused;
  - the watering sub-loop has no cut-off.
- The 16-bit `int` cast of the mean is not modelled as a truncation. `Sensor.MeanWithinSamples` shows that the mean always fits in 10 bits.
- `analogRead` is assumed to return a value in 0..1023, the range of the AVR's 10-bit converter (the type `Config.Reading`). The 10-bit bound on the mean rests on this assumption.
