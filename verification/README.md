# BCD multiplexed display and LED mode controller, in Dafny

This project models two introductory firmware exercises for a microcontroller
board and proves what their code does.

**guia1_ej4: three-digit multiplexed BCD display** (`bcd_display.dfy`, on top of `gpio.dfy`).
- `convertToBcdArray` splits a `uint32_t` into its `digits` lowest decimal
  digits, least significant first. It writes them into a caller buffer with
  repeated `% 10` and `/ 10`, and always returns 0.
- `mapearbits` drives four BCD lines (the inputs of a 7447 decoder).
  Line `i` goes high exactly when `digits & 1 << i` is non-zero.
- `multipelxor` converts a number into the local buffer `vector[3]`. For each
  of the three positions it spells that digit on the BCD lines, then pulses
  the position's select line high and low again.
- The GPIO driver (`GPIOOn`, `GPIOOff`) is modelled as a port object
  (`Gpio.GpioPort`). It holds a level per pin and an append-only trace of
  `On(pin)` / `Off(pin)` writes. Its invariant is that the levels are the
  replay of the trace (`Gpio.Apply`, where the last write to a pin wins).
- `vector` is an uninitialised stack array in the C code. When
  `digito < 3`, positions `digito..2` still hold whatever was on the stack,
  and those bytes are displayed. The model makes that prior content an
  explicit parameter (`stale`). `BcdDisplay.Shown` is the buffer as
  displayed. With `digito == 3` the stale bytes play no part
  (`ShownAllConverted`).
- `digito > 3` overflows `vector` and is undefined behaviour. It is excluded
  by a precondition.

**guia1_ej3: LED mode controller** (`led_control.dfy`).
- `ControlLED` dispatches on `mode`:
  - `ON` (1) and `OFF` (0) switch the named LED.
  - `TOGGLE` (2) runs `n_ciclos` passes. Each pass toggles the named LED and
    then waits a fixed 100 ms.
  - Any other mode prints a diagnostic.
- An `n_led` that is none of `LED_1`, `LED_2` or `LED_3` is silently ignored,
  because the `if / else if` chains have no `else`. In TOGGLE mode the delays
  still happen.
- The LED driver and the scheduler are modelled as a board object
  (`LedControl.LedBoard`). It holds three LED states and a trace of `SwitchOn`,
  `SwitchOff`, `Toggle`, `Delay` and `InvalidMode` calls. Its invariant is that
  the LED states are the replay of the trace.
- `LED_1..LED_3` are three distinct abstract identifiers (`LedIds`).
- The configuration record is passed as a value (`LedConfig`), so the
  controller cannot modify it. `PeriodIgnored` shows that `periodo` has no
  influence.

`machine_types.dfy` holds the C fixed-width integer types (`uint8_t`,
`uint16_t`, `uint32_t`, `int8_t`) as bounded newtypes.

The doc-comment of `multipelxor` (guia1_ej4.c:113-114) calls `numero` a
number of at most three digits and `digito` its digit count. The code
converts `digito` digits and always displays all three positions of
`vector`; the positions it did not convert keep whatever the uninitialised
buffer held (`Shown`). The model follows the code.

## Model

| member | source | states |
|---|---|---|
| Gpio.GpioPort.GpioOn | firmware/projects/guia1_ej4/main/guia1_ej4.c:97 | `GPIOOn(p)` appends `On(p)` to the trace and sets `p` high; levels stay the replay of the trace |
| Gpio.GpioPort.GpioOff | firmware/projects/guia1_ej4/main/guia1_ej4.c:101 | `GPIOOff(p)` appends `Off(p)` and sets `p` low; levels stay the replay of the trace |
| Gpio.ApplyLastWrite | firmware/projects/guia1_ej4/main/guia1_ej4.c:97-101 | a pin's level is the one set by the last write that names it |
| Gpio.ApplyUntouched | firmware/projects/guia1_ej4/main/guia1_ej4.c:97-101 | a pin that no write names keeps its level |
| BcdDisplay.Digits | firmware/projects/guia1_ej4/main/guia1_ej4.c:57-61 | the conversion yields exactly `n` digits, each in 0..9 |
| BcdDisplay.ConvertToBcdArray | firmware/projects/guia1_ej4/main/guia1_ej4.c:54-63 | writes positions `0..digits-1` with the decimal digits of `data`, least significant first; every other position is untouched; returns 0 |
| BcdDisplay.DigitsRoundTrip | firmware/projects/guia1_ej4/main/guia1_ej4.c:57-60 | the sum of `bcd_number[i]·10^i` over `i < digits` is `data mod 10^digits` |
| BcdDisplay.DigitsRoundTripExact | firmware/projects/guia1_ej4/main/guia1_ej4.c:57-60 | when `data < 10^digits` the digits denote `data` exactly |
| BcdDisplay.ValueRoundTrip | firmware/projects/guia1_ej4/main/guia1_ej4.c:57-60 | the other direction: converting the number a 0..9 digit sequence denotes gives that sequence back |
| BcdDisplay.DigitAt | firmware/projects/guia1_ej4/main/guia1_ej4.c:57-60 | digit `k` is `(data / 10^k) mod 10` |
| BcdDisplay.LeadingZeros | firmware/projects/guia1_ej4/main/guia1_ej4.c:59-60 | positions past the significant digits of `data` are 0 |
| BcdDisplay.Digits138 | firmware/projects/guia1_ej4/main/guia1_ej4.c:152-153 | 138 in three digits is `[8, 3, 1]` (units, tens, hundreds) |
| BcdDisplay.NibbleOfBits | firmware/projects/guia1_ej4/main/guia1_ej4.c:95 | the bits tested by `digits & 1<<i` for `i` = 0..3, weighted 1, 2, 4, 8, add up to `digits mod 16` |
| BcdDisplay.MapBits | firmware/projects/guia1_ej4/main/guia1_ej4.c:87-104 | issues exactly four writes, line `i` on when bit `i` is set and off otherwise, in order `i` = 0..3; the levels are the old levels with these writes applied |
| BcdDisplay.MapBitsLevel | firmware/projects/guia1_ej4/main/guia1_ej4.c:92-103 | afterwards BCD line `i` is high exactly when bit `i` of the digit is set; every other pin keeps its level |
| BcdDisplay.MapBitsReadBack | firmware/projects/guia1_ej4/main/guia1_ej4.c:92-103 | reading the four lines back as a 4-bit number gives `digits mod 16` |
| BcdDisplay.ShowPosition | firmware/projects/guia1_ej4/main/guia1_ej4.c:129-135 | one loop pass appends exactly the block for position `i`: the four BCD writes for the digit, then `On(mult[i])`, `Off(mult[i])` |
| BcdDisplay.ShownEntries | firmware/projects/guia1_ej4/main/guia1_ej4.c:120-123 | `Shown`, the buffer that gets displayed, has three entries; entry `k < digito` is digit `k` of `numero`, `(numero / 10^k) mod 10`; entries from `digito` on keep the bytes the uninitialised `vector` held |
| BcdDisplay.Multiplex | firmware/projects/guia1_ej4/main/guia1_ej4.c:118-137 | converts `digito` digits into the 3-entry buffer, then issues the three blocks (BCD writes for `vector[i]`, `On(mult[i])`, `Off(mult[i])`) for `i` = 0, 1, 2 and nothing else |
| BcdDisplay.MuxOrder | firmware/projects/guia1_ej4/main/guia1_ej4.c:126-136 | the trace has 18 writes; writes `6i..6i+3` spell `vector[i]`, write `6i+4` is `On(mult[i].pin)` and write `6i+5` is `Off(mult[i].pin)` |
| BcdDisplay.BlockLatched | firmware/projects/guia1_ej4/main/guia1_ej4.c:129-134 | right after select line `i` goes high, the BCD lines read back the digit and the other select lines are untouched |
| BcdDisplay.BlockDone | firmware/projects/guia1_ej4/main/guia1_ej4.c:129-135 | after one position's block its select line is low again, the BCD lines hold its digit, other select lines are untouched |
| BcdDisplay.MuxPrefixState | firmware/projects/guia1_ej4/main/guia1_ej4.c:126-136 | after positions `0..n-1` their select lines are low, later ones untouched, and the BCD lines hold `vector[n-1]` |
| BcdDisplay.MuxLatch | firmware/projects/guia1_ej4/main/guia1_ej4.c:126-135 | while select line `i` is high, no other select line is high and the BCD lines spell `vector[i]` (when all selects start low) |
| BcdDisplay.MuxFinal | firmware/projects/guia1_ej4/main/guia1_ej4.c:126-136 | afterwards every select line is low and the BCD lines hold `vector[2]` |
| BcdDisplay.MuxLeavesOtherPins | firmware/projects/guia1_ej4/main/guia1_ej4.c:126-136 | a pin that is neither a BCD nor a select line is never written and keeps its level |
| BcdDisplay.ShownAllConverted | firmware/projects/guia1_ej4/main/guia1_ej4.c:120-123 | with `digito == 3` the displayed digits are the conversion of `numero`, whatever the buffer held before; below 1000 they denote `numero` |
| BcdDisplay.DisplayDemo | firmware/projects/guia1_ej4/main/guia1_ej4.c:147-195 | showing 138 with three digits issues, in order, the writes for 8, a pulse of the units select, the writes for 3, a pulse of the tens select, the writes for 1, a pulse of the hundreds select |
| LedControl.LedBoard.LedOn | firmware/projects/guia1_ej3/main/x_template.c:52 | records `SwitchOn(n)` and lights LED `n` |
| LedControl.LedBoard.LedOff | firmware/projects/guia1_ej3/main/x_template.c:61 | records `SwitchOff(n)` and darkens LED `n` |
| LedControl.LedBoard.LedToggle | firmware/projects/guia1_ej3/main/x_template.c:71 | records `Toggle(n)` and inverts LED `n` |
| LedControl.LedBoard.TaskDelay | firmware/projects/guia1_ej3/main/x_template.c:83 | records `Delay(ms)`; no LED changes |
| LedControl.LedBoard.ReportInvalidMode | firmware/projects/guia1_ej3/main/x_template.c:88 | records the invalid-mode diagnostic; no LED changes |
| LedControl.CallsPermitted | firmware/projects/guia1_ej3/main/x_template.c:50-89 | every call in `Calls` (what `ControlLED` makes) drives only the configured LED, only when it names an LED, in the way the mode asks (ON only switches on, OFF only off, TOGGLE only toggles and waits 100 ms); an unknown mode makes the diagnostic and nothing else |
| LedControl.LedBoard.TogglePass | firmware/projects/guia1_ej3/main/x_template.c:70-84 | one pass of the TOGGLE loop appends exactly one toggle of the configured LED (none if it names no LED) followed by one 100 ms delay |
| LedControl.LedBoard.ControlLed | firmware/projects/guia1_ej3/main/x_template.c:46-90 | issues exactly the calls of the mode dispatch for `config` and nothing else; the LEDs end as those calls leave them |
| LedControl.RunToggleCycles | firmware/projects/guia1_ej3/main/x_template.c:69-85 | `k` toggle passes flip the named LED exactly when `k` is odd and leave the other LEDs as they were |
| LedControl.OnMode | firmware/projects/guia1_ej3/main/x_template.c:50-57 | ON with a recognised LED: exactly one `LedOn` of that LED; it ends lit, the other two unchanged |
| LedControl.OffMode | firmware/projects/guia1_ej3/main/x_template.c:59-66 | OFF with a recognised LED: exactly one `LedOff` of that LED; it ends dark, the other two unchanged |
| LedControl.ToggleMode | firmware/projects/guia1_ej3/main/x_template.c:68-85 | TOGGLE with a recognised LED: exactly `n_ciclos` pairs (toggle of that LED, 100 ms delay); it ends flipped iff `n_ciclos` is odd; the other two are unchanged |
| LedControl.UnrecognisedLed | firmware/projects/guia1_ej3/main/x_template.c:50-85 | an unrecognised `n_led` changes no LED in any valid mode; ON and OFF make no call; TOGGLE makes exactly `n_ciclos` delays and nothing else |
| LedControl.InvalidModeOnly | firmware/projects/guia1_ej3/main/x_template.c:87-89 | a mode other than 0, 1, 2 makes one diagnostic and no other call, and changes no LED |
| LedControl.PeriodIgnored | firmware/projects/guia1_ej3/main/x_template.c:46-90 | changing `periodo` changes nothing the controller does |
| LedControl.ToggleDemo | firmware/projects/guia1_ej3/main/x_template.c:94-100 | TOGGLE on `LED_1` for 10 cycles makes exactly ten (toggle `LED_1`, delay) pairs, no call on `LED_2` or `LED_3`, and leaves every LED as it started |

## Left out

- Console output (`printf`) is not modelled: the debug messages in `mapearbits`, `multipelxor` and both entry points. The one exception is the invalid-mode message, which is kept as the `InvalidMode` trace event.
- Pin initialisation (`GPIOInit`) and `LedsInit` are not modelled. The port and the board start from levels given as parameters. The `dir` field of `gpioConf_t` is carried but never read by `mapearbits` or `multipelxor`; only `app_main` passes it to `GPIOInit`.
- The numeric values of `GPIO_*` and `LED_*` are not modelled. Their drivers (`gpio_mcu.h`, `led.h`, `switch.h`) are not part of this model. Pins and LED identifiers are abstract values.
- The board's LED methods require an identifier that names an LED. `ControlLED` only ever calls them with `LED_1`, `LED_2` or `LED_3`.
- `vTaskDelay` timing and the tick conversion `100 / portTICK_PERIOD_MS` are not modelled. Each delay is recorded as a `Delay(100)` event in milliseconds.
- Real time, display persistence and dwell time on the hardware are physical behaviour and are not modelled.
- The entry points `app_main` are only used for their demonstration values (`DisplayDemo`, `Digits138`, `ToggleDemo`). The global `my_leds` and its field-by-field assignment are not modelled.
- `multipelxor` with `digito > 3` overflows the 3-entry stack buffer, which is undefined behaviour in C. `Multiplex` requires `digito <= 3`.
- The Doxygen navigation data of the display project is documentation, not program logic.
- MapBitsLevel: stated only for four distinct BCD pins. With repeated pins, the last write wins (`ApplyLastWrite`).
- MapBitsReadBack: stated only for four distinct BCD pins, for the same reason.
- BlockLatched, BlockDone, MuxPrefixState, MuxLatch, MuxFinal: stated only for wirings where the four BCD pins and the three select pins are seven different pins (`WellWired`). With a shared pin the last write wins; `Multiplex` and `MuxOrder` still describe every wiring.
- MuxLatch: stated for select lines that start low. Otherwise a later select line keeps whatever level it had before its own pulse.
