# Board layer of the Nano Zero Stepper firmware, in Dafny

This project models `firmware/stepper_nano_zero/board.h`, the board layer of a
closed-loop stepper controller that builds for two boards: the Nano Zero
Stepper (the default) and the Mechaduino (`MECHADUINO_HARDWARE`). It models
four parts of that header.

- **The pin table** (`BoardPins`, `board_pins.dfy`). Every `PIN_*` define is
  a value of `PinOf(role, variant)`. Roles the Mechaduino lacks map to `None`:
  encoder power, SW1/SW3/SW4 and the yellow LED. `RoleOf` reads the table
  backwards.
- **`DIVIDE_WITH_ROUND`** (`Rounding`, `rounding.dfy`). It is modelled on
  natural numbers.
- **`GPIO_LOW`, `GPIO_HIGH` and `GPIO_OUTPUT`** (`PortGpio`, `port_gpio.dfy`).
  They run over a model of the SAM D21 PORT peripheral:
  - a `PortGroup` class holds the OUT word, the DIR word and the PINCFG array;
  - a `Port` class holds the groups and the `g_APinDescription` lookup from
    Arduino pin to (group, bit);
  - the OUTSET, OUTCLR and DIRSET strobes and the PINCFG `&= ~INEN` are
    methods of `PortGroup` (`WriteOutSet`, `WriteOutClr`, `WriteDirSet`,
    `ClearPinCfg`), each specified by a function on bit vectors (`AfterSet`,
    `AfterClear`, `ClearCfgFlags`).
- **`boardSetupPins`, `YELLOW_LED` and `RED_LED`**, in four modules:
  - `PinTrace` (`pin_trace.dfy`) is the Arduino-level view of the pins. Each
    pin has a mode (set by `pinMode`) and an output level (set by
    `digitalWrite`). A run of calls is a trace of operations, and `Replay`
    gives the pin states a trace leads to.
  - `BoardSetup` (`board_setup.dfy`) lists the calls of `boardSetupPins` in
    source order, group by group. Its parameters are the variant and the
    `USE_ENABLE_PIN` flag. It also defines `SetupState`, the state each role
    is left in.
  - `DriverOrder` (`driver_order.dfy`) proves the driver-pin ordering.
  - `SetupFinal` (`setup_final.dfy`) proves the final states and the LED
    helpers. Each group of calls is followed pin by pin (`Track`) and compared
    with the role table (`Effect`).
- **The board as an object** (`BoardState`, `board_state.dfy`). The `Board`
  class holds the pin states and the trace of calls. It has methods for
  `pinMode`, `digitalWrite`, `boardSetupPins` and the two LED helpers.

Two orderings in boardSetupPins are worth noting:
- **Phase inputs.** The driver phase inputs are handled one pin at a time:
  IN3 is written LOW and made an output, then IN4, and so on. Each driver
  pin is LOW before it is first an output and is never written HIGH.
  `DriverOrder` proves this.
- **Chip select, encoder power, SPI and yellow LED.** These pins are made
  outputs before they are written. Between the two calls each one drives
  whatever its output latch held. From a LOW latch, the encoder supply
  (active low) is briefly switched on before it is switched off.
  `OutputOrder` (`output_order.dfy`) proves both the order and this brief
  power-on.

`DIVIDE_WITH_ROUND` is also modelled on `uint32_t` operands, where `x + y/2`
wraps modulo 2^32 (`Rounding.DivideWithRoundU32`).

## Model

| member | source | states |
|---|---|---|
| BoardPins.PinOf | firmware/stepper_nano_zero/board.h:89-129 | The pin of each role on each board. A role is undefined exactly when it is encoder power, SW1/SW3/SW4 or the yellow LED and the board is the Mechaduino. Every defined pin is at most 24. |
| BoardPins.PinsDistinct | firmware/stepper_nano_zero/board.h:89-128 | On one board, two different defined roles never share a pin. |
| BoardPins.VariantDifferences | firmware/stepper_nano_zero/board.h:92-129 | ERROR is 10 on the Nano Zero Stepper and 19 on the Mechaduino. IN1 is 18 and 8. Every other role the Mechaduino has sits on the same pin on both boards. |
| BoardPins.PinsReusedAcrossVariants | firmware/stepper_nano_zero/board.h:92-129 | Pin 19 is SW1 on one board and ERROR on the other. Pin 8 is the yellow LED on one board and IN1 on the other. |
| BoardPins.RoleOf | firmware/stepper_nano_zero/board.h:89-129 | The inverse lookup: a role it returns is defined on that board and has exactly that pin. |
| BoardPins.RoleOfPinFor | firmware/stepper_nano_zero/board.h:89-129 | Looking up the pin of a role and then the role of that pin gives back the role. |
| BoardPins.RoleOfComplete | firmware/stepper_nano_zero/board.h:89-129 | The inverse lookup finds no role exactly for the pins the board does not use. |
| Rounding.DivideWithRound | firmware/stepper_nano_zero/board.h:132 | (x + y/2)/y is within half of y of x: -y <= 2(x - r·y) < y. On unbounded naturals it is x/y rounded to the nearest integer. |
| Rounding.DivideWithRoundU32 | firmware/stepper_nano_zero/board.h:132 | On uint32_t operands the result fits in 32 bits. Where x + y/2 does not wrap, it equals the rounded quotient. |
| Rounding.DivideWithRoundU32Wraps | firmware/stepper_nano_zero/board.h:132 | Where the sum wraps the rounding is lost: 0xFFFFFFFF over 2 gives 0, where rounding gives 2^31. |
| Rounding.DivideWithRoundUnique | firmware/stepper_nano_zero/board.h:132 | Exactly one integer meets that bound, so the macro is the rounding of x/y. |
| Rounding.DivideWithRoundExact | firmware/stepper_nano_zero/board.h:132 | When y divides x the result is the exact quotient. |
| Rounding.DivideWithRoundHalfUp | firmware/stepper_nano_zero/board.h:132 | An exact half, k + 1/2 with y even, rounds up to k + 1. |
| PortGpio.Mask | firmware/stepper_nano_zero/board.h:135-138 | 1 << bit has exactly that one bit set. |
| PortGpio.AfterSet | firmware/stepper_nano_zero/board.h:136 | A write to a SET strobe: a bit is set afterwards iff it was set before or is set in the written word. |
| PortGpio.AfterClear | firmware/stepper_nano_zero/board.h:135 | A write to a CLR strobe: a bit is set afterwards iff it was set before and is clear in the written word. |
| PortGpio.ClearCfgFlags | firmware/stepper_nano_zero/board.h:138 | PINCFG &= ~flags: a bit is set afterwards iff it was set before and is not one of the flags. |
| PortGpio.SetMaskIsolated | firmware/stepper_nano_zero/board.h:136 | Setting through a one-bit mask sets that bit and leaves every other bit as it was. |
| PortGpio.ClearMaskIsolated | firmware/stepper_nano_zero/board.h:135 | Clearing through a one-bit mask clears that bit and leaves every other bit as it was. |
| PortGpio.ClearInenIsolated | firmware/stepper_nano_zero/board.h:138 | Clearing INEN clears bit 1 of PINCFG and leaves its other seven bits as they were. |
| PortGpio.SetThenClearOther | firmware/stepper_nano_zero/board.h:135-136 | GPIO_HIGH on one pin and then GPIO_LOW on another pin of the same group leaves the first pin HIGH. |
| PortGpio.PortGroup.WriteOutSet | firmware/stepper_nano_zero/board.h:136 | OUTSET.reg = value: OUT becomes AfterSet of its old value. |
| PortGpio.PortGroup.WriteOutClr | firmware/stepper_nano_zero/board.h:135 | OUTCLR.reg = value: OUT becomes AfterClear of its old value. |
| PortGpio.PortGroup.WriteDirSet | firmware/stepper_nano_zero/board.h:138 | DIRSET.reg = value: DIR becomes AfterSet of its old value. |
| PortGpio.PortGroup.ClearPinCfg | firmware/stepper_nano_zero/board.h:138 | PINCFG[bit] &= ~flags changes that one register and no other PINCFG entry. |
| PortGpio.Port.GpioLow | firmware/stepper_nano_zero/board.h:135 | GPIO_LOW(pin) clears the pin's OUT bit in its group and leaves DIR alone. OUT and DIR of every other group are unchanged. |
| PortGpio.Port.GpioHigh | firmware/stepper_nano_zero/board.h:136 | GPIO_HIGH(pin) sets the pin's OUT bit in its group and leaves DIR alone. OUT and DIR of every other group are unchanged. |
| PortGpio.Port.GpioOutput | firmware/stepper_nano_zero/board.h:138 | GPIO_OUTPUT(pin) clears only INEN in that pin's PINCFG, sets the pin's DIR bit, and leaves OUT untouched. The other PINCFG entries and the other groups are unchanged. |
| PinTrace.ReplayConcat | firmware/stepper_nano_zero/board.h:140-197 | Replaying two runs of calls one after the other is replaying their concatenation. |
| PinTrace.LastMode | firmware/stepper_nano_zero/board.h:140-197 | The mode of the last pinMode call on p in a run of calls: the call occurs, and no later pinMode names p. It is None iff no pinMode names p. |
| PinTrace.LastLevel | firmware/stepper_nano_zero/board.h:140-197 | The level of the last digitalWrite call on p: the call occurs, and no later digitalWrite names p. It is None iff no digitalWrite names p. |
| PinTrace.ReplayAt | firmware/stepper_nano_zero/board.h:140-197 | After a run of calls each pin has the mode of its last pinMode and the level of its last digitalWrite. A field no call sets keeps its starting value. |
| PinTrace.ReplayIdempotent | firmware/stepper_nano_zero/board.h:140-197 | A run of pinMode/digitalWrite calls repeated from the state it produced changes nothing. |
| PinTrace.ReplayTrack | firmware/stepper_nano_zero/board.h:140-197 | The state of one pin after a run of calls is found by following only the calls that name it. |
| PinTrace.LowBeforeOutput | firmware/stepper_nano_zero/board.h:172-186 | In a trace shaped like the driver setup, the LOW write of a pin comes before its first pinMode(OUTPUT), and the pin is never written HIGH. |
| PinTrace.NeverDrivesHigh | firmware/stepper_nano_zero/board.h:172-186 | In such a trace, a pin that did not drive HIGH at the start drives HIGH after no prefix of the trace. |
| BoardSetup.SetupTrace | firmware/stepper_nano_zero/board.h:140-197 | The calls of boardSetupPins, in order. Every call names a pin from 0 to 24. |
| BoardSetup.SwitchSetup | firmware/stepper_nano_zero/board.h:142-147 | The switch calls exist exactly on the Nano Zero Stepper. Each is a pinMode to INPUT_PULLUP on a pin from 0 to 24. |
| BoardSetup.InputSetup | firmware/stepper_nano_zero/board.h:149-155 | The STEP/DIR/ERROR calls are all pinMode calls on pins from 0 to 24; no level is written. Their per-pin effect is SetupFinal.InputTrack. |
| BoardSetup.EncoderSetup | firmware/stepper_nano_zero/board.h:157-164 | The encoder calls name only pins from 0 to 24. Their per-pin effect is SetupFinal.EncoderTrack. |
| BoardSetup.SpiSetup | firmware/stepper_nano_zero/board.h:166-170 | The SPI calls name only pins from 0 to 24. Their per-pin effect is SetupFinal.SpiTrack. |
| BoardSetup.LowThenOutput | firmware/stepper_nano_zero/board.h:173-180 | One phase input's two calls both name that pin, which is at most 24. Their effect on the pin is SetupFinal.LowThenOutputTrack. |
| BoardSetup.PhaseSetup | firmware/stepper_nano_zero/board.h:172-180 | The phase input calls name only pins from 0 to 24. Their per-pin effect is SetupFinal.PhaseTrack. |
| BoardSetup.VrefSetup | firmware/stepper_nano_zero/board.h:182-186 | The current reference calls name only pins from 0 to 24. Their per-pin effect is SetupFinal.VrefTrack. |
| BoardSetup.LedSetup | firmware/stepper_nano_zero/board.h:190-194 | The LED calls name only pins from 0 to 24. Their per-pin effect is SetupFinal.LedTrack. |
| BoardSetup.PreDriverSetup | firmware/stepper_nano_zero/board.h:142-170 | The calls before the motor driver name only pins from 0 to 24. |
| BoardSetup.RedLedOps | firmware/stepper_nano_zero/board.h:206-209 | RED_LED(on) is one digitalWrite to the red LED's pin, HIGH iff on (active high). |
| BoardSetup.YellowLedOps | firmware/stepper_nano_zero/board.h:199-204 | YELLOW_LED(on) is one digitalWrite to the yellow LED's pin, LOW iff on (active low). It is no call at all on a board without the LED. |
| BoardSetup.SetupState | firmware/stepper_nano_zero/board.h:142-194 | The state each role's pin is left in. Driver pins are outputs at LOW. Every pin whose level the routine writes is an output. Every other pin keeps its previous level. |
| BoardSetup.SpiSetupPins | firmware/stepper_nano_zero/board.h:166-170 | The SPI calls act on pins 23 (MOSI), 24 (SCK) and 22 (MISO). |
| BoardSetup.SetupTraceParts | firmware/stepper_nano_zero/board.h:140-197 | boardSetupPins makes the pre-driver calls, then the phase inputs, then the current references, then the LEDs. |
| DriverOrder.DriverSplit | firmware/stepper_nano_zero/board.h:172-186 | For each driver pin, the setup trace is the calls before its LOW write, the LOW write, and the calls after it. |
| DriverOrder.BeforeLowAvoids | firmware/stepper_nano_zero/board.h:142-186 | No call before the LOW write of a driver pin names that pin. |
| DriverOrder.AfterLowFacts | firmware/stepper_nano_zero/board.h:172-194 | The calls after that LOW write make the pin an output and never write it HIGH. |
| DriverOrder.SetupDriverPinsLowFirst | firmware/stepper_nano_zero/board.h:172-186 | For IN1 to IN4, VREF12 and VREF34, the first LOW write comes before the first pinMode(OUTPUT), and the pin is never written HIGH. |
| DriverOrder.SetupNeverDrivesDriverHigh | firmware/stepper_nano_zero/board.h:172-186 | No driver pin is an output at HIGH at any point during boardSetupPins, given it was not one at the start. |
| OutputOrder.EncoderSetupPins | firmware/stepper_nano_zero/board.h:157-164 | The encoder calls act on pin 16 (CS) and, on the Nano Zero Stepper only, pin 11 (encoder power). |
| OutputOrder.CsOrder | firmware/stepper_nano_zero/board.h:157-158 | In boardSetupPins, pinMode(CS, OUTPUT) comes before the first digitalWrite(CS, LOW). |
| OutputOrder.PowerOrder | firmware/stepper_nano_zero/board.h:161-163 | On the Nano Zero Stepper, pinMode(PWR, OUTPUT) comes before the first digitalWrite(PWR, HIGH). |
| OutputOrder.MosiOrder | firmware/stepper_nano_zero/board.h:166-167 | pinMode(MOSI, OUTPUT) comes before the first digitalWrite(MOSI, LOW). |
| OutputOrder.SckOrder | firmware/stepper_nano_zero/board.h:168-169 | pinMode(SCK, OUTPUT) comes before the first digitalWrite(SCK, LOW). |
| OutputOrder.YellowOrder | firmware/stepper_nano_zero/board.h:192-193 | On the Nano Zero Stepper, pinMode(YELLOW, OUTPUT) comes before the first digitalWrite(YELLOW, HIGH). |
| OutputOrder.SetupOutputBeforeWrite | firmware/stepper_nano_zero/board.h:157-193 | For CS, encoder power, MOSI, SCK and the yellow LED, wherever the board has them, the first pinMode(OUTPUT) comes before the first write of the level boardSetupPins gives the pin, and that write occurs. |
| OutputOrder.PowerOffIndex | firmware/stepper_nano_zero/board.h:142-163 | The first digitalWrite(PWR, HIGH) comes right after the switch, input and CS calls and pinMode(PWR, OUTPUT). |
| OutputOrder.PowerOnBeforeOff | firmware/stepper_nano_zero/board.h:142-162 | From a LOW latch, those calls leave the encoder supply pin an output at LOW. |
| OutputOrder.EncoderPoweredBeforeOff | firmware/stepper_nano_zero/board.h:157-163 | Just before boardSetupPins writes the encoder supply HIGH (off), the supply pin is an output. From a LOW latch it drives LOW, so the encoder is powered on. |
| SetupFinal.SwitchTrack | firmware/stepper_nano_zero/board.h:142-147 | The switch calls make SW1/SW3/SW4 pull-up inputs on the Nano Zero Stepper and touch no other pin. |
| SetupFinal.SwitchEffect | firmware/stepper_nano_zero/board.h:142-147 | The role table's reading of that group gives the same state for every pin. |
| SetupFinal.InputTrack | firmware/stepper_nano_zero/board.h:149-155 | STEP and DIR become pulled-down inputs. ERROR becomes a pulled-down input with USE_ENABLE_PIN and an output without it. No other pin changes. |
| SetupFinal.InputEffect | firmware/stepper_nano_zero/board.h:149-155 | The role table's reading of that group gives the same state for every pin. |
| SetupFinal.EncoderTrack | firmware/stepper_nano_zero/board.h:157-164 | CS ends as an output at LOW. Encoder power, where it exists, ends as an output at HIGH (supply off). No other pin changes. |
| SetupFinal.EncoderEffect | firmware/stepper_nano_zero/board.h:157-164 | The role table's reading of that group gives the same state for every pin. |
| SetupFinal.SpiTrack | firmware/stepper_nano_zero/board.h:166-170 | MOSI and SCK end as outputs at LOW and MISO as an input. No other pin changes. |
| SetupFinal.SpiEffect | firmware/stepper_nano_zero/board.h:166-170 | The role table's reading of that group gives the same state for every pin. |
| SetupFinal.PhaseTrack | firmware/stepper_nano_zero/board.h:172-180 | IN1 to IN4 end as outputs at LOW. No other pin changes. |
| SetupFinal.PhaseEffect | firmware/stepper_nano_zero/board.h:172-180 | The role table's reading of that group gives the same state for every pin. |
| SetupFinal.VrefTrack | firmware/stepper_nano_zero/board.h:182-186 | VREF12 and VREF34 end as outputs at LOW. No other pin changes. |
| SetupFinal.VrefEffect | firmware/stepper_nano_zero/board.h:182-186 | The role table's reading of that group gives the same state for every pin. |
| SetupFinal.LedTrack | firmware/stepper_nano_zero/board.h:190-194 | The red LED becomes an output at its old level. The yellow LED, where it exists, becomes an output at HIGH. No other pin changes. |
| SetupFinal.LedEffect | firmware/stepper_nano_zero/board.h:190-194 | The role table's reading of that group gives the same state for every pin. |
| SetupFinal.SetupTrack | firmware/stepper_nano_zero/board.h:140-197 | Over the whole routine, a pin ends in SetupState for its role, and a pin without a role is unchanged. |
| SetupFinal.SetupFinalState | firmware/stepper_nano_zero/board.h:140-197 | The same for the whole board, from any starting state. |
| SetupFinal.SetupRoleState | firmware/stepper_nano_zero/board.h:140-197 | After boardSetupPins, the pin of every defined role is in SetupState of that role. For example: CS, MOSI, SCK and the driver pins are outputs at LOW; encoder power and the yellow LED are outputs at HIGH; STEP/DIR are pulled-down inputs; the switches are pull-up inputs; MISO is an input; ERROR follows USE_ENABLE_PIN. |
| SetupFinal.SetupUntouched | firmware/stepper_nano_zero/board.h:140-197 | A pin no role uses is left as it was. |
| SetupFinal.SetupModesIndependent | firmware/stepper_nano_zero/board.h:140-197 | From any two starting states, every role's pin ends in the same mode. Pins whose level the routine writes also end at the same level. |
| SetupFinal.SetupIdempotent | firmware/stepper_nano_zero/board.h:140-197 | Running boardSetupPins a second time changes nothing. |
| SetupFinal.RedLedActiveHigh | firmware/stepper_nano_zero/board.h:206-209 | RED_LED(on) sets the red LED's level to HIGH iff on. Its mode and every other pin are unchanged. |
| SetupFinal.YellowLedActiveLow | firmware/stepper_nano_zero/board.h:199-204 | YELLOW_LED(on) sets the yellow LED's level to LOW iff on, and no other pin changes. Without a yellow LED the board is unchanged. |
| SetupFinal.YellowOffFixed | firmware/stepper_nano_zero/board.h:199-204 | YELLOW_LED(false) does nothing to a yellow LED that is already an output at HIGH. |
| SetupFinal.SetupLeavesYellowOff | firmware/stepper_nano_zero/board.h:190-204 | After boardSetupPins the yellow LED is off: YELLOW_LED(false) then changes nothing. |
| BoardState.Board.PinMode | firmware/stepper_nano_zero/board.h:144-192 | pinMode(p, m) changes the mode of pin p only, and records the call. |
| BoardState.Board.DigitalWrite | firmware/stepper_nano_zero/board.h:158-193 | digitalWrite(p, level) changes the level of pin p only, and records the call. |
| BoardState.Board.SetupSwitchPins | firmware/stepper_nano_zero/board.h:142-147 | Makes the switch calls, where the board has switches. |
| BoardState.Board.SetupInputPins | firmware/stepper_nano_zero/board.h:149-155 | Makes the STEP/DIR/ERROR calls for the given USE_ENABLE_PIN. |
| BoardState.Board.SetupEncoderPins | firmware/stepper_nano_zero/board.h:157-164 | Makes the CS calls and, where it exists, the encoder power calls. |
| BoardState.Board.SetupSpiPins | firmware/stepper_nano_zero/board.h:166-170 | Makes the SPI calls. |
| BoardState.Board.SetupPhasePins | firmware/stepper_nano_zero/board.h:172-180 | Makes the phase input calls, LOW before OUTPUT, pin by pin. |
| BoardState.Board.LowThenOutputPin | firmware/stepper_nano_zero/board.h:173-180 | Makes one phase input's calls: digitalWrite(p, LOW), then pinMode(p, OUTPUT). |
| BoardState.Board.SetupVrefPins | firmware/stepper_nano_zero/board.h:182-186 | Makes the current reference calls: both LOW writes, then both pinModes. |
| BoardState.Board.SetupLedPins | firmware/stepper_nano_zero/board.h:190-194 | Makes the LED calls. |
| BoardState.Board.SetupPins | firmware/stepper_nano_zero/board.h:140-197 | boardSetupPins records exactly SetupTrace and leaves the pins as Replay of it. Every role's pin ends in SetupState for that role, and every other pin is unchanged. |
| BoardState.Board.SetRedLed | firmware/stepper_nano_zero/board.h:206-209 | RED_LED(on) sets the red LED's level to HIGH iff on, and nothing else. |
| BoardState.Board.SetYellowLed | firmware/stepper_nano_zero/board.h:199-204 | YELLOW_LED(on) sets the yellow LED's level to LOW iff on. Without a yellow LED it changes no pin. |

## Left out

- The internals of Arduino `pinMode` and `digitalWrite` are library code. `pinMode` is modelled as setting a pin's mode and nothing else, and `digitalWrite` as setting its output level and nothing else.
- The contents of `g_APinDescription` are left abstract. It is a parameter of `PortGpio.Port`: any table whose groups exist and whose bits are below 32.
- The value of `PORT_PINCFG_INEN` (0x02, bit 1) comes from the SAM D21 register layout, which is not part of this model.
- `PortGpio.Mask`: `GPIO_OUTPUT` builds its DIRSET mask with a signed `1<<ulPin`, which is undefined in C for bit 31. The model uses the unsigned 32-bit mask for every bit, as GPIO_LOW and GPIO_HIGH do.
- Interrupts preempting the GPIO macros, and the atomicity of the SET/CLR strobes, are out of scope. Each write is modelled as one step with its single-bit effect.
- `DivideWithRound`: negative operands, C truncation toward zero and the unparenthesised macro expansion are out of scope. The model takes x ≥ 0 and y > 0. Overflow of x + y/2 in the operands' C type is not modelled here. `DivideWithRoundU32` models it for uint32_t, where the sum wraps. The overflow of a signed int sum is undefined behaviour and is not modelled.
- `DriverOrder.SetupNeverDrivesDriverHigh` assumes the pin does not already drive HIGH when boardSetupPins starts, as is the case out of reset.
- `SetupFinal.SetupModesIndependent`: the routine never writes the level of the red LED, MISO, STEP, DIR, ERROR or the switches. Their levels after setup are whatever they were before, so only their modes are independent of the starting state.
- `BoardState.Board.SetupPins` makes its calls through one helper method per group of the routine (switches, inputs, encoder, SPI, phases, references, LEDs) rather than in one body. The calls and their order are the same.
- The build knobs, the `Serial5`/`SerialUSB` aliasing, the timer notes and the enums `RotationDir_t`, `ErrorPinMode_t` and `feedbackCtrl_t` carry no behaviour and are not modelled.
- Reading a pin's input level has no macro in board.h and is not modelled.
