/**
 * The board as a mutable object: pinMode, digitalWrite and boardSetupPins
 * as methods that update the pin states and record the calls.
 */
module BoardState {
  import opened Wrappers
  import opened BoardPins
  import opened PinTrace
  import opened BoardSetup
  import opened SetupFinal

  /**
   * The board as the firmware sees it through the Arduino pin API: the
   * mode and output level of every pin, and the calls made so far.
   * `start` is the state before the first recorded call.
   */
  class Board {
    const variant: Variant
    const useEnablePin: bool
    var pins: seq<PinState>
    var trace: seq<Op>
    ghost var start: seq<PinState>

    ghost predicate Valid()
      reads this
    {
      |start| > MaxPin && Fits(trace, |start|) && pins == Replay(start, trace)
    }

    constructor (variant: Variant, useEnablePin: bool, initial: seq<PinState>)
      requires |initial| > MaxPin
      ensures Valid()
      ensures this.variant == variant && this.useEnablePin == useEnablePin
      ensures pins == initial && trace == []
    {
      this.variant := variant;
      this.useEnablePin := useEnablePin;
      pins := initial;
      trace := [];
      start := initial;
    }

    /** pinMode(p, m): only the mode of pin p changes. */
    method PinMode(p: nat, m: Mode)
      requires Valid() && p < |pins|
      modifies this`pins, this`trace
      ensures Valid()
      ensures pins == old(pins)[p := old(pins)[p].(mode := m)]
      ensures trace == old(trace) + [SetMode(p, m)]
    {
      ReplayStep(start, trace, SetMode(p, m));
      trace := trace + [SetMode(p, m)];
      pins := pins[p := pins[p].(mode := m)];
    }

    /** digitalWrite(p, level): only the output level of pin p changes. */
    method DigitalWrite(p: nat, level: Level)
      requires Valid() && p < |pins|
      modifies this`pins, this`trace
      ensures Valid()
      ensures pins == old(pins)[p := old(pins)[p].(level := level)]
      ensures trace == old(trace) + [Write(p, level)]
    {
      ReplayStep(start, trace, Write(p, level));
      trace := trace + [Write(p, level)];
      pins := pins[p := pins[p].(level := level)];
    }

    /** RED_LED(on): the red LED pin is driven to `on`, HIGH lighting it. */
    method SetRedLed(on: bool)
      requires Valid()
      modifies this`pins, this`trace
      ensures Valid()
      ensures trace == old(trace) + RedLedOps(variant, on)
      ensures var red := PinFor(RedLed, variant);
              pins == old(pins)[red := old(pins)[red].(level := if on then High else Low)]
    {
      DigitalWrite(PinFor(RedLed, variant), LevelOf(on));
    }

    /** YELLOW_LED(on): the yellow LED pin is driven to `!on`, LOW lighting it; nothing happens without one. */
    method SetYellowLed(on: bool)
      requires Valid()
      modifies this`pins, this`trace
      ensures Valid()
      ensures trace == old(trace) + YellowLedOps(variant, on)
      ensures Defined(YellowLed, variant) ==>
                var y := PinFor(YellowLed, variant);
                pins == old(pins)[y := old(pins)[y].(level := if on then Low else High)]
      ensures !Defined(YellowLed, variant) ==> pins == old(pins)
    {
      if Defined(YellowLed, variant) {
        DigitalWrite(PinFor(YellowLed, variant), LevelOf(!on));
      }
    }

    /** boardSetupPins(): the calls of SetupTrace, in that order, group by group. */
    method SetupPins()
      requires Valid()
      modifies this`pins, this`trace
      ensures Valid()
      ensures trace == old(trace) + SetupTrace(variant, useEnablePin)
      ensures pins == Replay(old(pins), SetupTrace(variant, useEnablePin))
      ensures forall role | Defined(role, variant) ::
                pins[PinFor(role, variant)] == SetupState(useEnablePin, role, old(pins)[PinFor(role, variant)])
      ensures forall p | 0 <= p < |pins| && p !in RolePins(variant) :: pins[p] == old(pins)[p]
    {
      var v, f := variant, useEnablePin;
      ghost var t0 := trace;
      SetupSwitchPins();
      SetupInputPins();
      SetupEncoderPins();
      SetupSpiPins();
      SetupPhasePins();
      SetupVrefPins();
      SetupLedPins();
      SetupTraceParts(v, f);
      AppendGroups(t0, SwitchSetup(v), InputSetup(v, f), EncoderSetup(v), SpiSetup(v),
                   PhaseSetup(v), VrefSetup(v), LedSetup(v));
      ReplayConcat(start, t0, SetupTrace(v, f));
      forall role | Defined(role, v)
        ensures pins[PinFor(role, v)] == SetupState(f, role, old(pins)[PinFor(role, v)])
      {
        SetupRoleState(v, f, old(pins), role);
      }
      forall p | 0 <= p < |pins| && p !in RolePins(v) ensures pins[p] == old(pins)[p] {
        SetupUntouched(v, f, old(pins), p);
      }
    }

    /** The switches, where the variant has them. */
    method SetupSwitchPins()
      requires Valid()
      modifies this`pins, this`trace
      ensures Valid() && trace == old(trace) + SwitchSetup(variant)
    {
      var v := variant;
      if Defined(Sw1, v) {
        ghost var t := trace;
        PinMode(PinFor(Sw1, v), InputPullup);
        PinMode(PinFor(Sw3, v), InputPullup);
        PinMode(PinFor(Sw4, v), InputPullup);
        AppendThree(t, SetMode(PinFor(Sw1, v), InputPullup), SetMode(PinFor(Sw3, v), InputPullup),
                    SetMode(PinFor(Sw4, v), InputPullup));
      }
    }

    method SetupInputPins()
      requires Valid()
      modifies this`pins, this`trace
      ensures Valid() && trace == old(trace) + InputSetup(variant, useEnablePin)
    {
      var v := variant;
      ghost var t := trace;
      PinMode(PinFor(StepInput, v), InputPulldown);
      PinMode(PinFor(DirInput, v), InputPulldown);
      if useEnablePin {
        PinMode(PinFor(ErrorPin, v), InputPulldown);
      } else {
        PinMode(PinFor(ErrorPin, v), Output);
      }
      AppendThree(t, SetMode(PinFor(StepInput, v), InputPulldown), SetMode(PinFor(DirInput, v), InputPulldown),
                  SetMode(PinFor(ErrorPin, v), if useEnablePin then InputPulldown else Output));
    }

    method SetupEncoderPins()
      requires Valid()
      modifies this`pins, this`trace
      ensures Valid() && trace == old(trace) + EncoderSetup(variant)
    {
      var v := variant;
      ghost var t := trace;
      PinMode(PinFor(EncoderCs, v), Output);
      DigitalWrite(PinFor(EncoderCs, v), Low);
      var a, b := SetMode(PinFor(EncoderCs, v), Output), Write(PinFor(EncoderCs, v), Low);
      if Defined(EncoderPower, v) {
        PinMode(PinFor(EncoderPower, v), Output);
        DigitalWrite(PinFor(EncoderPower, v), High);
        AppendFour(t, a, b, SetMode(PinFor(EncoderPower, v), Output), Write(PinFor(EncoderPower, v), High));
      } else {
        AppendTwo(t, a, b);
      }
    }

    method SetupSpiPins()
      requires Valid()
      modifies this`pins, this`trace
      ensures Valid() && trace == old(trace) + SpiSetup(variant)
    {
      var v := variant;
      ghost var t := trace;
      PinMode(PinFor(Mosi, v), Output);
      DigitalWrite(PinFor(Mosi, v), Low);
      PinMode(PinFor(Sck, v), Output);
      DigitalWrite(PinFor(Sck, v), Low);
      PinMode(PinFor(Miso, v), Input);
      AppendFive(t, SetMode(PinFor(Mosi, v), Output), Write(PinFor(Mosi, v), Low), SetMode(PinFor(Sck, v), Output),
                 Write(PinFor(Sck, v), Low), SetMode(PinFor(Miso, v), Input));
    }

    method SetupPhasePins()
      requires Valid()
      modifies this`pins, this`trace
      ensures Valid() && trace == old(trace) + PhaseSetup(variant)
    {
      var v := variant;
      ghost var t := trace;
      LowThenOutputPin(PinFor(In3, v));
      LowThenOutputPin(PinFor(In4, v));
      LowThenOutputPin(PinFor(In2, v));
      LowThenOutputPin(PinFor(In1, v));
      AppendAssoc4(t, LowThenOutput(PinFor(In3, v)), LowThenOutput(PinFor(In4, v)),
                   LowThenOutput(PinFor(In2, v)), LowThenOutput(PinFor(In1, v)));
    }

    /** digitalWrite(p, LOW) followed by pinMode(p, OUTPUT). */
    method LowThenOutputPin(p: nat)
      requires Valid() && p <= MaxPin
      modifies this`pins, this`trace
      ensures Valid() && trace == old(trace) + LowThenOutput(p)
    {
      DigitalWrite(p, Low);
      PinMode(p, Output);
    }

    method SetupVrefPins()
      requires Valid()
      modifies this`pins, this`trace
      ensures Valid() && trace == old(trace) + VrefSetup(variant)
    {
      var v := variant;
      ghost var t := trace;
      DigitalWrite(PinFor(Vref12, v), Low);
      DigitalWrite(PinFor(Vref34, v), Low);
      PinMode(PinFor(Vref34, v), Output);
      PinMode(PinFor(Vref12, v), Output);
      AppendFour(t, Write(PinFor(Vref12, v), Low), Write(PinFor(Vref34, v), Low),
                 SetMode(PinFor(Vref34, v), Output), SetMode(PinFor(Vref12, v), Output));
    }

    method SetupLedPins()
      requires Valid()
      modifies this`pins, this`trace
      ensures Valid() && trace == old(trace) + LedSetup(variant)
    {
      var v := variant;
      ghost var t := trace;
      PinMode(PinFor(RedLed, v), Output);
      if Defined(YellowLed, v) {
        PinMode(PinFor(YellowLed, v), Output);
        DigitalWrite(PinFor(YellowLed, v), High);
        AppendThree(t, SetMode(PinFor(RedLed, v), Output), SetMode(PinFor(YellowLed, v), Output),
                    Write(PinFor(YellowLed, v), High));
      }
    }
  }
}
