/**
 * The order boardSetupPins gives the other pins it drives: the encoder chip
 * select and supply, MOSI, SCK and the yellow LED are made outputs first and
 * written afterwards. In between, such a pin drives whatever level its
 * output latch held, so from a LOW latch the encoder supply (active low) is
 * briefly switched on before it is switched off.
 */
module OutputOrder {
  import opened Wrappers
  import opened BoardPins
  import opened PinTrace
  import opened BoardSetup
  import opened DriverOrder
  import opened SetupFinal

  /** The roles boardSetupPins makes outputs before it writes their level. */
  predicate OutputFirstRole(role: Role) {
    match role
    case EncoderCs | EncoderPower | Mosi | Sck | YellowLed => true
    case _ => false
  }

  /** The level written to such a pin: HIGH (off) for the encoder supply and the yellow LED, LOW otherwise. */
  function WrittenLevel(role: Role): Level {
    if role == EncoderPower || role == YellowLed then High else Low
  }

  /** In ops, pinMode(p, OUTPUT) comes first and a digitalWrite(p, l) follows it. */
  predicate OutputBeforeWrite(ops: seq<Op>, p: nat, l: Level) {
    FirstIndex(ops, SetMode(p, Output)) < FirstIndex(ops, Write(p, l)) < |ops|
  }

  /**
   * In ops = pre + g + post with g = x + [pinMode(p, OUTPUT)] + y, where pre
   * and x never name p and y writes p, the pinMode comes first.
   */
  lemma OutputFirstIn(ops: seq<Op>, pre: seq<Op>, g: seq<Op>, post: seq<Op>,
                      x: seq<Op>, y: seq<Op>, p: nat, l: Level)
    requires ops == pre + g + post && g == x + [SetMode(p, Output)] + y
    requires Avoids(pre, p) && Avoids(x, p) && Write(p, l) in y
    ensures OutputBeforeWrite(ops, p, l)
  {
    assert ops == (pre + x) + [SetMode(p, Output)] + (y + post);
    AvoidsConcat(pre, x, p);
    FirstIndexSplit(pre + x, SetMode(p, Output), y + post, Write(p, l));
  }

  /** The pins of the encoder and SPI groups that are made outputs: 11, 16, 23 and 24. */
  predicate EarlyOutputPin(p: nat) {
    p == 11 || p == 16 || p == 23 || p == 24
  }

  lemma SwitchAvoidsEarly(v: Variant, p: nat)
    requires EarlyOutputPin(p)
    ensures Avoids(SwitchSetup(v), p)
  {
  }

  lemma InputAvoidsEarly(v: Variant, useEnablePin: bool, p: nat)
    requires EarlyOutputPin(p)
    ensures Avoids(InputSetup(v, useEnablePin), p)
  {
  }

  lemma EncoderAvoidsSpi(v: Variant, p: nat)
    requires p == 23 || p == 24
    ensures Avoids(EncoderSetup(v), p)
  {
  }

  /** The calls before the encoder group never name the chip select or the supply. */
  lemma BeforeEncoderAvoids(v: Variant, useEnablePin: bool, p: nat)
    requires EarlyOutputPin(p)
    ensures Avoids(SwitchSetup(v) + InputSetup(v, useEnablePin), p)
  {
    SwitchAvoidsEarly(v, p);
    InputAvoidsEarly(v, useEnablePin, p);
    AvoidsConcat(SwitchSetup(v), InputSetup(v, useEnablePin), p);
  }

  /** The calls before the SPI group never name MOSI or SCK. */
  lemma BeforeSpiAvoids(v: Variant, useEnablePin: bool, p: nat)
    requires p == 23 || p == 24
    ensures Avoids(SwitchSetup(v) + InputSetup(v, useEnablePin) + EncoderSetup(v), p)
  {
    BeforeEncoderAvoids(v, useEnablePin, p);
    EncoderAvoidsSpi(v, p);
    AvoidsConcat(SwitchSetup(v) + InputSetup(v, useEnablePin), EncoderSetup(v), p);
  }

  /** On the Nano Zero Stepper the phase inputs are pins 5, 6, 7 and 18, never the yellow LED's pin 8. */
  lemma PhaseAvoidsYellow()
    ensures Avoids(PhaseSetup(NanoZeroStepper), 8)
  {
    var v := NanoZeroStepper;
    var a, b, c, d := LowThenOutput(PinFor(In3, v)), LowThenOutput(PinFor(In4, v)),
                      LowThenOutput(PinFor(In2, v)), LowThenOutput(PinFor(In1, v));
    LowThenOutputAvoids(PinFor(In3, v), 8);
    LowThenOutputAvoids(PinFor(In4, v), 8);
    LowThenOutputAvoids(PinFor(In2, v), 8);
    LowThenOutputAvoids(PinFor(In1, v), 8);
    AvoidsConcat(a, b, 8);
    AvoidsConcat(a + b, c, 8);
    AvoidsConcat(a + b + c, d, 8);
  }

  lemma VrefAvoidsYellow(v: Variant)
    ensures Avoids(VrefSetup(v), 8)
  {
  }

  /** On the Nano Zero Stepper no call before the LED group names the yellow LED, pin 8. */
  lemma BeforeLedAvoids(useEnablePin: bool)
    ensures Avoids(PreDriverSetup(NanoZeroStepper, useEnablePin) + PhaseSetup(NanoZeroStepper)
                   + VrefSetup(NanoZeroStepper), 8)
  {
    var v := NanoZeroStepper;
    PreDriverAvoidsDriver(v, useEnablePin, 8);
    PhaseAvoidsYellow();
    VrefAvoidsYellow(v);
    AvoidsConcat(PreDriverSetup(v, useEnablePin), PhaseSetup(v), 8);
    AvoidsConcat(PreDriverSetup(v, useEnablePin) + PhaseSetup(v), VrefSetup(v), 8);
  }

  lemma PreDriverParts(v: Variant, useEnablePin: bool)
    ensures PreDriverSetup(v, useEnablePin) == SwitchSetup(v) + InputSetup(v, useEnablePin) + EncoderSetup(v) + SpiSetup(v)
  {
  }

  /** The setup trace around the encoder group. */
  lemma EncoderSplit(v: Variant, useEnablePin: bool)
    ensures SetupTrace(v, useEnablePin)
              == (SwitchSetup(v) + InputSetup(v, useEnablePin)) + EncoderSetup(v)
                 + (SpiSetup(v) + PhaseSetup(v) + VrefSetup(v) + LedSetup(v))
  {
    SetupTraceParts(v, useEnablePin);
    PreDriverParts(v, useEnablePin);
    Regroup(SwitchSetup(v), InputSetup(v, useEnablePin), EncoderSetup(v), SpiSetup(v),
            PhaseSetup(v), VrefSetup(v), LedSetup(v));
  }

  /** The setup trace around the SPI group. */
  lemma SpiSplit(v: Variant, useEnablePin: bool)
    ensures SetupTrace(v, useEnablePin)
              == (SwitchSetup(v) + InputSetup(v, useEnablePin) + EncoderSetup(v)) + SpiSetup(v)
                 + (PhaseSetup(v) + VrefSetup(v) + LedSetup(v))
  {
    SetupTraceParts(v, useEnablePin);
    PreDriverParts(v, useEnablePin);
    Regroup(SwitchSetup(v), InputSetup(v, useEnablePin), EncoderSetup(v), SpiSetup(v),
            PhaseSetup(v), VrefSetup(v), LedSetup(v));
  }

  /** The encoder calls with the pin numbers of PIN_AS5047D_CS and PIN_AS5047D_PWR written out. */
  lemma EncoderSetupPins(v: Variant)
    ensures EncoderSetup(v)
              == [SetMode(16, Output), Write(16, Low)]
                 + (if v == NanoZeroStepper then [SetMode(11, Output), Write(11, High)] else [])
  {
  }

  /** The chip select is made an output before it is written, wherever the encoder calls sit in a trace. */
  lemma CsOutputFirst(ops: seq<Op>, pre: seq<Op>, tail: seq<Op>, post: seq<Op>)
    requires ops == pre + ([SetMode(16, Output), Write(16, Low)] + tail) + post
    requires Avoids(pre, 16)
    ensures OutputBeforeWrite(ops, 16, Low)
  {
    var g := [SetMode(16, Output), Write(16, Low)] + tail;
    assert g == [] + [SetMode(16, Output)] + ([Write(16, Low)] + tail);
    assert ([Write(16, Low)] + tail)[0] == Write(16, Low);
    OutputFirstIn(ops, pre, g, post, [], [Write(16, Low)] + tail, 16, Low);
  }

  lemma CsOrder(v: Variant, useEnablePin: bool)
    ensures OutputBeforeWrite(SetupTrace(v, useEnablePin), 16, Low)
  {
    EncoderSplit(v, useEnablePin);
    EncoderSetupPins(v);
    BeforeEncoderAvoids(v, useEnablePin, 16);
    CsOutputFirst(SetupTrace(v, useEnablePin), SwitchSetup(v) + InputSetup(v, useEnablePin),
                  if v == NanoZeroStepper then [SetMode(11, Output), Write(11, High)] else [],
                  SpiSetup(v) + PhaseSetup(v) + VrefSetup(v) + LedSetup(v));
  }

  lemma PowerOrder(useEnablePin: bool)
    ensures OutputBeforeWrite(SetupTrace(NanoZeroStepper, useEnablePin), 11, High)
  {
    var v := NanoZeroStepper;
    var cs := [SetMode(16, Output), Write(16, Low)];
    EncoderSplit(v, useEnablePin);
    EncoderSetupPins(v);
    BeforeEncoderAvoids(v, useEnablePin, 11);
    OutputFirstIn(SetupTrace(v, useEnablePin), SwitchSetup(v) + InputSetup(v, useEnablePin), EncoderSetup(v),
                  SpiSetup(v) + PhaseSetup(v) + VrefSetup(v) + LedSetup(v), cs, [Write(11, High)], 11, High);
  }

  /** MOSI and SCK are made outputs before they are written, wherever the SPI calls sit in a trace. */
  lemma SpiOutputFirst(ops: seq<Op>, pre: seq<Op>, post: seq<Op>, p: nat)
    requires ops == pre + [SetMode(23, Output), Write(23, Low), SetMode(24, Output), Write(24, Low), SetMode(22, Input)]
                    + post
    requires (p == 23 || p == 24) && Avoids(pre, p)
    ensures OutputBeforeWrite(ops, p, Low)
  {
    var g := [SetMode(23, Output), Write(23, Low), SetMode(24, Output), Write(24, Low), SetMode(22, Input)];
    if p == 23 {
      OutputFirstIn(ops, pre, g, post, [], g[1..], 23, Low);
    } else {
      OutputFirstIn(ops, pre, g, post, g[..2], g[3..], 24, Low);
    }
  }

  lemma MosiOrder(v: Variant, useEnablePin: bool)
    ensures OutputBeforeWrite(SetupTrace(v, useEnablePin), 23, Low)
  {
    SpiSplit(v, useEnablePin);
    SpiSetupPins(v);
    BeforeSpiAvoids(v, useEnablePin, 23);
    SpiOutputFirst(SetupTrace(v, useEnablePin), SwitchSetup(v) + InputSetup(v, useEnablePin) + EncoderSetup(v),
                   PhaseSetup(v) + VrefSetup(v) + LedSetup(v), 23);
  }

  lemma SckOrder(v: Variant, useEnablePin: bool)
    ensures OutputBeforeWrite(SetupTrace(v, useEnablePin), 24, Low)
  {
    SpiSplit(v, useEnablePin);
    SpiSetupPins(v);
    BeforeSpiAvoids(v, useEnablePin, 24);
    SpiOutputFirst(SetupTrace(v, useEnablePin), SwitchSetup(v) + InputSetup(v, useEnablePin) + EncoderSetup(v),
                   PhaseSetup(v) + VrefSetup(v) + LedSetup(v), 24);
  }

  lemma YellowOrder(useEnablePin: bool)
    ensures OutputBeforeWrite(SetupTrace(NanoZeroStepper, useEnablePin), 8, High)
  {
    var v := NanoZeroStepper;
    var pre := PreDriverSetup(v, useEnablePin) + PhaseSetup(v) + VrefSetup(v);
    SetupTraceParts(v, useEnablePin);
    BeforeLedAvoids(useEnablePin);
    OutputFirstIn(SetupTrace(v, useEnablePin), pre, LedSetup(v), [],
                  [SetMode(13, Output)], [Write(8, High)], 8, High);
  }

  /**
   * The encoder chip select and supply, MOSI, SCK and the yellow LED are
   * made outputs before boardSetupPins writes their level.
   */
  lemma SetupOutputBeforeWrite(v: Variant, useEnablePin: bool, role: Role)
    requires OutputFirstRole(role) && Defined(role, v)
    ensures OutputBeforeWrite(SetupTrace(v, useEnablePin), PinFor(role, v), WrittenLevel(role))
  {
    match role
    case EncoderCs =>
      assert PinFor(role, v) == 16 && WrittenLevel(role) == Low;
      CsOrder(v, useEnablePin);
    case EncoderPower =>
      assert v == NanoZeroStepper && PinFor(role, v) == 11 && WrittenLevel(role) == High;
      PowerOrder(useEnablePin);
    case Mosi =>
      assert PinFor(role, v) == 23 && WrittenLevel(role) == Low;
      MosiOrder(v, useEnablePin);
    case Sck =>
      assert PinFor(role, v) == 24 && WrittenLevel(role) == Low;
      SckOrder(v, useEnablePin);
    case YellowLed =>
      assert v == NanoZeroStepper && PinFor(role, v) == 8 && WrittenLevel(role) == High;
      YellowOrder(useEnablePin);
  }

  /**
   * On the Nano Zero Stepper the first digitalWrite(PIN_AS5047D_PWR, HIGH)
   * follows the switch and input calls, the chip select calls and the
   * supply's pinMode.
   */
  lemma PowerOffIndex(useEnablePin: bool)
    ensures var ops := SetupTrace(NanoZeroStepper, useEnablePin);
            var a := SwitchSetup(NanoZeroStepper) + InputSetup(NanoZeroStepper, useEnablePin)
                     + [SetMode(16, Output), Write(16, Low), SetMode(11, Output)];
            && FirstIndex(ops, Write(11, High)) == |a| < |ops|
            && ops[..|a|] == a
  {
    var v := NanoZeroStepper;
    var pre := SwitchSetup(v) + InputSetup(v, useEnablePin);
    var cs := [SetMode(16, Output), Write(16, Low), SetMode(11, Output)];
    var off := Write(11, High);
    var post := SpiSetup(v) + PhaseSetup(v) + VrefSetup(v) + LedSetup(v);
    EncoderSplit(v, useEnablePin);
    assert EncoderSetup(v) == cs + [off];
    Regroup3(pre, cs, [off], post);
    BeforeEncoderAvoids(v, useEnablePin, 11);
    AvoidsConcat(pre, cs, 11);
    assert off !in pre + cs by {
      assert off !in pre;
      assert off !in cs;
    }
    FirstIndexConcat(pre + cs, [off] + post, off);
  }

  /** From a LOW latch, the supply pin leaves those calls as an output at LOW. */
  lemma PowerOnBeforeOff(useEnablePin: bool, st: PinState)
    requires st.level == Low
    ensures Track(st, SwitchSetup(NanoZeroStepper) + InputSetup(NanoZeroStepper, useEnablePin)
                      + [SetMode(16, Output), Write(16, Low), SetMode(11, Output)], 11)
            == PinState(Output, Low)
  {
    var v := NanoZeroStepper;
    var cs := [SetMode(16, Output), Write(16, Low), SetMode(11, Output)];
    TrackConcat(st, SwitchSetup(v), InputSetup(v, useEnablePin), 11);
    TrackConcat(st, SwitchSetup(v) + InputSetup(v, useEnablePin), cs, 11);
    assert Track(st, SwitchSetup(v), 11) == st by {
      SwitchTrack(v, st, 11);
    }
    assert Track(st, InputSetup(v, useEnablePin), 11) == st by {
      InputTrack(v, useEnablePin, st, 11);
    }
    TrackSteps(st, cs, 11);
  }

  /**
   * Just before boardSetupPins writes the encoder supply HIGH (off), the
   * supply pin is already an output; from a LOW latch, as at reset, it is
   * then driving LOW, which powers the encoder on.
   */
  lemma EncoderPoweredBeforeOff(useEnablePin: bool, st: PinState)
    requires st.level == Low
    ensures var ops, p := SetupTrace(NanoZeroStepper, useEnablePin), PinFor(EncoderPower, NanoZeroStepper);
            var k := FirstIndex(ops, Write(p, High));
            k < |ops| && Track(st, ops[..k], p) == PinState(Output, Low)
  {
    PowerOffIndex(useEnablePin);
    PowerOnBeforeOff(useEnablePin, st);
  }
}
