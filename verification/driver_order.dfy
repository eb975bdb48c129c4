/**
 * The order in which boardSetupPins drives the motor driver pins: every
 * phase input and current reference is written LOW before it is first made
 * an output, and never written HIGH, so the A4954 is never driven on by the
 * setup routine.
 */
module DriverOrder {
  import opened Wrappers
  import opened BoardPins
  import opened PinTrace
  import opened BoardSetup

  /** The calls of PhaseSetup before the LOW write of a phase input. */
  function PhaseBefore(v: Variant, role: Role): seq<Op>
    requires PhaseRole(role)
  {
    match role
    case In3 => []
    case In4 => LowThenOutput(PinFor(In3, v))
    case In2 => LowThenOutput(PinFor(In3, v)) + LowThenOutput(PinFor(In4, v))
    case In1 => LowThenOutput(PinFor(In3, v)) + LowThenOutput(PinFor(In4, v)) + LowThenOutput(PinFor(In2, v))
  }

  /** The calls of PhaseSetup after the LOW write of a phase input. */
  function PhaseAfter(v: Variant, role: Role): seq<Op>
    requires PhaseRole(role)
  {
    [SetMode(PinFor(role, v), Output)] +
    match role
    case In3 => LowThenOutput(PinFor(In4, v)) + LowThenOutput(PinFor(In2, v)) + LowThenOutput(PinFor(In1, v))
    case In4 => LowThenOutput(PinFor(In2, v)) + LowThenOutput(PinFor(In1, v))
    case In2 => LowThenOutput(PinFor(In1, v))
    case In1 => []
  }

  lemma PhaseSplit(v: Variant, role: Role)
    requires PhaseRole(role)
    ensures PhaseSetup(v) == PhaseBefore(v, role) + [Write(PinFor(role, v), Low)] + PhaseAfter(v, role)
  {
  }

  /** The calls of VrefSetup before and after the LOW write of a current reference. */
  function VrefBefore(v: Variant, role: Role): seq<Op>
    requires VrefRole(role)
  {
    if role == Vref12 then [] else [Write(PinFor(Vref12, v), Low)]
  }

  function VrefAfter(v: Variant, role: Role): seq<Op>
    requires VrefRole(role)
  {
    (if role == Vref12 then [Write(PinFor(Vref34, v), Low)] else [])
    + [SetMode(PinFor(Vref34, v), Output), SetMode(PinFor(Vref12, v), Output)]
  }

  lemma VrefSplit(v: Variant, role: Role)
    requires VrefRole(role)
    ensures VrefSetup(v) == VrefBefore(v, role) + [Write(PinFor(role, v), Low)] + VrefAfter(v, role)
  {
  }

  /**
   * The split of the setup trace at the LOW write of a driver pin: the
   * calls before it, and the calls after it.
   */
  function BeforeLow(v: Variant, useEnablePin: bool, role: Role): seq<Op>
    requires DriverRole(role)
  {
    if PhaseRole(role) then PreDriverSetup(v, useEnablePin) + PhaseBefore(v, role)
    else PreDriverSetup(v, useEnablePin) + PhaseSetup(v) + VrefBefore(v, role)
  }

  function AfterLow(v: Variant, role: Role): seq<Op>
    requires DriverRole(role)
  {
    if PhaseRole(role) then PhaseAfter(v, role) + VrefSetup(v) + LedSetup(v)
    else VrefAfter(v, role) + LedSetup(v)
  }

  lemma DriverSplit(v: Variant, useEnablePin: bool, role: Role)
    requires DriverRole(role)
    ensures SetupTrace(v, useEnablePin)
              == BeforeLow(v, useEnablePin, role) + [Write(PinFor(role, v), Low)] + AfterLow(v, role)
  {
    SetupTraceParts(v, useEnablePin);
    var pre, phase, vref, leds := PreDriverSetup(v, useEnablePin), PhaseSetup(v), VrefSetup(v), LedSetup(v);
    var w := Write(PinFor(role, v), Low);
    if PhaseRole(role) {
      PhaseSplit(v, role);
      RegroupMiddle(pre, PhaseBefore(v, role), w, PhaseAfter(v, role), vref, leds);
    } else {
      VrefSplit(v, role);
      RegroupMiddle(pre, VrefBefore(v, role), w, VrefAfter(v, role), phase, leds);
    }
  }

  /** The pins of the motor driver, on either variant: 4 to 9 and 18. */
  predicate DriverPinNumber(p: nat) {
    4 <= p <= 9 || p == 18
  }

  lemma DriverPinNumbers(v: Variant, role: Role)
    requires DriverRole(role)
    ensures DriverPinNumber(PinFor(role, v))
  {
  }

  /** The stages before the motor driver name no driver pin. */
  lemma SwitchAvoidsDriver(v: Variant, p: nat)
    requires DriverPinNumber(p)
    ensures Avoids(SwitchSetup(v), p)
  {
  }

  lemma InputAvoidsDriver(v: Variant, useEnablePin: bool, p: nat)
    requires DriverPinNumber(p)
    ensures Avoids(InputSetup(v, useEnablePin), p)
  {
  }

  lemma EncoderAvoidsDriver(v: Variant, p: nat)
    requires DriverPinNumber(p)
    ensures Avoids(EncoderSetup(v), p)
  {
  }

  lemma SpiAvoidsDriver(v: Variant, p: nat)
    requires DriverPinNumber(p)
    ensures Avoids(SpiSetup(v), p)
  {
  }

  lemma PreDriverAvoidsDriver(v: Variant, useEnablePin: bool, p: nat)
    requires DriverPinNumber(p)
    ensures Avoids(PreDriverSetup(v, useEnablePin), p)
  {
    var a, b, c, d := SwitchSetup(v), InputSetup(v, useEnablePin), EncoderSetup(v), SpiSetup(v);
    SwitchAvoidsDriver(v, p);
    InputAvoidsDriver(v, useEnablePin, p);
    EncoderAvoidsDriver(v, p);
    SpiAvoidsDriver(v, p);
    AvoidsConcat(a, b, p);
    AvoidsConcat(a + b, c, p);
    AvoidsConcat(a + b + c, d, p);
  }

  /** No call before the LOW write of a driver pin names that pin. */
  lemma BeforeLowAvoids(v: Variant, useEnablePin: bool, role: Role)
    requires DriverRole(role)
    ensures Avoids(BeforeLow(v, useEnablePin, role), PinFor(role, v))
  {
    if PhaseRole(role) {
      PhaseBeforeLowAvoids(v, useEnablePin, role);
    } else {
      VrefBeforeLowAvoids(v, useEnablePin, role);
    }
  }

  lemma PhaseBeforeLowAvoids(v: Variant, useEnablePin: bool, role: Role)
    requires PhaseRole(role)
    ensures Avoids(PreDriverSetup(v, useEnablePin) + PhaseBefore(v, role), PinFor(role, v))
  {
    var p := PinFor(role, v);
    DriverPinNumbers(v, role);
    PreDriverAvoidsDriver(v, useEnablePin, p);
    PhaseBeforeAvoids(v, role);
    AvoidsConcat(PreDriverSetup(v, useEnablePin), PhaseBefore(v, role), p);
  }

  lemma VrefBeforeLowAvoids(v: Variant, useEnablePin: bool, role: Role)
    requires VrefRole(role)
    ensures Avoids(PreDriverSetup(v, useEnablePin) + PhaseSetup(v) + VrefBefore(v, role), PinFor(role, v))
  {
    var p := PinFor(role, v);
    var pre := PreDriverSetup(v, useEnablePin);
    DriverPinNumbers(v, role);
    PreDriverAvoidsDriver(v, useEnablePin, p);
    VrefPinNumbers(v, role);
    PhaseAvoidsVref(v, p);
    AvoidsConcat(pre, PhaseSetup(v), p);
    VrefBeforeAvoids(v, role);
    AvoidsConcat(pre + PhaseSetup(v), VrefBefore(v, role), p);
  }

  lemma PhaseBeforeAvoids(v: Variant, role: Role)
    requires PhaseRole(role)
    ensures Avoids(PhaseBefore(v, role), PinFor(role, v))
  {
    var p := PinFor(role, v);
    var a, b, c := LowThenOutput(PinFor(In3, v)), LowThenOutput(PinFor(In4, v)), LowThenOutput(PinFor(In2, v));
    match role
    case In3 =>
    case In4 =>
      LowThenOutputAvoids(PinFor(In3, v), p);
    case In2 =>
      LowThenOutputAvoids(PinFor(In3, v), p);
      LowThenOutputAvoids(PinFor(In4, v), p);
      AvoidsConcat(a, b, p);
    case In1 =>
      LowThenOutputAvoids(PinFor(In3, v), p);
      LowThenOutputAvoids(PinFor(In4, v), p);
      LowThenOutputAvoids(PinFor(In2, v), p);
      AvoidsConcat(a, b, p);
      AvoidsConcat(a + b, c, p);
  }

  lemma LowThenOutputAvoids(q: nat, p: nat)
    requires q <= MaxPin && q != p
    ensures Avoids(LowThenOutput(q), p)
  {
  }

  /** The current references are pins 4 and 9. */
  lemma VrefPinNumbers(v: Variant, role: Role)
    requires VrefRole(role)
    ensures PinFor(role, v) == 4 || PinFor(role, v) == 9
  {
  }

  lemma PhaseAvoidsVref(v: Variant, p: nat)
    requires p == 4 || p == 9
    ensures Avoids(PhaseSetup(v), p)
  {
    var a, b, c, d := LowThenOutput(PinFor(In3, v)), LowThenOutput(PinFor(In4, v)),
                      LowThenOutput(PinFor(In2, v)), LowThenOutput(PinFor(In1, v));
    LowThenOutputAvoids(PinFor(In3, v), p);
    LowThenOutputAvoids(PinFor(In4, v), p);
    LowThenOutputAvoids(PinFor(In2, v), p);
    LowThenOutputAvoids(PinFor(In1, v), p);
    AvoidsConcat(a, b, p);
    AvoidsConcat(a + b, c, p);
    AvoidsConcat(a + b + c, d, p);
  }

  lemma VrefBeforeAvoids(v: Variant, role: Role)
    requires VrefRole(role)
    ensures Avoids(VrefBefore(v, role), PinFor(role, v))
  {
  }

  lemma LedSetupNoHighDriver(v: Variant, role: Role)
    requires DriverRole(role)
    ensures Write(PinFor(role, v), High) !in LedSetup(v)
  {
    if Defined(YellowLed, v) {
      PinsDistinct(v, YellowLed, role);
    }
  }

  lemma PhaseAfterFacts(v: Variant, role: Role)
    requires PhaseRole(role)
    ensures AfterLow(v, role) == PhaseAfter(v, role) + VrefSetup(v) + LedSetup(v)
    ensures PhaseAfter(v, role)[0] == SetMode(PinFor(role, v), Output)
    ensures Write(PinFor(role, v), High) !in PhaseAfter(v, role) + VrefSetup(v)
  {
  }

  lemma VrefAfterFacts(v: Variant, role: Role)
    requires VrefRole(role)
    ensures AfterLow(v, role) == VrefAfter(v, role) + LedSetup(v)
    ensures SetMode(PinFor(role, v), Output) in VrefAfter(v, role)
    ensures Write(PinFor(role, v), High) !in VrefAfter(v, role)
  {
  }

  /** Membership in a concatenation, on sequences alone. */
  lemma InConcat(a: seq<Op>, b: seq<Op>, x: Op)
    ensures x in a + b <==> x in a || x in b
  {
  }

  /** The calls after the LOW write of a driver pin make it an output and never write it HIGH. */
  lemma AfterLowFacts(v: Variant, role: Role)
    requires DriverRole(role)
    ensures SetMode(PinFor(role, v), Output) in AfterLow(v, role)
    ensures Write(PinFor(role, v), High) !in AfterLow(v, role)
  {
    var p := PinFor(role, v);
    LedSetupNoHighDriver(v, role);
    if PhaseRole(role) {
      PhaseAfterFacts(v, role);
      var mid := PhaseAfter(v, role) + VrefSetup(v);
      InConcat(mid, LedSetup(v), Write(p, High));
      InConcat(mid, LedSetup(v), SetMode(p, Output));
      assert mid[0] == SetMode(p, Output);
    } else {
      VrefAfterFacts(v, role);
      InConcat(VrefAfter(v, role), LedSetup(v), Write(p, High));
      InConcat(VrefAfter(v, role), LedSetup(v), SetMode(p, Output));
    }
  }

  /** The setup trace splits at the LOW write of each driver pin as LowFirstSplit describes. */
  lemma DriverLowFirst(v: Variant, useEnablePin: bool, role: Role)
    requires DriverRole(role)
    ensures LowFirstSplit(SetupTrace(v, useEnablePin), BeforeLow(v, useEnablePin, role), AfterLow(v, role), PinFor(role, v))
  {
    DriverSplit(v, useEnablePin, role);
    BeforeLowAvoids(v, useEnablePin, role);
    AfterLowFacts(v, role);
  }

  /**
   * Each driver pin (IN1..IN4, VREF_1_2, VREF_3_4) is written LOW before
   * boardSetupPins first makes it an output, and is never written HIGH.
   */
  lemma SetupDriverPinsLowFirst(v: Variant, useEnablePin: bool, role: Role)
    requires DriverRole(role)
    ensures var ops, p := SetupTrace(v, useEnablePin), PinFor(role, v);
            && FirstIndex(ops, Write(p, Low)) < FirstIndex(ops, SetMode(p, Output)) < |ops|
            && Write(p, High) !in ops
  {
    DriverLowFirst(v, useEnablePin, role);
    LowBeforeOutput(SetupTrace(v, useEnablePin), BeforeLow(v, useEnablePin, role), AfterLow(v, role), PinFor(role, v));
  }

  /**
   * No driver pin drives HIGH at any point during boardSetupPins, provided
   * it did not before (it does not out of reset, when every pin is an input).
   */
  lemma SetupNeverDrivesDriverHigh(v: Variant, useEnablePin: bool, s: seq<PinState>, role: Role)
    requires DriverRole(role) && |s| > MaxPin
    requires !DrivesHigh(s[PinFor(role, v)])
    ensures NeverHighDuring(s, SetupTrace(v, useEnablePin), PinFor(role, v))
  {
    var ops := SetupTrace(v, useEnablePin);
    DriverLowFirst(v, useEnablePin, role);
    FitsWider(ops, MaxPin + 1, |s|);
    NeverDrivesHigh(s, ops, BeforeLow(v, useEnablePin, role), AfterLow(v, role), PinFor(role, v));
  }
}
