/**
 * boardSetupPins and the LED helpers of board.h. SetupTrace lists the
 * pinMode/digitalWrite calls of boardSetupPins in the order the routine
 * makes them, for a variant and the USE_ENABLE_PIN build flag, grouped as
 * the routine's own comments group them.
 */
module BoardSetup {
  import opened Wrappers
  import opened BoardPins
  import opened PinTrace

  /** The switches, as inputs with pull-ups, where PIN_SW1 is defined. */
  function SwitchSetup(v: Variant): (ops: seq<Op>)
    ensures Fits(ops, MaxPin + 1)
    ensures ops != [] <==> v == NanoZeroStepper
    ensures forall i :: 0 <= i < |ops| ==> ops[i].SetMode? && ops[i].mode == InputPullup
  {
    if Defined(Sw1, v) then
      [SetMode(PinFor(Sw1, v), InputPullup),
       SetMode(PinFor(Sw3, v), InputPullup),
       SetMode(PinFor(Sw4, v), InputPullup)]
    else []
  }

  /** STEP and DIR pulled down; the error pin an input (enable) or an output. */
  function InputSetup(v: Variant, useEnablePin: bool): (ops: seq<Op>)
    ensures Fits(ops, MaxPin + 1)
    ensures forall i :: 0 <= i < |ops| ==> ops[i].SetMode?
  {
    [SetMode(PinFor(StepInput, v), InputPulldown),
     SetMode(PinFor(DirInput, v), InputPulldown),
     SetMode(PinFor(ErrorPin, v), if useEnablePin then InputPulldown else Output)]
  }

  /** Encoder chip select made an output and pulled LOW; the encoder supply, where it exists, held off (HIGH). */
  function EncoderSetup(v: Variant): (ops: seq<Op>)
    ensures Fits(ops, MaxPin + 1)
  {
    [SetMode(PinFor(EncoderCs, v), Output),
     Write(PinFor(EncoderCs, v), Low)]
    + (if Defined(EncoderPower, v) then
         [SetMode(PinFor(EncoderPower, v), Output),
          Write(PinFor(EncoderPower, v), High)]
       else [])
  }

  /** MOSI and SCK outputs driven LOW, MISO an input. */
  function SpiSetup(v: Variant): (ops: seq<Op>)
    ensures Fits(ops, MaxPin + 1)
  {
    [SetMode(PinFor(Mosi, v), Output),
     Write(PinFor(Mosi, v), Low),
     SetMode(PinFor(Sck, v), Output),
     Write(PinFor(Sck, v), Low),
     SetMode(PinFor(Miso, v), Input)]
  }

  /** The SPI calls with the pin numbers of PIN_MOSI, PIN_SCK and PIN_MISO written out. */
  lemma SpiSetupPins(v: Variant)
    ensures SpiSetup(v)
              == [SetMode(23, Output), Write(23, Low), SetMode(24, Output), Write(24, Low), SetMode(22, Input)]
  {
  }

  function LowThenOutput(p: nat): (ops: seq<Op>)
    requires p <= MaxPin
    ensures Fits(ops, MaxPin + 1)
    ensures forall i :: 0 <= i < |ops| ==> ops[i].pin == p
  {
    [Write(p, Low), SetMode(p, Output)]
  }

  /** The A4954 phase inputs IN3, IN4, IN2, IN1: each written LOW, then made an output. */
  function PhaseSetup(v: Variant): (ops: seq<Op>)
    ensures Fits(ops, MaxPin + 1)
  {
    var a, b, c, d := LowThenOutput(PinFor(In3, v)), LowThenOutput(PinFor(In4, v)),
                      LowThenOutput(PinFor(In2, v)), LowThenOutput(PinFor(In1, v));
    FitsConcat(a, b, MaxPin + 1);
    FitsConcat(a + b, c, MaxPin + 1);
    FitsConcat(a + b + c, d, MaxPin + 1);
    a + b + c + d
  }

  /** The A4954 current references: both written LOW, then both made outputs. */
  function VrefSetup(v: Variant): (ops: seq<Op>)
    ensures Fits(ops, MaxPin + 1)
  {
    [Write(PinFor(Vref12, v), Low),
     Write(PinFor(Vref34, v), Low),
     SetMode(PinFor(Vref34, v), Output),
     SetMode(PinFor(Vref12, v), Output)]
  }

  /** The red LED made an output; the yellow LED, where it exists, made an output and switched off (HIGH). */
  function LedSetup(v: Variant): (ops: seq<Op>)
    ensures Fits(ops, MaxPin + 1)
  {
    [SetMode(PinFor(RedLed, v), Output)]
    + (if Defined(YellowLed, v) then
         [SetMode(PinFor(YellowLed, v), Output),
          Write(PinFor(YellowLed, v), High)]
       else [])
  }

  /** Everything boardSetupPins does before it touches the motor driver. */
  function PreDriverSetup(v: Variant, useEnablePin: bool): (ops: seq<Op>)
    ensures Fits(ops, MaxPin + 1)
  {
    var a, b, c, d := SwitchSetup(v), InputSetup(v, useEnablePin), EncoderSetup(v), SpiSetup(v);
    FitsConcat(a, b, MaxPin + 1);
    FitsConcat(a + b, c, MaxPin + 1);
    FitsConcat(a + b + c, d, MaxPin + 1);
    a + b + c + d
  }

  /** The calls boardSetupPins makes, in order. */
  function SetupTrace(v: Variant, useEnablePin: bool): (ops: seq<Op>)
    ensures Fits(ops, MaxPin + 1)
  {
    var a, b, c, d := PreDriverSetup(v, useEnablePin), PhaseSetup(v), VrefSetup(v), LedSetup(v);
    FitsConcat(a, b, MaxPin + 1);
    FitsConcat(a + b, c, MaxPin + 1);
    FitsConcat(a + b + c, d, MaxPin + 1);
    a + b + c + d
  }

  /** The setup trace is the pre-driver calls, then the phase inputs, the references and the LEDs. */
  lemma SetupTraceParts(v: Variant, useEnablePin: bool)
    ensures SetupTrace(v, useEnablePin)
              == PreDriverSetup(v, useEnablePin) + PhaseSetup(v) + VrefSetup(v) + LedSetup(v)
  {
  }

  /** RED_LED(on): one digitalWrite of `on` to the red LED. */
  function RedLedOps(v: Variant, on: bool): (ops: seq<Op>)
    ensures |ops| == 1 && ops[0].Write? && ops[0].pin == PinFor(RedLed, v)
    ensures ops[0].level == High <==> on
  {
    [Write(PinFor(RedLed, v), LevelOf(on))]
  }

  /** YELLOW_LED(on): one digitalWrite of `!on` to the yellow LED, or nothing without one. */
  function YellowLedOps(v: Variant, on: bool): (ops: seq<Op>)
    ensures |ops| == if Defined(YellowLed, v) then 1 else 0
    ensures ops != [] ==> ops[0].Write? && ops[0].pin == PinFor(YellowLed, v) && (ops[0].level == Low <==> on)
  {
    if Defined(YellowLed, v) then [Write(PinFor(YellowLed, v), LevelOf(!on))] else []
  }

  /** The phase inputs and the current references of the A4954 driver. */
  predicate PhaseRole(role: Role) {
    match role
    case In1 | In2 | In3 | In4 => true
    case _ => false
  }

  predicate VrefRole(role: Role) {
    role == Vref12 || role == Vref34
  }

  /**
   * The group of boardSetupPins that configures a role, numbered in call
   * order: switches, STEP/DIR/ERROR, encoder, SPI, phase inputs, current
   * references, LEDs.
   */
  function Group(role: Role): nat {
    match role
    case Sw1 | Sw3 | Sw4 => 0
    case StepInput | DirInput | ErrorPin => 1
    case EncoderCs | EncoderPower => 2
    case Mosi | Sck | Miso => 3
    case In1 | In2 | In3 | In4 => 4
    case Vref12 | Vref34 => 5
    case RedLed | YellowLed => 6
  }

  /** The number of groups: every role is configured by one of them. */
  const Groups: nat := 7

  /** The roles whose level boardSetupPins writes. */
  predicate WritesLevel(role: Role) {
    match role
    case EncoderCs | EncoderPower | Mosi | Sck | In1 | In2 | In3 | In4 | Vref12 | Vref34 | YellowLed => true
    case _ => false
  }

  /**
   * The state boardSetupPins leaves the pin of a role in, given the state
   * `st` it had before: the mode each role is given, and the level where the
   * routine writes one. The red LED, MISO, the inputs and a pulled-up or
   * pulled-down pin keep their previous level.
   */
  function SetupState(useEnablePin: bool, role: Role, st: PinState): (r: PinState)
    ensures DriverRole(role) ==> r == PinState(Output, Low)
    ensures WritesLevel(role) ==> r.mode == Output
    ensures !WritesLevel(role) ==> r.level == st.level
  {
    match role
    case Sw1 | Sw3 | Sw4 => st.(mode := InputPullup)
    case StepInput | DirInput => st.(mode := InputPulldown)
    case ErrorPin => st.(mode := if useEnablePin then InputPulldown else Output)
    case EncoderCs | Mosi | Sck => PinState(Output, Low)
    case EncoderPower | YellowLed => PinState(Output, High)
    case Miso => st.(mode := Input)
    case In1 | In2 | In3 | In4 | Vref12 | Vref34 => PinState(Output, Low)
    case RedLed => st.(mode := Output)
  }
}
