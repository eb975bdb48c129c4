/**
 * The pin role table of board.h: every logical role of the stepper board
 * bound to an Arduino digital pin number, for each of the two hardware
 * variants (the Nano Zero Stepper board, and the Mechaduino selected by
 * MECHADUINO_HARDWARE). A role the variant does not have is absent
 * (`None`), as its #define is absent from the build.
 */
module BoardPins {
  import opened Wrappers

  datatype Variant = NanoZeroStepper | Mechaduino

  datatype Role =
    | StepInput | DirInput | ErrorPin
    | EncoderCs | EncoderPower
    | In1 | In2 | In3 | In4 | Vref12 | Vref34
    | Sw1 | Sw3 | Sw4
    | Mosi | Sck | Miso
    | RedLed | YellowLed

  /** The largest pin number any role uses, on either variant. */
  const MaxPin: nat := 24

  /** Roles that only the Nano Zero Stepper board has. */
  predicate NanoOnly(role: Role) {
    match role
    case EncoderPower | Sw1 | Sw3 | Sw4 | YellowLed => true
    case _ => false
  }

  /** The four A4954 phase inputs and the two current references. */
  predicate DriverRole(role: Role) {
    match role
    case In1 | In2 | In3 | In4 | Vref12 | Vref34 => true
    case _ => false
  }

  /** PIN_* of the given role under the given variant, if it is defined there. */
  function PinOf(role: Role, v: Variant): (r: Option<nat>)
    ensures r.None? <==> v == Mechaduino && NanoOnly(role)
    ensures r.Some? ==> r.value <= MaxPin
  {
    match role
    case StepInput => Some(0)
    case DirInput => Some(1)
    case ErrorPin => if v == Mechaduino then Some(19) else Some(10)
    case EncoderCs => Some(16)
    case EncoderPower => if v == Mechaduino then None else Some(11)
    case In3 => Some(5)
    case In4 => Some(6)
    case In2 => Some(7)
    case In1 => if v == Mechaduino then Some(8) else Some(18)
    case Vref34 => Some(4)
    case Vref12 => Some(9)
    case Sw1 => if v == Mechaduino then None else Some(19)
    case Sw3 => if v == Mechaduino then None else Some(14)
    case Sw4 => if v == Mechaduino then None else Some(15)
    case Mosi => Some(23)
    case Sck => Some(24)
    case Miso => Some(22)
    case RedLed => Some(13)
    case YellowLed => if v == Mechaduino then None else Some(8)
  }

  predicate Defined(role: Role, v: Variant) {
    PinOf(role, v).Some?
  }

  /** The pin of a role the variant defines. */
  function PinFor(role: Role, v: Variant): nat
    requires Defined(role, v)
  {
    PinOf(role, v).value
  }

  /** Within one variant no two defined roles share a pin. */
  lemma PinsDistinct(v: Variant, r1: Role, r2: Role)
    requires Defined(r1, v) && Defined(r2, v) && r1 != r2
    ensures PinFor(r1, v) != PinFor(r2, v)
  {
  }

  /** Only the ERROR pin and IN1 move between the variants; every role both have keeps its pin. */
  lemma VariantDifferences(role: Role)
    ensures PinOf(ErrorPin, NanoZeroStepper) == Some(10) && PinOf(ErrorPin, Mechaduino) == Some(19)
    ensures PinOf(In1, NanoZeroStepper) == Some(18) && PinOf(In1, Mechaduino) == Some(8)
    ensures Defined(role, Mechaduino) && role != ErrorPin && role != In1 ==>
              PinOf(role, NanoZeroStepper) == PinOf(role, Mechaduino)
  {
  }

  /** Pins are reused across variants: 19 is SW1 or ERROR, 8 is the yellow LED or IN1. */
  lemma PinsReusedAcrossVariants()
    ensures PinFor(Sw1, NanoZeroStepper) == PinFor(ErrorPin, Mechaduino) == 19
    ensures PinFor(YellowLed, NanoZeroStepper) == PinFor(In1, Mechaduino) == 8
  {
  }

  /** The pins the variant assigns to some role. */
  function RolePins(v: Variant): set<nat> {
    set role: Role | Defined(role, v) :: PinFor(role, v)
  }

  /** The table read backwards: the role the variant gives pin p, if any. */
  function RoleOf(p: nat, v: Variant): (r: Option<Role>)
    ensures r.Some? ==> Defined(r.value, v) && PinFor(r.value, v) == p
  {
    var mech := v == Mechaduino;
    match p
    case 0 => Some(StepInput)
    case 1 => Some(DirInput)
    case 4 => Some(Vref34)
    case 5 => Some(In3)
    case 6 => Some(In4)
    case 7 => Some(In2)
    case 8 => if mech then Some(In1) else Some(YellowLed)
    case 9 => Some(Vref12)
    case 10 => if mech then None else Some(ErrorPin)
    case 11 => if mech then None else Some(EncoderPower)
    case 13 => Some(RedLed)
    case 14 => if mech then None else Some(Sw3)
    case 15 => if mech then None else Some(Sw4)
    case 16 => Some(EncoderCs)
    case 18 => if mech then None else Some(In1)
    case 19 => if mech then Some(ErrorPin) else Some(Sw1)
    case 22 => Some(Miso)
    case 23 => Some(Mosi)
    case 24 => Some(Sck)
    case _ => None
  }

  /** Reading the table backwards undoes reading it forwards: a pin has one role. */
  lemma RoleOfPinFor(role: Role, v: Variant)
    requires Defined(role, v)
    ensures RoleOf(PinFor(role, v), v) == Some(role)
  {
  }

  /** The backwards reading misses no pin: it finds a role exactly for the pins the table uses. */
  lemma RoleOfComplete(p: nat, v: Variant)
    ensures RoleOf(p, v).None? <==> p !in RolePins(v)
  {
    match RoleOf(p, v)
    case Some(role) =>
      assert PinFor(role, v) in RolePins(v);
    case None =>
      if p in RolePins(v) {
        var role :| Defined(role, v) && PinFor(role, v) == p;
        RoleOfPinFor(role, v);
        assert false;
      }
  }
}
