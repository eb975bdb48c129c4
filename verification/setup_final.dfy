/**
 * The pin states boardSetupPins leaves behind, and what the LED macros do.
 */
module SetupFinal {
  import opened Wrappers
  import opened BoardPins
  import opened PinTrace
  import opened BoardSetup
  /**
   * The state pin p reaches from `st` through the calls boardSetupPins makes
   * in groups lo up to hi: SetupState for the role the pin has, if one of
   * those groups configures it; no change otherwise.
   */
  function Effect(useEnablePin: bool, v: Variant, p: nat, st: PinState, lo: nat, hi: nat): PinState {
    match RoleOf(p, v)
    case Some(role) => if lo <= Group(role) < hi then SetupState(useEnablePin, role, st) else st
    case None => st
  }

  /*
   * What each group of calls does to one pin, twice over: XTrack follows
   * the calls of the group, XEffect reads the role table through Effect,
   * and both arrive at the same XPinState.
   */

  /** The switches become inputs with pull-ups. */
  function SwitchPinState(v: Variant, p: nat, st: PinState): PinState {
    if Defined(Sw1, v) && (p == PinFor(Sw1, v) || p == PinFor(Sw3, v) || p == PinFor(Sw4, v))
    then st.(mode := InputPullup)
    else st
  }

  lemma SwitchTrack(v: Variant, st: PinState, p: nat)
    ensures Track(st, SwitchSetup(v), p) == SwitchPinState(v, p, st)
  {
    if Defined(Sw1, v) {
      TrackSteps(st, SwitchSetup(v), p);
    }
  }

  lemma SwitchEffect(v: Variant, useEnablePin: bool, st: PinState, p: nat)
    ensures Effect(useEnablePin, v, p, st, 0, 1) == SwitchPinState(v, p, st)
  {
  }

  /** STEP and DIR become pulled-down inputs; ERROR follows USE_ENABLE_PIN. */
  function InputPinState(v: Variant, useEnablePin: bool, p: nat, st: PinState): PinState {
    if p == PinFor(StepInput, v) || p == PinFor(DirInput, v) then st.(mode := InputPulldown)
    else if p == PinFor(ErrorPin, v) then st.(mode := if useEnablePin then InputPulldown else Output)
    else st
  }

  lemma InputTrack(v: Variant, useEnablePin: bool, st: PinState, p: nat)
    ensures Track(st, InputSetup(v, useEnablePin), p) == InputPinState(v, useEnablePin, p, st)
  {
    TrackSteps(st, InputSetup(v, useEnablePin), p);
  }

  lemma InputEffect(v: Variant, useEnablePin: bool, st: PinState, p: nat)
    ensures Effect(useEnablePin, v, p, st, 1, 2) == InputPinState(v, useEnablePin, p, st)
  {
  }

  /** The encoder chip select ends LOW, the encoder supply HIGH, both outputs. */
  function EncoderPinState(v: Variant, p: nat, st: PinState): PinState {
    if p == PinFor(EncoderCs, v) then PinState(Output, Low)
    else if Defined(EncoderPower, v) && p == PinFor(EncoderPower, v) then PinState(Output, High)
    else st
  }

  lemma EncoderTrack(v: Variant, st: PinState, p: nat)
    ensures Track(st, EncoderSetup(v), p) == EncoderPinState(v, p, st)
  {
    TrackSteps(st, EncoderSetup(v), p);
  }

  lemma EncoderEffect(v: Variant, useEnablePin: bool, st: PinState, p: nat)
    ensures Effect(useEnablePin, v, p, st, 2, 3) == EncoderPinState(v, p, st)
  {
  }

  /** MOSI and SCK end as LOW outputs, MISO as an input. */
  function SpiPinState(v: Variant, p: nat, st: PinState): PinState {
    if p == PinFor(Mosi, v) || p == PinFor(Sck, v) then PinState(Output, Low)
    else if p == PinFor(Miso, v) then st.(mode := Input)
    else st
  }

  lemma SpiTrack(v: Variant, st: PinState, p: nat)
    ensures Track(st, SpiSetup(v), p) == SpiPinState(v, p, st)
  {
    SpiSetupPins(v);
    TrackSteps(st, SpiSetup(v), p);
  }

  lemma SpiEffect(v: Variant, useEnablePin: bool, st: PinState, p: nat)
    ensures Effect(useEnablePin, v, p, st, 3, 4) == SpiPinState(v, p, st)
  {
  }

  lemma LowThenOutputTrack(q: nat, st: PinState, p: nat)
    requires q <= MaxPin
    ensures Track(st, LowThenOutput(q), p) == if q == p then PinState(Output, Low) else st
  {
    TrackSteps(st, LowThenOutput(q), p);
  }

  /** The phase inputs end as LOW outputs. */
  function PhasePinState(v: Variant, p: nat, st: PinState): PinState {
    if p == PinFor(In3, v) || p == PinFor(In4, v) || p == PinFor(In2, v) || p == PinFor(In1, v)
    then PinState(Output, Low)
    else st
  }

  lemma PhaseTrack(v: Variant, st: PinState, p: nat)
    ensures Track(st, PhaseSetup(v), p) == PhasePinState(v, p, st)
  {
    var a, b, c, d := LowThenOutput(PinFor(In3, v)), LowThenOutput(PinFor(In4, v)),
                      LowThenOutput(PinFor(In2, v)), LowThenOutput(PinFor(In1, v));
    TrackConcat(st, a + b + c, d, p);
    TrackConcat(st, a + b, c, p);
    TrackConcat(st, a, b, p);
    var s1 := Track(st, a, p);
    var s2 := Track(s1, b, p);
    var s3 := Track(s2, c, p);
    LowThenOutputTrack(PinFor(In3, v), st, p);
    LowThenOutputTrack(PinFor(In4, v), s1, p);
    LowThenOutputTrack(PinFor(In2, v), s2, p);
    LowThenOutputTrack(PinFor(In1, v), s3, p);
  }

  lemma PhaseEffect(v: Variant, useEnablePin: bool, st: PinState, p: nat)
    ensures Effect(useEnablePin, v, p, st, 4, 5) == PhasePinState(v, p, st)
  {
  }

  /** The current references end as LOW outputs. */
  function VrefPinState(v: Variant, p: nat, st: PinState): PinState {
    if p == PinFor(Vref12, v) || p == PinFor(Vref34, v) then PinState(Output, Low) else st
  }

  lemma VrefTrack(v: Variant, st: PinState, p: nat)
    ensures Track(st, VrefSetup(v), p) == VrefPinState(v, p, st)
  {
    TrackSteps(st, VrefSetup(v), p);
  }

  lemma VrefEffect(v: Variant, useEnablePin: bool, st: PinState, p: nat)
    ensures Effect(useEnablePin, v, p, st, 5, 6) == VrefPinState(v, p, st)
  {
  }

  /** The red LED becomes an output; the yellow LED an output at HIGH, which is off. */
  function LedPinState(v: Variant, p: nat, st: PinState): PinState {
    if p == PinFor(RedLed, v) then st.(mode := Output)
    else if Defined(YellowLed, v) && p == PinFor(YellowLed, v) then PinState(Output, High)
    else st
  }

  lemma LedTrack(v: Variant, st: PinState, p: nat)
    ensures Track(st, LedSetup(v), p) == LedPinState(v, p, st)
  {
    TrackSteps(st, LedSetup(v), p);
  }

  lemma LedEffect(v: Variant, useEnablePin: bool, st: PinState, p: nat)
    ensures Effect(useEnablePin, v, p, st, 6, 7) == LedPinState(v, p, st)
  {
  }

  /** Consecutive runs of groups compose. */
  lemma EffectCompose(useEnablePin: bool, v: Variant, p: nat, st: PinState, lo: nat, mid: nat, hi: nat)
    requires lo <= mid <= hi
    ensures Effect(useEnablePin, v, p, Effect(useEnablePin, v, p, st, lo, mid), mid, hi)
              == Effect(useEnablePin, v, p, st, lo, hi)
  {
  }

  lemma PreDriverTrack(v: Variant, useEnablePin: bool, st: PinState, p: nat)
    ensures Track(st, PreDriverSetup(v, useEnablePin), p) == Effect(useEnablePin, v, p, st, 0, 4)
  {
    var a, b, c, d := SwitchSetup(v), InputSetup(v, useEnablePin), EncoderSetup(v), SpiSetup(v);
    TrackConcat(st, a + b + c, d, p);
    TrackConcat(st, a + b, c, p);
    TrackConcat(st, a, b, p);
    var f := useEnablePin;
    var s1 := Track(st, a, p);
    var s2 := Track(s1, b, p);
    var s3 := Track(s2, c, p);
    SwitchTrack(v, st, p);
    SwitchEffect(v, f, st, p);
    InputTrack(v, f, s1, p);
    InputEffect(v, f, s1, p);
    EncoderTrack(v, s2, p);
    EncoderEffect(v, f, s2, p);
    SpiTrack(v, s3, p);
    SpiEffect(v, f, s3, p);
    EffectCompose(f, v, p, st, 0, 1, 2);
    EffectCompose(f, v, p, st, 0, 2, 3);
    EffectCompose(f, v, p, st, 0, 3, 4);
  }

  /**
   * boardSetupPins takes every pin with a role to SetupState for that role,
   * and leaves every other pin as it was.
   */
  lemma SetupTrack(v: Variant, useEnablePin: bool, st: PinState, p: nat)
    ensures Track(st, SetupTrace(v, useEnablePin), p) == Effect(useEnablePin, v, p, st, 0, Groups)
  {
    var pre, phase, vref, leds := PreDriverSetup(v, useEnablePin), PhaseSetup(v), VrefSetup(v), LedSetup(v);
    SetupTraceParts(v, useEnablePin);
    TrackConcat(st, pre + phase + vref, leds, p);
    TrackConcat(st, pre + phase, vref, p);
    TrackConcat(st, pre, phase, p);
    var f := useEnablePin;
    var s1 := Track(st, pre, p);
    var s2 := Track(s1, phase, p);
    var s3 := Track(s2, vref, p);
    PreDriverTrack(v, f, st, p);
    PhaseTrack(v, s1, p);
    PhaseEffect(v, f, s1, p);
    VrefTrack(v, s2, p);
    VrefEffect(v, f, s2, p);
    LedTrack(v, s3, p);
    LedEffect(v, f, s3, p);
    EffectCompose(f, v, p, st, 0, 4, 5);
    EffectCompose(f, v, p, st, 0, 5, 6);
    EffectCompose(f, v, p, st, 0, 6, 7);
  }

  /**
   * After boardSetupPins, from any starting state of the board, each pin is
   * in the state SetupState gives for its role; a pin without a role keeps
   * its state.
   */
  lemma SetupFinalState(v: Variant, useEnablePin: bool, s: seq<PinState>, p: nat)
    requires |s| > MaxPin && p < |s|
    ensures Fits(SetupTrace(v, useEnablePin), |s|)
    ensures Replay(s, SetupTrace(v, useEnablePin))[p] == Effect(useEnablePin, v, p, s[p], 0, Groups)
  {
    ReplayTrack(s, SetupTrace(v, useEnablePin), p);
    SetupTrack(v, useEnablePin, s[p], p);
  }

  lemma SetupRoleState(v: Variant, useEnablePin: bool, s: seq<PinState>, role: Role)
    requires |s| > MaxPin && Defined(role, v)
    ensures Fits(SetupTrace(v, useEnablePin), |s|)
    ensures var p := PinFor(role, v);
            Replay(s, SetupTrace(v, useEnablePin))[p] == SetupState(useEnablePin, role, s[p])
  {
    SetupFinalState(v, useEnablePin, s, PinFor(role, v));
    EffectOfRole(useEnablePin, v, role, s[PinFor(role, v)]);
  }

  /** Through all the groups, the pin of a role reaches the state of that role. */
  lemma EffectOfRole(useEnablePin: bool, v: Variant, role: Role, st: PinState)
    requires Defined(role, v)
    ensures Effect(useEnablePin, v, PinFor(role, v), st, 0, Groups) == SetupState(useEnablePin, role, st)
  {
    RoleOfPinFor(role, v);
  }

  lemma SetupUntouched(v: Variant, useEnablePin: bool, s: seq<PinState>, p: nat)
    requires |s| > MaxPin && p < |s| && p !in RolePins(v)
    ensures Fits(SetupTrace(v, useEnablePin), |s|)
    ensures Replay(s, SetupTrace(v, useEnablePin))[p] == s[p]
  {
    SetupFinalState(v, useEnablePin, s, p);
  }

  /**
   * The modes boardSetupPins leaves depend only on the variant and the
   * USE_ENABLE_PIN flag, not on the state the board was in; so do the
   * levels of the pins it writes.
   */
  lemma SetupModesIndependent(v: Variant, useEnablePin: bool, s1: seq<PinState>, s2: seq<PinState>, role: Role)
    requires |s1| > MaxPin && |s2| > MaxPin && Defined(role, v)
    ensures Fits(SetupTrace(v, useEnablePin), |s1|) && Fits(SetupTrace(v, useEnablePin), |s2|)
    ensures var p := PinFor(role, v);
            var r1, r2 := Replay(s1, SetupTrace(v, useEnablePin))[p], Replay(s2, SetupTrace(v, useEnablePin))[p];
            && r1.mode == r2.mode
            && (WritesLevel(role) ==> r1 == r2)
  {
    var p := PinFor(role, v);
    SetupRoleState(v, useEnablePin, s1, role);
    SetupRoleState(v, useEnablePin, s2, role);
    SetupStateIgnoresStart(useEnablePin, role, s1[p], s2[p]);
  }

  lemma SetupStateIgnoresStart(useEnablePin: bool, role: Role, st1: PinState, st2: PinState)
    ensures SetupState(useEnablePin, role, st1).mode == SetupState(useEnablePin, role, st2).mode
    ensures WritesLevel(role) ==> SetupState(useEnablePin, role, st1) == SetupState(useEnablePin, role, st2)
  {
  }

  /** Running boardSetupPins a second time changes nothing. */
  lemma SetupIdempotent(v: Variant, useEnablePin: bool, s: seq<PinState>)
    requires |s| > MaxPin
    ensures Fits(SetupTrace(v, useEnablePin), |s|)
    ensures var once := Replay(s, SetupTrace(v, useEnablePin));
            Replay(once, SetupTrace(v, useEnablePin)) == once
  {
    ReplayIdempotent(s, SetupTrace(v, useEnablePin));
  }

  /** RED_LED(on) drives the red LED pin to `on` (active high) and changes nothing else. */
  lemma RedLedActiveHigh(v: Variant, s: seq<PinState>, on: bool)
    requires |s| > MaxPin
    ensures Fits(RedLedOps(v, on), |s|)
    ensures var r, red := Replay(s, RedLedOps(v, on)), PinFor(RedLed, v);
            && r[red] == PinState(s[red].mode, if on then High else Low)
            && forall q :: 0 <= q < |s| && q != red ==> r[q] == s[q]
  {
    var ops := RedLedOps(v, on);
    assert ops[1..] == [];
  }

  /**
   * YELLOW_LED(on) drives the yellow LED pin to `!on` (active low) and changes
   * nothing else; without a yellow LED it changes nothing at all.
   */
  lemma YellowLedActiveLow(v: Variant, s: seq<PinState>, on: bool)
    requires |s| > MaxPin
    ensures Fits(YellowLedOps(v, on), |s|)
    ensures var r := Replay(s, YellowLedOps(v, on));
            && (Defined(YellowLed, v) ==>
                  var y := PinFor(YellowLed, v);
                  && r[y] == PinState(s[y].mode, if on then Low else High)
                  && forall q :: 0 <= q < |s| && q != y ==> r[q] == s[q])
            && (!Defined(YellowLed, v) ==> r == s)
  {
    var ops := YellowLedOps(v, on);
    if ops != [] {
      assert ops[1..] == [];
    }
  }

  /** YELLOW_LED(false) changes nothing on a board whose yellow LED is already an output at HIGH. */
  lemma YellowOffFixed(v: Variant, s: seq<PinState>)
    requires Defined(YellowLed, v) && |s| > MaxPin
    requires s[PinFor(YellowLed, v)] == PinState(Output, High)
    ensures Fits(YellowLedOps(v, false), |s|)
    ensures Replay(s, YellowLedOps(v, false)) == s
  {
    ReplayWriteSame(s, PinFor(YellowLed, v), High);
  }

  lemma YellowSetupState(useEnablePin: bool, st: PinState)
    ensures SetupState(useEnablePin, YellowLed, st) == PinState(Output, High)
  {
  }

  /** boardSetupPins leaves the yellow LED switched off: as YELLOW_LED(false) would set it. */
  lemma SetupLeavesYellowOff(v: Variant, useEnablePin: bool, s: seq<PinState>)
    requires |s| > MaxPin
    ensures Fits(SetupTrace(v, useEnablePin), |s|)
    ensures var booted := Replay(s, SetupTrace(v, useEnablePin));
            Replay(booted, YellowLedOps(v, false)) == booted
  {
    var ops := SetupTrace(v, useEnablePin);
    FitsWider(ops, MaxPin + 1, |s|);
    if Defined(YellowLed, v) {
      SetupRoleState(v, useEnablePin, s, YellowLed);
      YellowSetupState(useEnablePin, s[PinFor(YellowLed, v)]);
      YellowOffFixed(v, Replay(s, ops));
    } else {
      EmptyReplay(Replay(s, ops));
    }
  }
}
