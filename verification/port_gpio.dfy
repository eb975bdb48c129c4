/**
 * The register-level GPIO macros of board.h (GPIO_LOW, GPIO_HIGH,
 * GPIO_OUTPUT) over a model of the SAM D21 PORT peripheral: each port
 * group has a 32-bit OUT word, a 32-bit DIR word and 32 one-byte PINCFG
 * registers. OUTSET, OUTCLR and DIRSET are write-only strobes: a 1 bit
 * written there sets or clears that bit of OUT or DIR, a 0 bit leaves it.
 */
module PortGpio {

  /** A bit position in a 32-bit port register (the uint32_t ulPin of g_APinDescription). */
  type BitIndex = b: bv32 | b < 32

  /** A bit position in an 8-bit PINCFG register. */
  type CfgBitIndex = b: bv8 | b < 8

  /** The port group and bit position of one Arduino pin. */
  datatype PinDescription = PinDescription(port: nat, bit: BitIndex)

  /** PORT_PINCFG_INEN: the input-buffer enable bit (bit 1) of a PINCFG register. */
  const PINCFG_INEN: bv8 := 0x02

  predicate IsSet(w: bv32, i: BitIndex) {
    (w >> i) & 1 == 1
  }

  predicate IsSet8(c: bv8, i: CfgBitIndex) {
    (c >> i) & 1 == 1
  }

  lemma MaskBit(bit: BitIndex, i: BitIndex)
    ensures IsSet(1 << bit, i) <==> i == bit
  {
  }

  lemma OrBit(a: bv32, b: bv32, i: BitIndex)
    ensures IsSet(a | b, i) <==> IsSet(a, i) || IsSet(b, i)
  {
  }

  lemma AndNotBit(a: bv32, b: bv32, i: BitIndex)
    ensures IsSet(a & !b, i) <==> IsSet(a, i) && !IsSet(b, i)
  {
  }

  lemma AndNotBit8(a: bv8, b: bv8, i: CfgBitIndex)
    ensures IsSet8(a & !b, i) <==> IsSet8(a, i) && !IsSet8(b, i)
  {
  }

  /** 1ul << bit: the word with exactly that one bit set. */
  function Mask(bit: BitIndex): (m: bv32)
    ensures forall i: BitIndex :: IsSet(m, i) <==> i == bit
  {
    var m: bv32 := 1 << bit;
    forall i: BitIndex ensures IsSet(m, i) <==> i == bit {
      MaskBit(bit, i);
    }
    m
  }

  /** A register after a write of `written` to its SET strobe (OUTSET, DIRSET). */
  function AfterSet(reg: bv32, written: bv32): (r: bv32)
    ensures forall i: BitIndex :: IsSet(r, i) <==> IsSet(reg, i) || IsSet(written, i)
  {
    forall i: BitIndex ensures IsSet(reg | written, i) <==> IsSet(reg, i) || IsSet(written, i) {
      OrBit(reg, written, i);
    }
    reg | written
  }

  /** A register after a write of `written` to its CLR strobe (OUTCLR). */
  function AfterClear(reg: bv32, written: bv32): (r: bv32)
    ensures forall i: BitIndex :: IsSet(r, i) <==> IsSet(reg, i) && !IsSet(written, i)
  {
    forall i: BitIndex ensures IsSet(reg & !written, i) <==> IsSet(reg, i) && !IsSet(written, i) {
      AndNotBit(reg, written, i);
    }
    reg & !written
  }

  /** reg &= ~flags on a PINCFG byte: the flag bits cleared, every other bit kept. */
  function ClearCfgFlags(cfg: bv8, flags: bv8): (r: bv8)
    ensures forall i: CfgBitIndex :: IsSet8(r, i) <==> IsSet8(cfg, i) && !IsSet8(flags, i)
  {
    forall i: CfgBitIndex ensures IsSet8(cfg & !flags, i) <==> IsSet8(cfg, i) && !IsSet8(flags, i) {
      AndNotBit8(cfg, flags, i);
    }
    cfg & !flags
  }

  /** Writing one pin's mask to OUTSET sets that bit and keeps every other bit. */
  lemma SetMaskIsolated(reg: bv32, bit: BitIndex)
    ensures IsSet(AfterSet(reg, Mask(bit)), bit)
    ensures forall i: BitIndex :: i != bit ==> (IsSet(AfterSet(reg, Mask(bit)), i) <==> IsSet(reg, i))
  {
  }

  /** Writing one pin's mask to OUTCLR clears that bit and keeps every other bit. */
  lemma ClearMaskIsolated(reg: bv32, bit: BitIndex)
    ensures !IsSet(AfterClear(reg, Mask(bit)), bit)
    ensures forall i: BitIndex :: i != bit ==> (IsSet(AfterClear(reg, Mask(bit)), i) <==> IsSet(reg, i))
  {
  }

  /** Clearing INEN leaves the other seven PINCFG bits (PMUXEN, PULLEN, DRVSTR, ...) as they were. */
  lemma ClearInenIsolated(cfg: bv8)
    ensures !IsSet8(ClearCfgFlags(cfg, PINCFG_INEN), 1)
    ensures forall i: CfgBitIndex :: i != 1 ==> (IsSet8(ClearCfgFlags(cfg, PINCFG_INEN), i) <==> IsSet8(cfg, i))
  {
  }

  /** Setting one pin HIGH and then another pin of the same port LOW leaves the first pin HIGH. */
  lemma SetThenClearOther(reg: bv32, first: BitIndex, second: BitIndex)
    requires first != second
    ensures IsSet(AfterClear(AfterSet(reg, Mask(first)), Mask(second)), first)
  {
  }

  /** One port group, PORT->Group[n]. */
  class PortGroup {
    var out: bv32
    var dir: bv32
    const pinCfg: array<bv8>

    /** A group as the SAM D21 leaves it at reset: all pins inputs, OUT and PINCFG zero. */
    constructor ()
      ensures out == 0 && dir == 0
      ensures fresh(pinCfg) && pinCfg.Length == 32
      ensures forall i :: 0 <= i < 32 ==> pinCfg[i] == 0
    {
      out, dir := 0, 0;
      pinCfg := new bv8[32](_ => 0);
    }

    /** OUTSET.reg = value */
    method WriteOutSet(value: bv32)
      modifies this`out
      ensures out == AfterSet(old(out), value)
    {
      out := out | value;
    }

    /** OUTCLR.reg = value */
    method WriteOutClr(value: bv32)
      modifies this`out
      ensures out == AfterClear(old(out), value)
    {
      out := out & !value;
    }

    /** DIRSET.reg = value */
    method WriteDirSet(value: bv32)
      modifies this`dir
      ensures dir == AfterSet(old(dir), value)
    {
      dir := dir | value;
    }

    /** PINCFG[bit].reg &= ~flags */
    method ClearPinCfg(bit: BitIndex, flags: bv8)
      requires pinCfg.Length == 32
      modifies pinCfg
      ensures pinCfg[bit] == ClearCfgFlags(old(pinCfg[bit]), flags)
      ensures forall i :: 0 <= i < 32 && i != bit ==> pinCfg[i] == old(pinCfg[i])
    {
      pinCfg[bit] := pinCfg[bit] & !flags;
    }
  }

  /**
   * The PORT peripheral together with the variant's g_APinDescription
   * table, which gives each Arduino pin number its group and bit.
   */
  class Port {
    const groups: seq<PortGroup>
    const description: seq<PinDescription>

    ghost predicate Valid() {
      && (forall i, j :: 0 <= i < j < |groups| ==> groups[i] != groups[j])
      && (forall i, j :: 0 <= i < j < |groups| ==> groups[i].pinCfg != groups[j].pinCfg)
      && (forall i :: 0 <= i < |groups| ==> groups[i].pinCfg.Length == 32)
      && (forall p :: 0 <= p < |description| ==> description[p].port < |groups|)
    }

    constructor (groups: seq<PortGroup>, description: seq<PinDescription>)
      requires forall i, j :: 0 <= i < j < |groups| ==> groups[i] != groups[j]
      requires forall i, j :: 0 <= i < j < |groups| ==> groups[i].pinCfg != groups[j].pinCfg
      requires forall i :: 0 <= i < |groups| ==> groups[i].pinCfg.Length == 32
      requires forall p :: 0 <= p < |description| ==> description[p].port < |groups|
      ensures Valid() && this.groups == groups && this.description == description
    {
      this.groups := groups;
      this.description := description;
    }

    /** GPIO_LOW(pin): clears the pin's OUT bit; nothing else in any group changes. */
    method GpioLow(pin: nat)
      requires Valid() && pin < |description|
      modifies groups[description[pin].port]
      ensures var g := groups[description[pin].port];
              g.out == AfterClear(old(g.out), Mask(description[pin].bit)) && g.dir == old(g.dir)
      ensures forall i :: 0 <= i < |groups| && i != description[pin].port ==>
                groups[i].out == old(groups[i].out) && groups[i].dir == old(groups[i].dir)
    {
      var d := description[pin];
      groups[d.port].WriteOutClr(Mask(d.bit));
    }

    /** GPIO_HIGH(pin): sets the pin's OUT bit; nothing else in any group changes. */
    method GpioHigh(pin: nat)
      requires Valid() && pin < |description|
      modifies groups[description[pin].port]
      ensures var g := groups[description[pin].port];
              g.out == AfterSet(old(g.out), Mask(description[pin].bit)) && g.dir == old(g.dir)
      ensures forall i :: 0 <= i < |groups| && i != description[pin].port ==>
                groups[i].out == old(groups[i].out) && groups[i].dir == old(groups[i].dir)
    {
      var d := description[pin];
      groups[d.port].WriteOutSet(Mask(d.bit));
    }

    /**
     * GPIO_OUTPUT(pin): clears INEN in the pin's PINCFG register, then sets
     * the pin's DIR bit. OUT, the other PINCFG registers and the other
     * groups are untouched.
     */
    method GpioOutput(pin: nat)
      requires Valid() && pin < |description|
      modifies groups[description[pin].port], groups[description[pin].port].pinCfg
      ensures var g, b := groups[description[pin].port], description[pin].bit;
              && g.out == old(g.out)
              && g.pinCfg[b] == ClearCfgFlags(old(g.pinCfg[b]), PINCFG_INEN)
              && (forall i :: 0 <= i < 32 && i != b ==> g.pinCfg[i] == old(g.pinCfg[i]))
              && g.dir == AfterSet(old(g.dir), Mask(b))
      ensures forall i :: 0 <= i < |groups| && i != description[pin].port ==>
                groups[i].out == old(groups[i].out) && groups[i].dir == old(groups[i].dir)
                && forall k :: 0 <= k < 32 ==> groups[i].pinCfg[k] == old(groups[i].pinCfg[k])
    {
      var d := description[pin];
      var g := groups[d.port];
      g.ClearPinCfg(d.bit, PINCFG_INEN);
      g.WriteDirSet(Mask(d.bit));
    }
  }
}
