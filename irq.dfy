/**
 * The interrupt word the main loop hands to the CPU every iteration: the machine
 * software, timer and external interrupt-pending bits (MSIP, MTIP, MEIP of the `mip`
 * register, section 3.1.9 of the RISC-V Privileged Architecture).
 */
module Irq {

  /** Bit positions of the masks RV_CSI, RV_CTI and RV_CEI of the CPU core. */
  datatype IrqBits = IrqBits(csi: bv5, cti: bv5, cei: bv5)

  /** The single-bit mask with bit `i` set. */
  function Mask(i: bv5): bv32
  {
    1 << i
  }

  /** The three masks are different bits. */
  predicate WellFormed(b: IrqBits)
  {
    b.csi != b.cti && b.csi != b.cei && b.cti != b.cei
  }

  /** `RV_CSI * msi | RV_CTI * mti | RV_CEI * mei`, with each pending flag 0 or 1. */
  function Line(b: IrqBits, msi: bool, mti: bool, mei: bool): bv32
  {
    (if msi then Mask(b.csi) else 0) | (if mti then Mask(b.cti) else 0) | (if mei then Mask(b.cei) else 0)
  }

  /** No bit outside the three masks is ever set. */
  lemma LineHasNoOtherBits(b: IrqBits, msi: bool, mti: bool, mei: bool)
    ensures Line(b, msi, mti, mei) & !(Mask(b.csi) | Mask(b.cti) | Mask(b.cei)) == 0
  {
  }

  lemma SoftwareBit(b: IrqBits, msi: bool, mti: bool, mei: bool)
    requires WellFormed(b)
    ensures Line(b, msi, mti, mei) & Mask(b.csi) != 0 <==> msi
  {
  }

  lemma TimerBit(b: IrqBits, msi: bool, mti: bool, mei: bool)
    requires WellFormed(b)
    ensures Line(b, msi, mti, mei) & Mask(b.cti) != 0 <==> mti
  {
  }

  lemma ExternalBit(b: IrqBits, msi: bool, mti: bool, mei: bool)
    requires WellFormed(b)
    ensures Line(b, msi, mti, mei) & Mask(b.cei) != 0 <==> mei
  {
  }

  /** Each mask's bit of the word is set exactly when its interrupt is pending. */
  lemma LineReflectsPending(b: IrqBits, msi: bool, mti: bool, mei: bool)
    requires WellFormed(b)
    ensures var irq := Line(b, msi, mti, mei);
            && (irq & Mask(b.csi) != 0 <==> msi)
            && (irq & Mask(b.cti) != 0 <==> mti)
            && (irq & Mask(b.cei) != 0 <==> mei)
  {
    SoftwareBit(b, msi, mti, mei);
    TimerBit(b, msi, mti, mei);
    ExternalBit(b, msi, mti, mei);
  }

  /** The word is zero exactly when nothing is pending. */
  lemma LineZeroIffIdle(b: IrqBits, msi: bool, mti: bool, mei: bool)
    ensures Line(b, msi, mti, mei) == 0 <==> !msi && !mti && !mei
  {
  }

  /** Only the timer pending: the word is exactly the timer bit. */
  lemma OnlyTimerPending(b: IrqBits)
    ensures Line(b, false, true, false) == Mask(b.cti)
  {
  }

  /** The composed word determines the three pending flags it was made from. */
  lemma LineInjective(b: IrqBits, msi: bool, mti: bool, mei: bool,
                        msi': bool, mti': bool, mei': bool)
    requires WellFormed(b)
    requires Line(b, msi, mti, mei) == Line(b, msi', mti', mei')
    ensures msi == msi' && mti == mti' && mei == mei'
  {
  }
}
