/** The MCP2515 register file and the addresses and masks the driver uses.  What the chip
    does is stated with the data sheet's numbers (DS20001801), here and in the other
    modules, and what the driver does with these names.  A register that was never
    written reads as zero. */
module Registers {
  type Addr = a: int | 0 <= a < 256
  type Regs = map<Addr, bv8>

  const CANCTRL: Addr := 0x0F
  const CANINTF: Addr := 0x2C
  const EFLG: Addr := 0x2D

  // The three message buffers share one layout, at these offsets from the buffer's control register.
  const TXB0CTRL: Addr := 0x30
  const RXB0CTRL: Addr := 0x60
  const RXB1CTRL: Addr := 0x70
  const SIDH := 1
  const SIDL := 2
  const EID8 := 3
  const EID0 := 4
  const DLC := 5
  const D0 := 6

  const RX0IF: bv8 := 0x01
  const RX1IF: bv8 := 0x02
  const TX0IF: bv8 := 0x04
  const ERRIF: bv8 := 0x20
  const WAKIF: bv8 := 0x40
  const MERRF: bv8 := 0x80
  const ERRORS: bv8 := 0xE0  // MERRF | WAKIF | ERRIF
  // CANINTE as initialInTask leaves it: TX0IE | RX0IE | RX1IE | MERRE | WAKIE | ERRIE.
  const ENABLED: bv8 := 0xE7

  const TXBO: bv8 := 0x20
  const TXREQ: bv8 := 0x08
  const EXIDE: bv8 := 0x08
  const RXM: bv8 := 0x60
  const REQOP_CONFIG: bv8 := 0x80
  const NORMAL_CLKOUT: bv8 := 0x04

  predicate Has(x: bv8, mask: bv8) {
    x & mask != 0
  }

  function With(x: bv8, mask: bv8): bv8 {
    x | mask
  }

  function Without(x: bv8, mask: bv8): bv8 {
    x & !mask
  }

  function Only(x: bv8, mask: bv8): bv8 {
    x & mask
  }

  /** The number in the low four bits of x: x & 0x0F as a length. */
  function LowNibble(x: bv8): (n: nat)
    ensures n < 16
  {
    (if x & 8 != 0 then 8 else 0) + (if x & 4 != 0 then 4 else 0)
    + (if x & 2 != 0 then 2 else 0) + (if x & 1 != 0 then 1 else 0)
  }

  /** A payload length as the byte it is passed as. */
  function LengthByte(n: nat): bv8
    requires n <= 8
  {
    if n == 0 then 0 else if n == 1 then 1 else if n == 2 then 2 else if n == 3 then 3 else if n == 4 then 4
    else if n == 5 then 5 else if n == 6 then 6 else if n == 7 then 7 else 8
  }

  lemma LengthsAreNumbers(x: bv8, n: nat)
    requires n <= 8
    ensures LowNibble(x) == (x & 0x0F) as nat
    ensures LengthByte(n) == n as bv8
    ensures LowNibble(LengthByte(n)) == n
  {}

  function Get(regs: Regs, a: Addr): bv8 {
    if a in regs then regs[a] else 0
  }

  /** The addresses of RXF0..RXF5 and RXM0..RXM1. */
  predicate IsFilterRegister(a: Addr) {
    a < 0x0C || 0x10 <= a < 0x1C || 0x20 <= a < 0x28
  }

  predicate InConfigMode(regs: Regs) {
    Get(regs, 0x0F) & 0xE0 == 0x80
  }

  /** A byte arriving at a register.  Filter and mask registers take it in
      configuration mode only (DS20001801, section 4.5). */
  function Write(regs: Regs, a: Addr, v: bv8): Regs {
    if IsFilterRegister(a) && !InConfigMode(regs) then regs else regs[a := v]
  }

  function Modified(value: bv8, mask: bv8, data: bv8): bv8 {
    (value & !mask) | (data & mask)
  }

  function BitModify(regs: Regs, a: Addr, mask: bv8, data: bv8): Regs {
    Write(regs, a, Modified(Get(regs, a), mask, data))
  }

  /** Outside configuration mode the filter and mask registers keep their values; any
      other byte written is the one read back.  No other register changes. */
  lemma WriteEffect(regs: Regs, a: Addr, v: bv8)
    ensures Get(Write(regs, a, v), a) ==
            if (a < 0x0C || 0x10 <= a < 0x1C || 0x20 <= a < 0x28) && Get(regs, 0x0F) & 0xE0 != 0x80
            then Get(regs, a) else v
    ensures forall b: Addr :: b != a ==> Get(Write(regs, a, v), b) == Get(regs, b)
  {}

  /** The bits in the mask become those of the data, the others stand, and so does every
      other register. */
  lemma BitModifyEffect(regs: Regs, a: Addr, mask: bv8, data: bv8)
    requires !IsFilterRegister(a) || InConfigMode(regs)
    ensures Get(BitModify(regs, a, mask, data), a) & mask == data & mask
    ensures Get(BitModify(regs, a, mask, data), a) & !mask == Get(regs, a) & !mask
    ensures forall b: Addr :: b != a ==> Get(BitModify(regs, a, mask, data), b) == Get(regs, b)
  {}
}
