/** Acceptance filters and masks: what any sequence of setFilter and setMask calls
    leaves in the chip. */
module Filters {
  import opened Registers
  import opened CanFrame

  const RXM0SIDH: Addr := 0x20
  const RXM1SIDH: Addr := 0x24

  /** The eight slots: RXF0..RXF5, then RXM0 and RXM1. */
  type Slot = i: nat | i < 8

  /** The first of a slot's four registers in the chip: they follow on each other but for
      the control and counter registers at the end of every sixteen. */
  function SlotRegister(slot: Slot): Addr {
    if slot < 3 then 4 * slot else if slot < 6 then 4 * slot + 4 else 4 * slot + 8
  }

  /** The driver's table. */
  function SlotBase(slot: Slot): Addr {
    match slot
    case 0 => 0x00 case 1 => 0x04 case 2 => 0x08
    case 3 => 0x10 case 4 => 0x14 case 5 => 0x18
    case 6 => RXM0SIDH
    case _ => RXM1SIDH
  }

  /** The control register of the receive buffer a slot belongs to. */
  function SlotCtrl(slot: Slot): Addr {
    if slot < 2 || slot == 6 then RXB0CTRL else RXB1CTRL
  }

  datatype Setting = Setting(id: bv32, extended: bool)

  datatype SlotBytes = SlotBytes(sidh: bv8, sidl: bv8, eid8: bv8, eid0: bv8)

  /** What writeFilterOrMask puts into the four registers of a slot. */
  function Encoded(v: Setting): SlotBytes {
    if v.extended
    then SlotBytes(Byte(v.id >> 21), FilterSidl(v.id), Byte(v.id >> 8), Byte(v.id))
    else SlotBytes(Byte(v.id >> 3), StandardSidl(v.id), 0, 0)
  }

  function FilterSidl(id: bv32): bv8 {
    (0x08 | (((id >> 18) & 0x07) << 5) | ((id >> 16) & 0x03)) as bv8
  }

  function SlotIn(regs: Regs, slot: Slot): SlotBytes {
    var a := SlotRegister(slot);
    SlotBytes(Get(regs, a), Get(regs, a + 1), Get(regs, a + 2), Get(regs, a + 3))
  }

  function WriteSlot(regs: Regs, base: Addr, v: SlotBytes): Regs
    requires base < 0x28
  {
    Write(Write(Write(Write(regs, base, v.sidh), base + 1, v.sidl), base + 2, v.eid8), base + 3, v.eid0)
  }

  /** One call that names a slot: configuration mode, the four registers, normal
      mode, and RXM cleared in the buffer's control register. */
  function Program(regs: Regs, slot: Slot, v: Setting): Regs {
    var regs1 := Write(regs, CANCTRL, REQOP_CONFIG);
    var regs2 := WriteSlot(regs1, SlotBase(slot), Encoded(v));
    var regs3 := Write(regs2, CANCTRL, NORMAL_CLKOUT);
    Write(regs3, SlotCtrl(slot), Without(Get(regs3, SlotCtrl(slot)), RXM))
  }

  datatype Call = SetFilter(id: nat, v: Setting) | SetMask(id: nat, v: Setting)

  predicate InRange(c: Call) {
    if c.SetFilter? then c.id < 6 else c.id < 2
  }

  function SlotOf(c: Call): Slot
    requires InRange(c)
  {
    if c.SetFilter? then c.id else 6 + c.id
  }

  function Run(regs: Regs, c: Call): Regs {
    if InRange(c) then Program(regs, SlotOf(c), c.v) else regs
  }

  function RunAll(regs: Regs, calls: seq<Call>): Regs {
    if calls == [] then regs else Run(RunAll(regs, calls[..|calls| - 1]), calls[|calls| - 1])
  }

  // ----- The map they refine

  datatype Option<T> = None | Some(value: T)

  predicate Sets(c: Call, slot: Slot) {
    InRange(c) && SlotOf(c) == slot
  }

  /** The last value the calls set for a slot. */
  function LastSetting(calls: seq<Call>, slot: Slot): Option<Setting> {
    if calls == [] then None
    else if Sets(calls[|calls| - 1], slot) then Some(calls[|calls| - 1].v)
    else LastSetting(calls[..|calls| - 1], slot)
  }

  /** The call names a filter or the mask of the buffer with this control register. */
  predicate Names(c: Call, ctrl: Addr) {
    if ctrl == 0x60 then (if c.SetFilter? then c.id < 2 else c.id == 0)
    else ctrl == 0x70 && if c.SetFilter? then 2 <= c.id < 6 else c.id == 1
  }

  predicate Touches(calls: seq<Call>, ctrl: Addr) {
    exists i :: 0 <= i < |calls| && Names(calls[i], ctrl)
  }

  predicate IsSlotRegister(a: Addr, slot: Slot) {
    SlotRegister(slot) <= a < SlotRegister(slot) + 4
  }

  lemma FilterWriteTakes(regs: Regs, a: Addr, v: bv8)
    requires InConfigMode(regs) && IsFilterRegister(a)
    ensures Write(regs, a, v) == regs[a := v] && InConfigMode(regs[a := v])
  {}

  function WithFour(regs: Regs, base: Addr, v: SlotBytes): Regs
    requires base < 0x28
  {
    regs[base := v.sidh][base + 1 := v.sidl][base + 2 := v.eid8][base + 3 := v.eid0]
  }

  lemma FourLand(regs: Regs, base: Addr, v: SlotBytes)
    requires base < 0x28
    ensures var t := WithFour(regs, base, v);
            && SlotBytes(Get(t, base), Get(t, base + 1), Get(t, base + 2), Get(t, base + 3)) == v
            && forall a: Addr :: !(base <= a < base + 4) ==> Get(t, a) == Get(regs, a)
  {}

  lemma WriteSlotLands(regs: Regs, base: Addr, v: SlotBytes)
    requires InConfigMode(regs) && IsFilterRegister(base) && IsFilterRegister(base + 1)
             && IsFilterRegister(base + 2) && IsFilterRegister(base + 3)
    ensures WriteSlot(regs, base, v) == WithFour(regs, base, v)
  {
    var regs1 := regs[base := v.sidh];
    var regs2 := regs1[base + 1 := v.sidl];
    var regs3 := regs2[base + 2 := v.eid8];
    FilterWriteTakes(regs, base, v.sidh);
    FilterWriteTakes(regs1, base + 1, v.sidl);
    FilterWriteTakes(regs2, base + 2, v.eid8);
    FilterWriteTakes(regs3, base + 3, v.eid0);
  }

  lemma TableIsRegisters(slot: Slot)
    ensures SlotBase(slot) == SlotRegister(slot)
    ensures var a := SlotRegister(slot);
            IsFilterRegister(a) && IsFilterRegister(a + 1) && IsFilterRegister(a + 2) && IsFilterRegister(a + 3)
  {}

  lemma WriteSlotEffect(regs: Regs, slot: Slot, v: SlotBytes)
    requires InConfigMode(regs)
    ensures SlotIn(WriteSlot(regs, SlotBase(slot), v), slot) == v
    ensures forall a: Addr :: !IsSlotRegister(a, slot) ==> Get(WriteSlot(regs, SlotBase(slot), v), a) == Get(regs, a)
  {
    var base := SlotRegister(slot);
    TableIsRegisters(slot);
    WriteSlotLands(regs, base, v);
    FourLand(regs, base, v);
  }

  /** Slots are apart from the control registers. */
  lemma SlotIsApart(slot: Slot)
    ensures !IsSlotRegister(0x0F, slot) && !IsSlotRegister(SlotCtrl(slot), slot) && SlotCtrl(slot) != 0x0F
    ensures !IsFilterRegister(0x0F) && !IsFilterRegister(SlotCtrl(slot))
  {}

  /** What a call does after the slot's four registers. */
  lemma EndOfProgram(regs: Regs, ctrl: Addr)
    requires ctrl != 0x0F && !IsFilterRegister(ctrl)
    ensures var regs3 := Write(regs, CANCTRL, NORMAL_CLKOUT);
            var t := Write(regs3, ctrl, Without(Get(regs3, ctrl), RXM));
            && Get(t, 0x0F) == 0x04 && Get(t, ctrl) == Without(Get(regs, ctrl), 0x60)
            && forall a: Addr :: a != 0x0F && a != ctrl ==> Get(t, a) == Get(regs, a)
  {}

  /** The whole effect of one call, register by register. */
  lemma ProgramEffect(regs: Regs, slot: Slot, v: Setting)
    ensures SlotIn(Program(regs, slot, v), slot) == Encoded(v)
    ensures Get(Program(regs, slot, v), 0x0F) == 0x04
    ensures Get(Program(regs, slot, v), SlotCtrl(slot)) == Without(Get(regs, SlotCtrl(slot)), 0x60)
    ensures forall a: Addr :: !IsSlotRegister(a, slot) && a != 0x0F && a != SlotCtrl(slot) ==>
              Get(Program(regs, slot, v), a) == Get(regs, a)
  {
    ConfigModeIsOn(regs);
    var regs1 := Write(regs, CANCTRL, REQOP_CONFIG);
    var regs2 := WriteSlot(regs1, SlotBase(slot), Encoded(v));
    WriteSlotEffect(regs1, slot, Encoded(v));
    SlotIsApart(slot);
    EndOfProgram(regs2, SlotCtrl(slot));
    SameSlot(regs2, Program(regs, slot, v), slot);
  }

  lemma SameSlot(regs: Regs, regs': Regs, slot: Slot)
    requires forall a: Addr :: a != 0x0F && a != SlotCtrl(slot) ==> Get(regs', a) == Get(regs, a)
    ensures SlotIn(regs', slot) == SlotIn(regs, slot)
  {}

  lemma ConfigModeIsOn(regs: Regs)
    ensures InConfigMode(Write(regs, CANCTRL, REQOP_CONFIG))
  {}

  lemma SlotsAreApart(s: Slot, t: Slot)
    requires s != t
    ensures forall a: Addr :: !(IsSlotRegister(a, s) && IsSlotRegister(a, t))
  {}

  lemma OtherSlotStands(regs: Regs, slot: Slot, v: Setting, other: Slot)
    requires other != slot
    ensures SlotIn(Program(regs, slot, v), other) == SlotIn(regs, other)
  {
    ProgramEffect(regs, slot, v);
    SlotsAreApart(slot, other);
  }

  // ----- Whole sequences of calls

  lemma {:induction false} LastSettingWins(regs: Regs, calls: seq<Call>, slot: Slot)
    ensures SlotIn(RunAll(regs, calls), slot) ==
            match LastSetting(calls, slot) case None => SlotIn(regs, slot) case Some(v) => Encoded(v)
  {
    if calls != [] {
      var c := calls[|calls| - 1];
      var before := RunAll(regs, calls[..|calls| - 1]);
      LastSettingWins(regs, calls[..|calls| - 1], slot);
      if InRange(c) {
        if SlotOf(c) == slot {
          ProgramEffect(before, slot, c.v);
        } else {
          OtherSlotStands(before, SlotOf(c), c.v, slot);
        }
      }
    }
  }

  /** Each receive buffer's control register loses its RXM bits, and only those, if
      some call in range named one of its slots, and is untouched otherwise. */
  lemma {:induction false} ControlLosesRxm(regs: Regs, calls: seq<Call>, ctrl: Addr)
    requires ctrl == RXB0CTRL || ctrl == RXB1CTRL
    ensures Get(RunAll(regs, calls), ctrl) == if Touches(calls, ctrl)
            then Without(Get(regs, ctrl), 0x60) else Get(regs, ctrl)
  {
    if calls != [] {
      var n := |calls| - 1;
      var c := calls[n];
      ControlLosesRxm(regs, calls[..n], ctrl);
      TouchesLast(calls, ctrl);
      WithoutTwice(Get(regs, ctrl), RXM);
      if InRange(c) {
        ProgramEffect(RunAll(regs, calls[..n]), SlotOf(c), c.v);
      }
    }
  }

  lemma WithoutTwice(x: bv8, mask: bv8)
    ensures Without(Without(x, mask), mask) == Without(x, mask)
  {}

  lemma TouchesLast(calls: seq<Call>, ctrl: Addr)
    requires calls != []
    ensures Touches(calls, ctrl) <==>
              Touches(calls[..|calls| - 1], ctrl) || Names(calls[|calls| - 1], ctrl)
  {}

  /** Nothing else changes, and the chip is left in normal mode if any call was in range. */
  lemma {:induction false} RestStands(regs: Regs, calls: seq<Call>, a: Addr)
    requires forall slot: Slot :: !IsSlotRegister(a, slot)
    requires a != RXB0CTRL && a != RXB1CTRL
    ensures Get(RunAll(regs, calls), a) ==
            if a == CANCTRL && (Touches(calls, RXB0CTRL) || Touches(calls, RXB1CTRL))
                then 0x04 else Get(regs, a)
  {
    if calls != [] {
      var n := |calls| - 1;
      var c := calls[n];
      RestStands(regs, calls[..n], a);
      TouchesLast(calls, RXB0CTRL);
      TouchesLast(calls, RXB1CTRL);
      if InRange(c) {
        ProgramEffect(RunAll(regs, calls[..n]), SlotOf(c), c.v);
      }
    }
  }

  function SlotByte(v: SlotBytes, k: int): bv8 {
    if k == 0 then v.sidh else if k == 1 then v.sidl else if k == 2 then v.eid8 else v.eid0
  }

  /** What one call makes of the value x of register a. */
  function Overlay(slot: Slot, v: Setting, a: Addr, x: bv8): bv8 {
    if IsSlotRegister(a, slot) then SlotByte(Encoded(v), a - SlotRegister(slot))
    else if a == CANCTRL then NORMAL_CLKOUT
    else if a == SlotCtrl(slot) then Without(x, RXM)
    else x
  }

  lemma ValueAfter(regs: Regs, slot: Slot, v: Setting, a: Addr)
    ensures Get(Program(regs, slot, v), a) == Overlay(slot, v, a, Get(regs, a))
  {
    ProgramEffect(regs, slot, v);
    var base := SlotRegister(slot);
    assert IsSlotRegister(a, slot) ==> a == base || a == base + 1 || a == base + 2 || a == base + 3;
  }

  lemma OverlaysCommute(s: Slot, v: Setting, t: Slot, w: Setting, a: Addr, x: bv8)
    requires s != t
    ensures Overlay(t, w, a, Overlay(s, v, a, x)) == Overlay(s, v, a, Overlay(t, w, a, x))
  {}

  /** Calls on different slots commute, register by register; a call out of range
      commutes with everything. */
  lemma DifferentSlotsCommute(regs: Regs, c: Call, d: Call, a: Addr)
    requires InRange(c) && InRange(d) ==> SlotOf(c) != SlotOf(d)
    ensures Get(Run(Run(regs, c), d), a) == Get(Run(Run(regs, d), c), a)
  {
    if InRange(c) && InRange(d) {
      OverlaysCommute(SlotOf(c), c.v, SlotOf(d), d.v, a, Get(regs, a));
      TwoValuesAfter(regs, SlotOf(c), c.v, SlotOf(d), d.v, a);
      TwoValuesAfter(regs, SlotOf(d), d.v, SlotOf(c), c.v, a);
    }
  }

  lemma TwoValuesAfter(regs: Regs, s: Slot, v: Setting, t: Slot, w: Setting, a: Addr)
    ensures Get(Program(Program(regs, s, v), t, w), a) == Overlay(t, w, a, Overlay(s, v, a, Get(regs, a)))
  {
    ValueAfter(regs, s, v, a);
    ValueAfter(Program(regs, s, v), t, w, a);
  }
}
