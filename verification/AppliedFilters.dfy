/** Which frames the chip takes after any sequence of setFilter and setMask calls.  The
    chip's side is its acceptance test on its own registers (DS20001801, section 4.5), the
    other side the identifiers and masks the caller set. */
module AppliedFilters {
  import opened Registers
  import opened CanFrame
  import opened Filters
  import opened Acceptance

  // ----- The chip's side

  function FourBytes(regs: Regs, a: Addr): SlotBytes
    requires a <= 0x24
  {
    SlotBytes(Get(regs, a), Get(regs, a + 1), Get(regs, a + 2), Get(regs, a + 3))
  }

  /** A frame as it comes in: its header and its first two payload bytes. */
  datatype Incoming = Incoming(h: SlotBytes, d0: bv8, d1: bv8)

  /** The filter at register f takes a frame under the mask at register m. */
  predicate TakenBy(regs: Regs, x: Incoming, f: Addr, m: Addr)
    requires f <= 0x24 && m <= 0x24
  {
    Accepts(x.h, x.d0, x.d1, FourBytes(regs, f), FourBytes(regs, m))
  }

  /** The RXM bits of a buffer's control register: everything, frames of one format that
      pass a filter, or all that pass one. */
  predicate Admits(ctrl: bv8, x: Incoming, filtered: bool) {
    || ctrl & 0x60 == 0x60
    || (filtered && (ctrl & 0x60 == 0 || (ctrl & 0x60 == 0x40) == Has(x.h.sidl, 0x08)))
  }

  /** In normal mode a buffer takes what its filters take. */
  predicate Rxb0Takes(regs: Regs, x: Incoming) {
    Get(regs, 0x0F) & 0xE0 == 0 &&
    Admits(Get(regs, 0x60), x, TakenBy(regs, x, 0x00, 0x20) || TakenBy(regs, x, 0x04, 0x20))
  }

  predicate Rxb1Takes(regs: Regs, x: Incoming) {
    Get(regs, 0x0F) & 0xE0 == 0 &&
    Admits(Get(regs, 0x70), x,
           TakenBy(regs, x, 0x08, 0x24) || TakenBy(regs, x, 0x10, 0x24)
           || TakenBy(regs, x, 0x14, 0x24) || TakenBy(regs, x, 0x18, 0x24))
  }

  // ----- The caller's side

  function LastFilter(calls: seq<Call>, id: nat): Option<Setting> {
    if calls == [] then None
    else
      var c := calls[|calls| - 1];
      if c.SetFilter? && c.id == id then Some(c.v) else LastFilter(calls[..|calls| - 1], id)
  }

  function LastMask(calls: seq<Call>, id: nat): Option<Setting> {
    if calls == [] then None
    else
      var c := calls[|calls| - 1];
      if c.SetMask? && c.id == id then Some(c.v) else LastMask(calls[..|calls| - 1], id)
  }

  predicate AgreeOn29(h: SlotBytes, filter: bv32, mask: bv32) {
    SameUnder(HeaderId(h), filter, mask & 0x1FFF_FFFF)
  }

  predicate AgreeOn11(h: SlotBytes, filter: bv32, mask: bv32) {
    SameUnder(HeaderId(h), filter, mask & 0x7FF)
  }

  /** An extended mask's upper eleven bits as a standard mask, and the other way round. */
  function UpperOf(id: bv32): bv32 {
    (id >> 18) & 0x7FF
  }

  function AsUpper(id: bv32): bv32 {
    (id & 0x7FF) << 18
  }

  /** What a frame must be for a filter to take it under a mask.  Set in different
      formats, they are compared on the upper eleven bits, and the low bits of an extended
      mask ask a standard frame's payload for zeros. */
  predicate Fits(x: Incoming, filter: Setting, mask: Setting) {
    && Has(x.h.sidl, 0x08) == filter.extended
    && if filter.extended
       then AgreeOn29(x.h, filter.id, if mask.extended then mask.id else AsUpper(mask.id))
       else if mask.extended
       then AgreeOn11(x.h, filter.id, UpperOf(mask.id))
            && !Has(x.d0, Byte(mask.id >> 8)) && !Has(x.d1, Byte(mask.id))
       else AgreeOn11(x.h, filter.id, mask.id)
  }

  // ----- Byte by byte, in every combination of formats

  /** The upper eleven bits of an extended mask, as a standard one. */
  lemma UpperAsStandard(m: bv32)
    ensures Byte(UpperOf(m) >> 3) == Byte(m >> 21)
    ensures Only(StandardSidl(UpperOf(m)), 0xE0) == Only(FilterSidl(m), 0xE0)
  {}

  /** A standard mask as the upper eleven bits of an extended one. */
  lemma StandardAsUpper(m: bv32)
    ensures Byte(AsUpper(m) >> 21) == Byte(m >> 3) && Byte(AsUpper(m) >> 8) == 0 && Byte(AsUpper(m)) == 0
    ensures Only(FilterSidl(AsUpper(m)), 0xE3) == Only(StandardSidl(m), 0xE3)
  {}

  lemma AgainstZero(x: bv8, m: bv8)
    ensures Matches(x, 0, m) <==> !Has(x, m)
  {}

  /** A standard filter under mask bytes whose identifier bits are those of a standard mask. */
  lemma StandardTakes(x: Incoming, f: SlotBytes, m: SlotBytes, filter: bv32, mask: bv32)
    requires f.sidh == Byte(filter >> 3) && f.sidl == StandardSidl(filter) && f.eid8 == 0 && f.eid0 == 0
    requires m.sidh == Byte(mask >> 3) && Only(m.sidl, 0xE0) == Only(StandardSidl(mask), 0xE0)
    ensures Accepts(x.h, x.d0, x.d1, f, m) <==>
              !Has(x.h.sidl, EXIDE) && AgreeOn11(x.h, filter, mask) && !Has(x.d0, m.eid8) && !Has(x.d1, m.eid0)
  {
    FormatBits(filter);
    if !Has(x.h.sidl, EXIDE) {
      StandardMatch(x.h, filter, mask);
      AgainstZero(x.d0, m.eid8);
      AgainstZero(x.d1, m.eid0);
    }
  }

  /** An extended filter under mask bytes whose identifier bits are those of an extended mask. */
  lemma ExtendedTakes(x: Incoming, f: SlotBytes, m: SlotBytes, filter: bv32, mask: bv32)
    requires f.sidh == Byte(filter >> 21) && f.sidl == FilterSidl(filter) && f.eid8 == Byte(filter >> 8)
             && f.eid0 == Byte(filter)
    requires m.sidh == Byte(mask >> 21) && Only(m.sidl, 0xE3) == Only(FilterSidl(mask), 0xE3)
             && m.eid8 == Byte(mask >> 8) && m.eid0 == Byte(mask)
    ensures Accepts(x.h, x.d0, x.d1, f, m) <==> Has(x.h.sidl, EXIDE) && AgreeOn29(x.h, filter, mask)
  {
    FormatBits(filter);
    AcceptsExtended(x.h, x.d0, x.d1, f, m);
    if Has(x.h.sidl, EXIDE) {
      ExtendedMatch(x.h, filter, mask);
    }
  }

  lemma NoZeroBits(x: bv8)
    ensures !Has(x, 0)
  {}

  lemma StandardFits(x: Incoming, filter: bv32, mask: Setting)
    ensures Accepts(x.h, x.d0, x.d1, Encoded(Setting(filter, false)), Encoded(mask)) <==>
              Fits(x, Setting(filter, false), mask)
  {
    var f, m := Encoded(Setting(filter, false)), Encoded(mask);
    UpperAsStandard(mask.id);
    NoZeroBits(x.d0);
    NoZeroBits(x.d1);
    StandardTakes(x, f, m, filter, if mask.extended then UpperOf(mask.id) else mask.id);
  }

  lemma EncodedExtended(id: bv32)
    ensures var v := Encoded(Setting(id, true));
            v.sidh == Byte(id >> 21) && v.sidl == FilterSidl(id) && v.eid8 == Byte(id >> 8) && v.eid0 == Byte(id)
  {}

  lemma EncodedStandard(id: bv32)
    ensures var v := Encoded(Setting(id, false));
            v.sidh == Byte(id >> 3) && v.sidl == StandardSidl(id) && v.eid8 == 0 && v.eid0 == 0
  {}

  lemma UpperFits(x: Incoming, f: SlotBytes, m: SlotBytes, filter: bv32, mask: bv32)
    requires f.sidh == Byte(filter >> 21) && f.sidl == FilterSidl(filter) && f.eid8 == Byte(filter >> 8)
             && f.eid0 == Byte(filter)
    requires m.sidh == Byte(mask >> 3) && m.sidl == StandardSidl(mask) && m.eid8 == 0 && m.eid0 == 0
    ensures Accepts(x.h, x.d0, x.d1, f, m) <==> Has(x.h.sidl, EXIDE) && AgreeOn29(x.h, filter, AsUpper(mask))
  {
    StandardAsUpper(mask);
    ExtendedTakes(x, f, m, filter, AsUpper(mask));
  }

  lemma ExtendedUnderExtended(x: Incoming, f: SlotBytes, m: SlotBytes, filter: bv32, mask: bv32)
    requires f == Encoded(Setting(filter, true)) && m == Encoded(Setting(mask, true))
    ensures Accepts(x.h, x.d0, x.d1, f, m) <==> Has(x.h.sidl, EXIDE) && AgreeOn29(x.h, filter, mask)
  {
    ExtendedAcceptance(x.h, x.d0, x.d1, filter, mask);
  }

  lemma ExtendedUnderStandard(x: Incoming, f: SlotBytes, m: SlotBytes, filter: bv32, mask: bv32)
    requires f == Encoded(Setting(filter, true)) && m == Encoded(Setting(mask, false))
    ensures Accepts(x.h, x.d0, x.d1, f, m) <==> Has(x.h.sidl, EXIDE) && AgreeOn29(x.h, filter, AsUpper(mask))
  {
    EncodedExtended(filter);
    EncodedStandard(mask);
    UpperFits(x, f, m, filter, mask);
  }

  lemma ExtendedFits(x: Incoming, f: SlotBytes, m: SlotBytes, filter: Setting, mask: Setting)
    requires filter.extended && f == Encoded(filter) && m == Encoded(mask)
    ensures Accepts(x.h, x.d0, x.d1, f, m) <==> Fits(x, filter, mask)
  {
    if mask.extended {
      ExtendedUnderExtended(x, f, m, filter.id, mask.id);
    } else {
      ExtendedUnderStandard(x, f, m, filter.id, mask.id);
    }
  }

  // ----- Whole sequences of calls

  /** The bytes of a setting, or those that stood there before. */
  function BytesOf(v: Option<Setting>, before: SlotBytes): SlotBytes {
    if v.Some? then Encoded(v.value) else before
  }

  /** A filter takes a frame under a mask: by what was set, if both were. */
  predicate Passes(x: Incoming, filter: Option<Setting>, filter0: SlotBytes, mask: Option<Setting>,
      mask0: SlotBytes) {
    if filter.Some? && mask.Some? then Fits(x, filter.value, mask.value)
    else Accepts(x.h, x.d0, x.d1, BytesOf(filter, filter0), BytesOf(mask, mask0))
  }

  lemma PassesIsAccepts(x: Incoming, filter: Option<Setting>, filter0: SlotBytes, mask: Option<Setting>,
      mask0: SlotBytes)
    ensures Accepts(x.h, x.d0, x.d1, BytesOf(filter, filter0), BytesOf(mask, mask0))
            <==> Passes(x, filter, filter0, mask, mask0)
  {
    if filter.Some? && mask.Some? {
      if filter.value.extended {
        ExtendedFits(x, Encoded(filter.value), Encoded(mask.value), filter.value, mask.value);
      } else {
        StandardFits(x, filter.value.id, mask.value);
      }
    }
  }

  lemma {:induction false} LastIsBySlot(calls: seq<Call>, slot: Slot)
    ensures LastSetting(calls, slot) == if slot < 6 then LastFilter(calls, slot) else LastMask(calls, slot - 6)
  {
    if calls != [] {
      LastIsBySlot(calls[..|calls| - 1], slot);
    }
  }

  lemma SlotAfter(regs: Regs, calls: seq<Call>, slot: Slot)
    ensures SlotIn(RunAll(regs, calls), slot)
            == BytesOf(if slot < 6 then LastFilter(calls, slot) else LastMask(calls, slot - 6), SlotIn(regs, slot))
  {
    LastSettingWins(regs, calls, slot);
    LastIsBySlot(calls, slot);
  }

  lemma FilterAfter(regs: Regs, calls: seq<Call>, x: Incoming, filter: Slot, f: Addr, mask: nat, m: Addr)
    requires filter < 6 && mask < 2 && f == SlotRegister(filter) && m == SlotRegister(6 + mask)
    ensures TakenBy(RunAll(regs, calls), x, f, m) <==>
              Passes(x, LastFilter(calls, filter), FourBytes(regs, f), LastMask(calls, mask), FourBytes(regs, m))
  {
    SlotAfter(regs, calls, filter);
    SlotAfter(regs, calls, 6 + mask);
    PassesIsAccepts(x, LastFilter(calls, filter), FourBytes(regs, f), LastMask(calls, mask), FourBytes(regs, m));
  }

  lemma ModeAfter(regs: Regs, calls: seq<Call>)
    ensures Get(RunAll(regs, calls), 0x0F) & 0xE0 == 0 <==>
              || Get(regs, 0x0F) & 0xE0 == 0 || Touches(calls, 0x60) || Touches(calls, 0x70)
  {
    RestStands(regs, calls, 0x0F);
  }

  lemma AdmitsAfter(ctrl: bv8, x: Incoming, filtered: bool)
    ensures Admits(Without(ctrl, 0x60), x, filtered) == Admits(0, x, filtered) == filtered
  {}

  /** After any sequence of calls: RXB0 takes exactly the frames that filter 0 or 1, as last
      set, takes under mask 0, as last set; what was never set stands as it was.  Until a
      call names one of them, its RXM bits do as well. */
  lemma Rxb0TakesWhatWasSet(regs: Regs, calls: seq<Call>, x: Incoming)
    ensures Rxb0Takes(RunAll(regs, calls), x) <==>
              && (Get(regs, 0x0F) & 0xE0 == 0 || Touches(calls, 0x60) || Touches(calls, 0x70))
              && Admits(if Touches(calls, 0x60) then 0 else Get(regs, 0x60), x,
                        || Passes(x, LastFilter(calls, 0), FourBytes(regs, 0x00),
                                  LastMask(calls, 0), FourBytes(regs, 0x20))
                        || Passes(x, LastFilter(calls, 1), FourBytes(regs, 0x04),
                                  LastMask(calls, 0), FourBytes(regs, 0x20)))
  {
    ModeAfter(regs, calls);
    ControlLosesRxm(regs, calls, RXB0CTRL);
    FilterAfter(regs, calls, x, 0, 0x00, 0, 0x20);
    FilterAfter(regs, calls, x, 1, 0x04, 0, 0x20);
    AdmitsAfter(Get(regs, 0x60), x, TakenBy(RunAll(regs, calls), x, 0x00, 0x20)
                                    || TakenBy(RunAll(regs, calls), x, 0x04, 0x20));
  }

  /** Likewise RXB1, filters 2 to 5 and mask 1. */
  lemma Rxb1TakesWhatWasSet(regs: Regs, calls: seq<Call>, x: Incoming)
    ensures Rxb1Takes(RunAll(regs, calls), x) <==>
              && (Get(regs, 0x0F) & 0xE0 == 0 || Touches(calls, 0x60) || Touches(calls, 0x70))
              && Admits(if Touches(calls, 0x70) then 0 else Get(regs, 0x70), x,
                        || Passes(x, LastFilter(calls, 2), FourBytes(regs, 0x08),
                                  LastMask(calls, 1), FourBytes(regs, 0x24))
                        || Passes(x, LastFilter(calls, 3), FourBytes(regs, 0x10),
                                  LastMask(calls, 1), FourBytes(regs, 0x24))
                        || Passes(x, LastFilter(calls, 4), FourBytes(regs, 0x14),
                                  LastMask(calls, 1), FourBytes(regs, 0x24))
                        || Passes(x, LastFilter(calls, 5), FourBytes(regs, 0x18),
                                  LastMask(calls, 1), FourBytes(regs, 0x24)))
  {
    ModeAfter(regs, calls);
    ControlLosesRxm(regs, calls, RXB1CTRL);
    FilterAfter(regs, calls, x, 2, 0x08, 1, 0x24);
    FilterAfter(regs, calls, x, 3, 0x10, 1, 0x24);
    FilterAfter(regs, calls, x, 4, 0x14, 1, 0x24);
    FilterAfter(regs, calls, x, 5, 0x18, 1, 0x24);
    AdmitsAfter(Get(regs, 0x70), x,
                TakenBy(RunAll(regs, calls), x, 0x08, 0x24) || TakenBy(RunAll(regs, calls), x, 0x10, 0x24)
                || TakenBy(RunAll(regs, calls), x, 0x14, 0x24) || TakenBy(RunAll(regs, calls), x, 0x18, 0x24));
  }
}
