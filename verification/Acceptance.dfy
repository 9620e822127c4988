/** The chip's acceptance test on registers (DS20001801, section 4.5) against
    acceptance on identifiers. */
module Acceptance {
  import opened Registers
  import opened CanFrame
  import opened Filters

  predicate Matches(x: bv8, filter: bv8, mask: bv8) {
    Only(x, mask) == Only(filter, mask)
  }

  /** The chip's test of a frame with header h and first payload bytes d0, d1.  A
      filter takes frames of its own format only; a mask has no format bit; under a
      standard filter the EID bytes are compared with the payload. */
  predicate Accepts(h: SlotBytes, d0: bv8, d1: bv8, f: SlotBytes, m: SlotBytes) {
    && Has(h.sidl, EXIDE) == Has(f.sidl, EXIDE)
    && if Has(h.sidl, EXIDE)
       then MatchesExtended(h, f, m)
       else MatchesStandard(h, f, m) && Matches(d0, f.eid8, m.eid8) && Matches(d1, f.eid0, m.eid0)
  }

  predicate MatchesExtended(h: SlotBytes, f: SlotBytes, m: SlotBytes) {
    FourMatch(h, f.sidh, f.sidl, f.eid8, f.eid0, m.sidh, m.sidl, m.eid8, m.eid0)
  }

  predicate FourMatch(h: SlotBytes, sidh: bv8, sidl: bv8, eid8: bv8, eid0: bv8, msidh: bv8,
      msidl: bv8, meid8: bv8, meid0: bv8) {
    Matches(h.sidh, sidh, msidh) && Matches(h.sidl, sidl, Only(msidl, 0xE3)) && Matches(h.eid8, eid8, meid8)
        && Matches(h.eid0, eid0, meid0)
  }

  predicate ExtendedBytesMatch(h: SlotBytes, filter: bv32, mask: bv32) {
    FourMatch(h, Byte(filter >> 21), FilterSidl(filter), Byte(filter >> 8), Byte(filter),
              Byte(mask >> 21), FilterSidl(mask), Byte(mask >> 8), Byte(mask))
  }

  predicate MatchesStandard(h: SlotBytes, f: SlotBytes, m: SlotBytes) {
    Matches(h.sidh, f.sidh, m.sidh) && Matches(h.sidl, f.sidl, Only(m.sidl, 0xE0))
  }

  function HeaderId(h: SlotBytes): bv32 {
    WireId(h.sidh, h.sidl, h.eid8, h.eid0)
  }

  predicate SameUnder(x: bv32, y: bv32, mask: bv32) {
    x & mask == y & mask
  }

  /** With filter and mask both set as extended: accepted exactly the extended frames
      whose identifier agrees with the filter on the mask's 29 bits, whatever the
      header's undefined bits and the payload. */
  lemma ExtendedAcceptance(h: SlotBytes, d0: bv8, d1: bv8, filter: bv32, mask: bv32)
    ensures Accepts(h, d0, d1, Encoded(Setting(filter, true)), Encoded(Setting(mask, true))) <==>
              Has(h.sidl, EXIDE) && SameUnder(HeaderId(h), filter, mask & 0x1FFF_FFFF)
  {
    FormatBits(filter);
    AcceptsExtended(h, d0, d1, Encoded(Setting(filter, true)), Encoded(Setting(mask, true)));
    if Has(h.sidl, EXIDE) {
      ExtendedMatch(h, filter, mask);
      ExtendedEncodings(h, filter, mask);
    }
  }

  /** With both set as standard: exactly the standard frames that agree on the mask's
      11 bits. */
  lemma StandardAcceptance(h: SlotBytes, d0: bv8, d1: bv8, filter: bv32, mask: bv32)
    ensures Accepts(h, d0, d1, Encoded(Setting(filter, false)), Encoded(Setting(mask, false))) <==>
              !Has(h.sidl, EXIDE) && SameUnder(HeaderId(h), filter, mask & 0x7FF)
  {
    FormatBits(filter);
    if !Has(h.sidl, EXIDE) {
      StandardMatch(h, filter, mask);
      ZeroMask(d0, 0);
      ZeroMask(d1, 0);
    }
  }

  lemma AcceptsExtended(h: SlotBytes, d0: bv8, d1: bv8, f: SlotBytes, m: SlotBytes)
    requires Has(f.sidl, EXIDE)
    ensures Accepts(h, d0, d1, f, m) <==> Has(h.sidl, EXIDE) && MatchesExtended(h, f, m)
  {}

  lemma ExtendedEncodings(h: SlotBytes, filter: bv32, mask: bv32)
    ensures MatchesExtended(h, Encoded(Setting(filter, true)), Encoded(Setting(mask, true)))
            <==> ExtendedBytesMatch(h, filter, mask)
  {}

  lemma FormatBits(id: bv32)
    ensures Has(FilterSidl(id), EXIDE) && !Has(StandardSidl(id), EXIDE)
  {}

  lemma ZeroMask(x: bv8, filter: bv8)
    ensures Matches(x, filter, 0)
  {}

  lemma MaskedBytes(x: bv32, m: bv32)
    ensures Only(Byte(x), Byte(m)) == Byte(x & m)
    ensures Only(Byte(x >> 21), Byte(m >> 21)) == Byte((x & m) >> 21)
    ensures Only(Byte(x >> 8), Byte(m >> 8)) == Byte((x & m) >> 8)
    ensures Only(Byte(x >> 3), Byte(m >> 3)) == Byte((x & m) >> 3)
  {}

  lemma MaskedSidl(x: bv32, m: bv32)
    ensures Only(FilterSidl(x), Only(FilterSidl(m), 0xE3)) == Only(FilterSidl(x & m), 0xE3)
    ensures Only(StandardSidl(x), Only(StandardSidl(m), 0xE0)) == StandardSidl(x & m)
  {}

  // Two identifiers agree on one header field

  predicate SameLow29(a: bv32, b: bv32) { a & 0x1FFF_FFFF == b & 0x1FFF_FFFF }
  predicate SameLow11(a: bv32, b: bv32) { a & 0x7FF == b & 0x7FF }
  predicate SameSidh(a: bv32, b: bv32) { Byte(a >> 21) == Byte(b >> 21) }
  predicate SameSidl(a: bv32, b: bv32) { Only(FilterSidl(a), 0xE3) == Only(FilterSidl(b), 0xE3) }
  predicate SameEid8(a: bv32, b: bv32) { Byte(a >> 8) == Byte(b >> 8) }
  predicate SameEid0(a: bv32, b: bv32) { Byte(a) == Byte(b) }
  predicate SameStandardSidh(a: bv32, b: bv32) { Byte(a >> 3) == Byte(b >> 3) }
  predicate SameStandardSidl(a: bv32, b: bv32) { StandardSidl(a) == StandardSidl(b) }

  lemma FieldsOfSame(a: bv32, b: bv32)
    ensures SameLow29(a, b) ==> SameSidh(a, b) && SameSidl(a, b) && SameEid8(a, b) && SameEid0(a, b)
    ensures SameLow11(a, b) ==> SameStandardSidh(a, b) && SameStandardSidl(a, b)
  {}

  lemma SameOfFields(a: bv32, b: bv32)
    ensures SameSidh(a, b) && SameSidl(a, b) && SameEid8(a, b) && SameEid0(a, b) ==> SameLow29(a, b)
    ensures SameStandardSidh(a, b) && SameStandardSidl(a, b) ==> SameLow11(a, b)
  {}

  lemma SameUnderIsSameLow(x: bv32, y: bv32, m: bv32)
    ensures SameUnder(x, y, m & 0x1FFF_FFFF) == SameLow29(x & m, y & m)
    ensures SameUnder(x, y, m & 0x7FF) == SameLow11(x & m, y & m)
  {}

  /** Agreement under a mask, field by field. */
  lemma SameUnderIsFields(x: bv32, y: bv32, m: bv32)
    ensures SameUnder(x, y, m & 0x1FFF_FFFF) <==>
              SameSidh(x & m, y & m) && SameSidl(x & m, y & m) && SameEid8(x & m, y & m) && SameEid0(x & m, y & m)
    ensures SameUnder(x, y, m & 0x7FF) <==> SameStandardSidh(x & m, y & m) && SameStandardSidl(x & m, y & m)
  {
    SameUnderIsSameLow(x, y, m);
    FieldsOfSame(x & m, y & m);
    SameOfFields(x & m, y & m);
  }

  lemma MatchesAreFields(x: bv32, y: bv32, m: bv32)
    ensures Matches(Byte(x >> 21), Byte(y >> 21), Byte(m >> 21)) == SameSidh(x & m, y & m)
    ensures Matches(FilterSidl(x), FilterSidl(y), Only(FilterSidl(m), 0xE3)) == SameSidl(x & m, y & m)
    ensures Matches(Byte(x >> 8), Byte(y >> 8), Byte(m >> 8)) == SameEid8(x & m, y & m)
    ensures Matches(Byte(x), Byte(y), Byte(m)) == SameEid0(x & m, y & m)
    ensures Matches(Byte(x >> 3), Byte(y >> 3), Byte(m >> 3)) == SameStandardSidh(x & m, y & m)
    ensures Matches(StandardSidl(x), StandardSidl(y), Only(StandardSidl(m), 0xE0)) == SameStandardSidl(x & m, y & m)
  {
    MaskedBytes(x, m);
    MaskedBytes(y, m);
    MaskedSidl(x, m);
    MaskedSidl(y, m);
  }

  lemma ExtendedHeaderFields(sidh: bv8, sidl: bv8, eid8: bv8, eid0: bv8)
    requires Has(sidl, EXIDE)
    ensures var id := WireId(sidh, sidl, eid8, eid0);
            Byte(id >> 21) == sidh && Only(FilterSidl(id), 0xE3) == Only(sidl, 0xE3)
                && Byte(id >> 8) == eid8 && Byte(id) == eid0
  {}

  lemma StandardHeaderFields(sidh: bv8, sidl: bv8, eid8: bv8, eid0: bv8)
    requires !Has(sidl, EXIDE)
    ensures var id := WireId(sidh, sidl, eid8, eid0);
            Byte(id >> 3) == sidh && Only(StandardSidl(id), 0xE0) == Only(sidl, 0xE0)
  {}

  /** Header bits outside the compared ones do not matter. */
  lemma SameComparedBits(x: bv8, y: bv8, f: bv8, m: bv8, bits: bv8)
    requires Only(x, bits) == Only(y, bits)
    ensures Matches(x, f, Only(m, bits)) == Matches(y, f, Only(m, bits))
  {}

  lemma ExtendedMatch(h: SlotBytes, filter: bv32, mask: bv32)
    requires Has(h.sidl, EXIDE)
    ensures SameUnder(HeaderId(h), filter, mask & 0x1FFF_FFFF) <==>
              ExtendedBytesMatch(h, filter, mask)
  {
    var id := HeaderId(h);
    ExtendedHeaderFields(h.sidh, h.sidl, h.eid8, h.eid0);
    SameComparedBits(FilterSidl(id), h.sidl, FilterSidl(filter), FilterSidl(mask), 0xE3);
    SameUnderIsFields(id, filter, mask);
    MatchesAreFields(id, filter, mask);
  }

  lemma StandardMatch(h: SlotBytes, filter: bv32, mask: bv32)
    requires !Has(h.sidl, EXIDE)
    ensures SameUnder(HeaderId(h), filter, mask & 0x7FF) <==>
              && Matches(h.sidh, Byte(filter >> 3), Byte(mask >> 3))
              && Matches(h.sidl, StandardSidl(filter), Only(StandardSidl(mask), 0xE0))
  {
    var id := HeaderId(h);
    StandardHeaderFields(h.sidh, h.sidl, h.eid8, h.eid0);
    SameComparedBits(StandardSidl(id), h.sidl, StandardSidl(filter), StandardSidl(mask), 0xE0);
    SameUnderIsFields(id, filter, mask);
    MatchesAreFields(id, filter, mask);
  }

  // ----- Does the payload matter?

  ghost predicate IgnoresPayload(f: SlotBytes, m: SlotBytes) {
    forall h, d0, d1, e0, e1 :: Accepts(h, d0, d1, f, m) == Accepts(h, e0, e1, f, m)
  }

  /** Under a mask set as standard the payload never matters. */
  lemma StandardMaskIgnoresPayload(filter: Setting, mask: bv32)
    ensures IgnoresPayload(Encoded(filter), Encoded(Setting(mask, false)))
  {}

  /** A standard filter under a mask set as extended ignores the payload exactly when
      the mask's low 16 bits are clear. */
  lemma MixedFormatsIgnorePayload(filter: bv32, mask: bv32)
    ensures IgnoresPayload(Encoded(Setting(filter, false)), Encoded(Setting(mask, true))) <==> mask & 0xFFFF == 0
  {
    var f, m := Encoded(Setting(filter, false)), Encoded(Setting(mask, true));
    FormatBits(filter);
    LowBytes(mask);
    SelfMatch(f.sidh, m.sidh);
    SelfMatch(f.sidl, Only(m.sidl, 0xE0));
    SelfMatch(0, m.eid8);
    SelfMatch(0, m.eid0);
    assert Accepts(f, 0, 0, f, m);
    assert Accepts(f, m.eid8, m.eid0, f, m) <==> m.eid8 == 0 && m.eid0 == 0 by {
      MaskAgainstZero(m.eid8);
      MaskAgainstZero(m.eid0);
    }
    if m.eid8 == 0 && m.eid0 == 0 {
      forall h, d0, d1, e0, e1
        ensures Accepts(h, d0, d1, f, m) == Accepts(h, e0, e1, f, m)
      {
        ZeroMask(d0, f.eid8);
        ZeroMask(d1, f.eid0);
        ZeroMask(e0, f.eid8);
        ZeroMask(e1, f.eid0);
      }
    }
  }

  lemma LowBytes(mask: bv32)
    ensures mask & 0xFFFF == 0 <==> Byte(mask >> 8) == 0 && Byte(mask) == 0
  {}

  lemma SelfMatch(x: bv8, mask: bv8)
    ensures Matches(x, x, mask)
  {}

  lemma MaskAgainstZero(m: bv8)
    ensures Matches(m, 0, m) <==> m == 0
  {}
}
