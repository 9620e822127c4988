/** What survives a trip from a sender's TXB0 to a receiver's buffer, and back. */
module FrameRoundTrip {
  import opened Registers
  import opened CanFrame

  // ----- There

  /** The bits of SIDL a frame carries: the low identifier bits and the format. */
  function FrameSidl(sidl: bv8): bv8 {
    if Has(sidl, EXIDE) then Only(sidl, 0xEB) else Only(sidl, 0xE8)
  }

  /** A receive buffer as the chip fills it from a frame in tx's TXB0.  It leaves
      SRR, the unimplemented bits, the upper bits of DLC and, for a standard
      frame, both EID bytes as they happen to be. */
  predicate CarriedOver(tx: Regs, rx: Regs, buffer: MessageBuffer) {
    var sidl := Get(tx, TXB0CTRL + SIDL);
    && Get(rx, buffer + SIDH) == Get(tx, TXB0CTRL + SIDH)
    && FrameSidl(Get(rx, buffer + SIDL)) == FrameSidl(sidl)
    && (Has(sidl, EXIDE) ==>
          Get(rx, buffer + EID8) == Get(tx, TXB0CTRL + EID8) && Get(rx, buffer + EID0) == Get(tx, TXB0CTRL + EID0))
    && Payload(rx, buffer) == Payload(tx, TXB0CTRL)
  }

  lemma SameCarriedId(sidh: bv8, a: bv8, eid8: bv8, eid0: bv8, b: bv8, eid8': bv8, eid0': bv8)
    requires FrameSidl(a) == FrameSidl(b) && (Has(b, EXIDE) ==> eid8 == eid8' && eid0 == eid0')
    ensures Has(a, EXIDE) == Has(b, EXIDE) && WireId(sidh, a, eid8, eid0) == WireId(sidh, b, eid8', eid0')
  {}

  lemma CarriedIsSameFrame(tx: Regs, rx: Regs, buffer: MessageBuffer)
    requires CarriedOver(tx, rx, buffer)
    ensures OnWire(rx, buffer) == OnWire(tx, TXB0CTRL)
  {
    SameCarriedId(Get(tx, TXB0CTRL + SIDH),
                  Get(rx, buffer + SIDL), Get(rx, buffer + EID8), Get(rx, buffer + EID0),
                  Get(tx, TXB0CTRL + SIDL), Get(tx, TXB0CTRL + EID8), Get(tx, TXB0CTRL + EID0));
  }

  /** For every request: loaded by txBuffer0Send, carried to either receive buffer
      and unpacked, it is the same payload under the identifier cut to 29 bits. */
  lemma SentIsReceived(r: Request, before: Regs, rx: Regs, buffer: MessageBuffer)
    requires CarriedOver(SentPrefix(before, r, SendSize(r)), rx, buffer)
    ensures Unpack(rx, buffer) == Message(Cut29(r.canId), r.data)
    ensures r.canId < 0x2000_0000 ==> Unpack(rx, buffer).canId == r.canId
  {
    var tx := SentPrefix(before, r, SendSize(r));
    PrefixLands(before, r, SendSize(r));
    LandedIsRequested(r, tx);
    CarriedIsSameFrame(tx, rx, buffer);
    UnpackIsReceived(rx, buffer);
    SmallIdsFit(r.canId);
  }

  lemma SmallIdsFit(canId: bv32)
    ensures canId < 0x2000_0000 ==> Cut29(canId) == canId
  {}

  /** The two receive buffers are read alike: RXB1 gives what RXB0 would on a
      register file shifted down by 0x10. */
  lemma BuffersReadAlike(regs: Regs, shifted: Regs)
    requires forall a: Addr {:trigger Get(shifted, a)} :: RXB0CTRL < a < 0x78 ==> Get(shifted, a) == Get(regs, a + 0x10)
    ensures Unpack(regs, RXB1CTRL) == Unpack(shifted, RXB0CTRL)
  {}

  // ----- And back

  datatype Header = StandardHeader(sidh: bv8, sidl: bv8) | ExtendedHeader(sidh: bv8, sidl: bv8, eid8: bv8, eid0: bv8)

  /** The identifier registers of a received frame, without the bits it does not define. */
  function Canonical(sidh: bv8, sidl: bv8, eid8: bv8, eid0: bv8): Header {
    if Has(sidl, EXIDE) then ExtendedHeader(sidh, FrameSidl(sidl), eid8, eid0)
    else StandardHeader(sidh, FrameSidl(sidl))
  }

  /** The identifier registers txBuffer0Send writes for an identifier. */
  function Packed(canId: bv32): Header {
    if NeedsExtended(canId)
    then ExtendedHeader(Byte(canId >> 21), ExtendedSidl(canId), Byte(canId >> 8), Byte(canId))
    else StandardHeader(Byte(canId >> 3), StandardSidl(canId))
  }

  /** Sending on under the identifier a read returned keeps the header exactly when
      the frame was standard or its extended identifier does not fit in 11 bits. */
  lemma RepackedIsCanonical(sidh: bv8, sidl: bv8, eid8: bv8, eid0: bv8)
    ensures Packed(UnpackId(sidh, sidl, eid8, eid0)) == Canonical(sidh, sidl, eid8, eid0)
            <==> !Has(sidl, EXIDE) || NeedsExtended(UnpackId(sidh, sidl, eid8, eid0))
  {
    var id := UnpackId(sidh, sidl, eid8, eid0);
    if Has(sidl, EXIDE) {
      RepackedExtended(sidh, sidl, eid8, eid0);
    } else {
      RepackedStandard(sidh, sidl, eid8, eid0);
    }
  }

  lemma RepackedExtended(sidh: bv8, sidl: bv8, eid8: bv8, eid0: bv8)
    requires Has(sidl, EXIDE)
    ensures var id := UnpackId(sidh, sidl, eid8, eid0);
            Byte(id >> 21) == sidh && ExtendedSidl(id) == FrameSidl(sidl) && Byte(id >> 8) == eid8 && Byte(id) == eid0
  {}

  lemma RepackedStandard(sidh: bv8, sidl: bv8, eid8: bv8, eid0: bv8)
    requires !Has(sidl, EXIDE)
    ensures var id := UnpackId(sidh, sidl, eid8, eid0);
            !NeedsExtended(id) && Byte(id >> 3) == sidh && StandardSidl(id) == FrameSidl(sidl)
  {}
}
