/** CAN frames as they are on the bus, and what the driver's packing code
    makes of them.  Identifiers follow section 3.2.1 of the Bosch CAN
    Specification 2.0 Part B: an 11-bit base identifier, to which the extended
    format adds 18 bits. */
module CanFrame {
  import opened Registers

  datatype WireFrame = WireFrame(extended: bool, id: bv32, data: seq<bv8>)

  /** What a read returns to the caller: the frame format is not reported. */
  datatype Message = Message(canId: bv32, data: seq<bv8>)

  datatype SendArguments = SendArguments(canId: bv32, data: seq<bv8>)

  /** A send call within the CAN payload limit. */
  type Request = r: SendArguments | |r.data| <= 8 witness SendArguments(0, [])

  type MessageBuffer = a: Addr | a <= RXB1CTRL witness RXB1CTRL

  // ----- The reference: which frame a message buffer stands for

  function BaseId(sidh: bv8, sidl: bv8): bv32 {
    ((sidh as bv32) << 3) | ((sidl >> 5) as bv32)
  }

  function ExtensionId(sidl: bv8, eid8: bv8, eid0: bv8): bv32 {
    (((sidl & 0x03) as bv32) << 16) | ((eid8 as bv32) << 8) | (eid0 as bv32)
  }

  function DataLength(regs: Regs, buffer: MessageBuffer): nat {
    LowNibble(Get(regs, buffer + 5))
  }

  function Payload(regs: Regs, buffer: MessageBuffer): seq<bv8> {
    seq(DataLength(regs, buffer), i requires 0 <= i < 16 => Get(regs, buffer + 6 + i))
  }

  function WireId(sidh: bv8, sidl: bv8, eid8: bv8, eid0: bv8): bv32 {
    if Has(sidl, 0x08) then (BaseId(sidh, sidl) << 18) | ExtensionId(sidl, eid8, eid0) else BaseId(sidh, sidl)
  }

  function BufferId(regs: Regs, buffer: MessageBuffer): bv32 {
    WireId(Get(regs, buffer + 1), Get(regs, buffer + 2), Get(regs, buffer + 3), Get(regs, buffer + 4))
  }

  function OnWire(regs: Regs, buffer: MessageBuffer): WireFrame {
    WireFrame(Has(Get(regs, buffer + 2), 0x08), BufferId(regs, buffer), Payload(regs, buffer))
  }

  predicate NeedsExtended(canId: bv32) {
    canId > 0x7FF
  }

  function Cut29(canId: bv32): bv32 {
    canId & 0x1FFF_FFFF
  }

  /** The frame a send request asks for: extended exactly when the identifier
      does not fit in 11 bits, and cut to 29 bits. */
  function Requested(r: Request): WireFrame {
    WireFrame(NeedsExtended(r.canId), Cut29(r.canId), r.data)
  }

  function Received(w: WireFrame): Message {
    Message(w.id, w.data)
  }

  // ----- The driver's packing: txBuffer0Send

  function Byte(x: bv32): bv8 {
    (x & 0xFF) as bv8
  }

  function ExtendedSidl(canId: bv32): bv8 {
    (0x08 | ((canId >> 16) & 0x3) | (((canId >> 18) & 0x07) << 5)) as bv8
  }

  function StandardSidl(canId: bv32): bv8 {
    ((canId & 0x07) << 5) as bv8
  }

  function HeaderSize(canId: bv32): nat {
    if NeedsExtended(canId) then 4 else 2
  }

  /** How many register writes one send makes: header, DLC, payload, TXREQ. */
  function SendSize(r: Request): nat {
    HeaderSize(r.canId) + 1 + |r.data| + 1
  }

  function SendAddress(r: Request, k: nat): Addr
    requires k < SendSize(r)
  {
    var h := HeaderSize(r.canId);
    if k == SendSize(r) - 1 then TXB0CTRL
    else if k >= h then TXB0CTRL + DLC + (k - h)
    else if h == 2 then TXB0CTRL + SIDH + k
    else TXB0CTRL + EID0 - k
  }

  function SendValue(r: Request, k: nat): bv8
    requires k < SendSize(r)
  {
    var h := HeaderSize(r.canId);
    if k == SendSize(r) - 1 then TXREQ
    else if k == h then LengthByte(|r.data|)
    else if k > h then r.data[k - h - 1]
    else if h == 2 then (if k == 0 then Byte(r.canId >> 3) else StandardSidl(r.canId))
    else if k == 0 then Byte(r.canId)
    else if k == 1 then Byte(r.canId >> 8)
    else if k == 2 then ExtendedSidl(r.canId)
    else Byte(r.canId >> 21)
  }

  lemma ExtendedHeaderEids(r: Request)
    requires NeedsExtended(r.canId)
    ensures SendAddress(r, 0) == TXB0CTRL + EID0 && SendValue(r, 0) == Byte(r.canId)
    ensures SendAddress(r, 1) == TXB0CTRL + EID8 && SendValue(r, 1) == Byte(r.canId >> 8)
  {}

  lemma ExtendedHeaderSids(r: Request)
    requires NeedsExtended(r.canId)
    ensures SendAddress(r, 2) == TXB0CTRL + SIDL && SendValue(r, 2) == ExtendedSidl(r.canId)
    ensures SendAddress(r, 3) == TXB0CTRL + SIDH && SendValue(r, 3) == Byte(r.canId >> 21)
  {}

  lemma StandardHeaderSids(r: Request)
    requires !NeedsExtended(r.canId)
    ensures SendAddress(r, 0) == TXB0CTRL + SIDH && SendValue(r, 0) == Byte(r.canId >> 3)
    ensures SendAddress(r, 1) == TXB0CTRL + SIDL && SendValue(r, 1) == StandardSidl(r.canId)
  {}

  /** The register file after the first k writes of a send. */
  function SentPrefix(regs: Regs, r: Request, k: nat): Regs
    requires k <= SendSize(r)
  {
    if k == 0 then regs else Write(SentPrefix(regs, r, k - 1), SendAddress(r, k - 1), SendValue(r, k - 1))
  }

  // ----- The driver's unpacking: rxBuffer0Read and rxBuffer1Read

  function UnpackId(sidh: bv8, sidl: bv8, eid8: bv8, eid0: bv8): bv32 {
    if Has(sidl, EXIDE) then
      ((sidh as bv32) << 21) | (((sidl >> 5) as bv32) << 18)
      | (((sidl & 0x03) as bv32) << 16) | ((eid8 as bv32) << 8) | (eid0 as bv32)
    else
      ((sidh as bv32) << 3) | ((sidl >> 5) as bv32)
  }

  function Unpack(regs: Regs, buffer: MessageBuffer): Message {
    Message(UnpackId(Get(regs, buffer + SIDH), Get(regs, buffer + SIDL), Get(regs, buffer + EID8),
        Get(regs, buffer + EID0)),
            Payload(regs, buffer))
  }

  // ----- Reading is right

  lemma UnpackIdIsReference(sidh: bv8, sidl: bv8, eid8: bv8, eid0: bv8)
    ensures UnpackId(sidh, sidl, eid8, eid0) == WireId(sidh, sidl, eid8, eid0)
  {}

  lemma UnpackIsReceived(regs: Regs, buffer: MessageBuffer)
    ensures Unpack(regs, buffer) == Received(OnWire(regs, buffer))
  {
    UnpackIdIsReference(Get(regs, buffer + SIDH), Get(regs, buffer + SIDL), Get(regs, buffer + EID8),
        Get(regs, buffer + EID0));
  }

  // ----- Sending is right

  lemma PackedExtendedId(canId: bv32)
    ensures Has(ExtendedSidl(canId), EXIDE)
    ensures WireId(Byte(canId >> 21), ExtendedSidl(canId), Byte(canId >> 8), Byte(canId)) == Cut29(canId)
  {}

  lemma PackedStandardId(canId: bv32, eid8: bv8, eid0: bv8)
    requires !NeedsExtended(canId)
    ensures !Has(StandardSidl(canId), EXIDE)
    ensures WireId(Byte(canId >> 3), StandardSidl(canId), eid8, eid0) == Cut29(canId)
  {}

  /** The first k writes of a send have landed and still stand. */
  predicate Landed(regs: Regs, r: Request, k: nat)
    requires k <= SendSize(r)
  {
    forall i :: 0 <= i < k ==> Get(regs, SendAddress(r, i)) == SendValue(r, i)
  }

  lemma LandedHeader(r: Request, regs: Regs)
    requires Landed(regs, r, SendSize(r) - 1)
    ensures Has(Get(regs, TXB0CTRL + SIDL), EXIDE) == NeedsExtended(r.canId)
    ensures BufferId(regs, TXB0CTRL) == Cut29(r.canId)
  {
    if NeedsExtended(r.canId) {
      assert SendAddress(r, 0) == TXB0CTRL + EID0 && SendAddress(r, 1) == TXB0CTRL + EID8;
      assert SendAddress(r, 2) == TXB0CTRL + SIDL && SendAddress(r, 3) == TXB0CTRL + SIDH;
      PackedExtendedId(r.canId);
    } else {
      assert SendAddress(r, 0) == TXB0CTRL + SIDH && SendAddress(r, 1) == TXB0CTRL + SIDL;
      PackedStandardId(r.canId, Get(regs, TXB0CTRL + EID8), Get(regs, TXB0CTRL + EID0));
    }
  }

  lemma LandedPayload(r: Request, regs: Regs)
    requires Landed(regs, r, SendSize(r) - 1)
    ensures Payload(regs, TXB0CTRL) == r.data
  {
    var h := HeaderSize(r.canId);
    assert SendAddress(r, h) == TXB0CTRL + DLC;
    forall i | 0 <= i < |r.data|
      ensures Get(regs, TXB0CTRL + D0 + i) == r.data[i]
    {
      assert SendAddress(r, h + 1 + i) == TXB0CTRL + D0 + i;
    }
  }

  /** Once every write but the last has landed, TXB0 stands for exactly the frame asked for. */
  lemma LandedIsRequested(r: Request, regs: Regs)
    requires Landed(regs, r, SendSize(r) - 1)
    ensures OnWire(regs, TXB0CTRL) == Requested(r)
  {
    LandedHeader(r, regs);
    LandedPayload(r, regs);
  }

  /** And it is a data frame: RTR and the unused bits of TXB0DLC are clear. */
  lemma LandedIsData(r: Request, regs: Regs)
    requires Landed(regs, r, SendSize(r) - 1)
    ensures Get(regs, 0x35) & 0xF0 == 0
  {
    assert SendAddress(r, HeaderSize(r.canId)) == 0x35;
  }

  /** The writes of a send stay inside TXB0, hit distinct registers, and only the
      last one touches TXB0CTRL. */
  lemma SendStaysInBuffer(r: Request, k: nat)
    requires k < SendSize(r)
    ensures TXB0CTRL <= SendAddress(r, k) <= TXB0CTRL + 13
    ensures SendAddress(r, k) == TXB0CTRL <==> k == SendSize(r) - 1
    ensures forall i :: 0 <= i < k ==> SendAddress(r, i) != SendAddress(r, k)
  {}

  lemma NextWriteLands(regs: Regs, r: Request, k: nat)
    requires k < SendSize(r) && Landed(regs, r, k)
    ensures Landed(Write(regs, SendAddress(r, k), SendValue(r, k)), r, k + 1)
  {}

  lemma {:induction false} PrefixLands(regs: Regs, r: Request, k: nat)
    requires k <= SendSize(r)
    ensures Landed(SentPrefix(regs, r, k), r, k)
    ensures forall a: Addr :: !(TXB0CTRL <= a <= TXB0CTRL + 13) ==> Get(SentPrefix(regs, r, k), a) == Get(regs, a)
  {
    if k > 0 {
      PrefixLands(regs, r, k - 1);
      NextWriteLands(SentPrefix(regs, r, k - 1), r, k - 1);
      SendStaysInBuffer(r, k - 1);
    }
  }
}
