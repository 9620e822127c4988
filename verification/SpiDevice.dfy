/** The chip's end of the SPI bus: READ, WRITE and BIT MODIFY, byte by byte
    (DS20001801, section 12). */
module SpiDevice {
  import opened Registers

  const CAN_READ: bv8 := 0x03
  const CAN_WRITE: bv8 := 0x02
  const CAN_BIT_MODIFY: bv8 := 0x05

  /** A selected chip: its registers and the bytes shifted in since chip select
      fell.  While it has nothing to say its output floats. */
  datatype Device = Device(regs: Regs, frame: seq<bv8>, floating: bv8)

  function AddressByte(a: Addr): bv8 {
    a as bv8
  }

  /** The number a byte stands for, bit by bit. */
  function ByteAddress(b: bv8): Addr {
    (if b & 0x80 != 0 then 128 else 0) + (if b & 0x40 != 0 then 64 else 0)
    + (if b & 0x20 != 0 then 32 else 0) + (if b & 0x10 != 0 then 16 else 0)
    + (if b & 0x08 != 0 then 8 else 0) + (if b & 0x04 != 0 then 4 else 0)
    + (if b & 0x02 != 0 then 2 else 0) + (if b & 0x01 != 0 then 1 else 0)
  }

  lemma AddressesAreNumbers(b: bv8)
    ensures ByteAddress(b) == b as int
  {}

  lemma AddressRoundTrip(a: Addr)
    ensures ByteAddress(AddressByte(a)) == a
  {
    AddressesAreNumbers(a as bv8);
  }

  /** The k-th address after a: the chip's address counter wraps. */
  function Advance(a: Addr, k: nat): Addr {
    (a + k) % 256
  }

  function Reply(d: Device): bv8 {
    if |d.frame| >= 2 && d.frame[0] == 0x03
    then Get(d.regs, Advance(ByteAddress(d.frame[1]), |d.frame| - 2))
    else d.floating
  }

  function Accept(d: Device, b: bv8): Device {
    var n := |d.frame|;
    var regs' :=
      if n >= 2 && d.frame[0] == 0x02 then Write(d.regs, Advance(ByteAddress(d.frame[1]), n - 2), b)
      else if n == 3 && d.frame[0] == 0x05 then BitModify(d.regs, ByteAddress(d.frame[1]), d.frame[2], b)
      else d.regs;
    Device(regs', d.frame + [b], d.floating)
  }

  /** The device after a burst of bytes, and what it clocked out meanwhile. */
  function AcceptAll(d: Device, bytes: seq<bv8>): Device {
    if bytes == [] then d else Accept(AcceptAll(d, bytes[..|bytes| - 1]), bytes[|bytes| - 1])
  }

  function Replies(d: Device, bytes: seq<bv8>): (replies: seq<bv8>)
    ensures |replies| == |bytes|
  {
    if bytes == [] then [] else Replies(d, bytes[..|bytes| - 1]) + [Reply(AcceptAll(d, bytes[..|bytes| - 1]))]
  }

  lemma AcceptAllNext(d: Device, bytes: seq<bv8>, k: nat)
    requires k < |bytes|
    ensures AcceptAll(d, bytes[..k + 1]) == Accept(AcceptAll(d, bytes[..k]), bytes[k])
    ensures Replies(d, bytes[..k + 1]) == Replies(d, bytes[..k]) + [Reply(AcceptAll(d, bytes[..k]))]
  {
    assert bytes[..k + 1][..k] == bytes[..k];
  }

  lemma {:induction false} AcceptAllConcat(d: Device, a: seq<bv8>, b: seq<bv8>)
    ensures AcceptAll(d, a + b) == AcceptAll(AcceptAll(d, a), b)
    ensures Replies(d, a + b) == Replies(d, a) + Replies(AcceptAll(d, a), b)
    decreases |b|
  {
    if b == [] {
      assert a + b == a;
    } else {
      assert (a + b)[..|a + b| - 1] == a + b[..|b| - 1];
      AcceptAllConcat(d, a, b[..|b| - 1]);
    }
  }

  // ----- Commands

  datatype Command = ReadByte(addr: Addr) | WriteByte(addr: Addr, data: bv8)
      | ModifyBits(addr: Addr, mask: bv8, data: bv8)

  /** The bytes the driver shifts out for a command; for a read the third is its
      zeroed receive byte, sent to clock the answer in. */
  function CommandBytes(c: Command): seq<bv8> {
    match c
    case ReadByte(a) => [CAN_READ, AddressByte(a), 0]
    case WriteByte(a, data) => [CAN_WRITE, AddressByte(a), data]
    case ModifyBits(a, mask, data) => [CAN_BIT_MODIFY, AddressByte(a), mask, data]
  }

  function Effect(c: Command, regs: Regs): Regs {
    match c
    case ReadByte(_) => regs
    case WriteByte(a, data) => Write(regs, a, data)
    case ModifyBits(a, mask, data) => BitModify(regs, a, mask, data)
  }

  /** Until its last byte a command leaves the registers alone; with the last byte
      it does its whole work, and that is when a read's answer is sampled. */
  lemma CommandByteEffect(c: Command, d: Device, k: nat)
    requires k < |CommandBytes(c)| && d.frame == CommandBytes(c)[..k]
    ensures Accept(d, CommandBytes(c)[k]).frame == CommandBytes(c)[..k + 1]
    ensures Accept(d, CommandBytes(c)[k]).regs == if k == |CommandBytes(c)| - 1 then Effect(c, d.regs) else d.regs
    ensures c.ReadByte? && k == 2 ==> Reply(d) == Get(d.regs, c.addr)
  {
    AddressRoundTrip(c.addr);
  }

  /** Shifted out in one chip-select interval, a command does its effect, and a read
      has its answer in the third byte clocked in. */
  lemma CommandRuns(c: Command, d: Device)
    requires d.frame == []
    ensures AcceptAll(d, CommandBytes(c)) == Device(Effect(c, d.regs), CommandBytes(c), d.floating)
    ensures c.ReadByte? ==> Replies(d, CommandBytes(c))[2] == Get(d.regs, c.addr)
  {
    var bytes := CommandBytes(c);
    PrefixRuns(c, d, |bytes| - 1);
    CommandByteEffect(c, AcceptAll(d, bytes[..|bytes| - 1]), |bytes| - 1);
    AcceptAllNext(d, bytes, |bytes| - 1);
    assert bytes[..|bytes|] == bytes;
  }

  lemma {:induction false} PrefixRuns(c: Command, d: Device, k: nat)
    requires d.frame == [] && k < |CommandBytes(c)|
    ensures AcceptAll(d, CommandBytes(c)[..k]) == Device(d.regs, CommandBytes(c)[..k], d.floating)
  {
    if k > 0 {
      PrefixRuns(c, d, k - 1);
      CommandByteEffect(c, AcceptAll(d, CommandBytes(c)[..k - 1]), k - 1);
      AcceptAllNext(d, CommandBytes(c), k - 1);
    }
  }
}
