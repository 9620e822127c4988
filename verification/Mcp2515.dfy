/** The MCP2515 driver object over an SPI object it has to itself. */
module Mcp2515 {
  import opened Registers
  import opened CanFrame
  import opened Filters
  import opened SpiDevice
  import opened Spi

  class Mcp2515 {
    const spi: Spi

    ghost predicate Idle()
      reads spi`csActive, spi.dma`callbackList, spi.dma`status, spi.dma`semaphores
    {
      spi.Valid() && !spi.csActive
    }

    function Chip(): Regs
      reads spi`device
    {
      spi.device.regs
    }

    constructor (spi: Spi)
      ensures this.spi == spi
    {
      this.spi := spi;
    }

    // ----- Register commands

    /** A whole command under one select. */
    method TransferCommand(cmd: array<bv8>, ghost c: Command)
      requires spi.Valid() && spi.csActive && spi.device.frame == []
      requires cmd[..] == CommandBytes(c)
      modifies spi`device, spi.dma`status, spi.dma`semaphores, cmd
      ensures spi.Valid() && Chip() == Effect(c, old(Chip()))
    {
      ghost var selected := spi.device;
      assert cmd[..cmd.Length] == cmd[..];
      var sent, lostOut := spi.Transfer(cmd, null, cmd.Length);
      CommandRuns(c, selected);
    }

    /** Two transfers under one select: the command, then a byte to clock the answer in. */
    method ReadByte(addr: Addr) returns (value: bv8)
      requires Idle()
      modifies spi`csActive, spi`holds, spi`device, spi.dma`status, spi.dma`semaphores
      ensures Idle() && spi.holds == old(spi.holds) && Chip() == old(Chip())
      ensures value == Get(Chip(), addr)
    {
      spi.CsSelect();
      value := TransferRead(addr);
      spi.CsDeselect();
    }

    method TransferRead(addr: Addr) returns (value: bv8)
      requires spi.Valid() && spi.csActive && spi.device.frame == []
      modifies spi`device, spi.dma`status, spi.dma`semaphores
      ensures spi.Valid() && Chip() == old(Chip()) && value == Get(Chip(), addr)
    {
      var cmd := new bv8[2] [CAN_READ, AddressByte(addr)];
      var rdata := new bv8[1] [0];
      ghost var selected, question, clocked := spi.device, cmd[..2], rdata[..1];
      var sent, lostOut := spi.Transfer(cmd, null, 2);
      var received, lostIn := spi.Transfer(null, rdata, 1);
      ReadRuns(selected, addr, question, clocked);
      value := rdata[0];
      assert value == rdata[..1][0];
    }

    method WriteByte(addr: Addr, data: bv8)
      requires Idle()
      modifies spi`csActive, spi`holds, spi`device, spi.dma`status, spi.dma`semaphores
      ensures Idle() && spi.holds == old(spi.holds) && Chip() == Write(old(Chip()), addr, data)
    {
      spi.CsSelect();
      var cmd := new bv8[3] [CAN_WRITE, AddressByte(addr), data];
      TransferCommand(cmd, Command.WriteByte(addr, data));
      spi.CsDeselect();
    }

    method BitModify(addr: Addr, mask: bv8, data: bv8)
      requires Idle()
      modifies spi`csActive, spi`holds, spi`device, spi.dma`status, spi.dma`semaphores
      ensures Idle() && spi.holds == old(spi.holds) && Chip() == Registers.BitModify(old(Chip()), addr, mask, data)
    {
      spi.CsSelect();
      var cmd := new bv8[4] [CAN_BIT_MODIFY, AddressByte(addr), mask, data];
      TransferCommand(cmd, Command.ModifyBits(addr, mask, data));
      spi.CsDeselect();
    }

    // ----- Frames

    method WriteHeader(canId: bv32, ghost r: Request)
      requires Idle() && r.canId == canId
      modifies spi`csActive, spi`holds, spi`device, spi.dma`status, spi.dma`semaphores
      ensures Idle() && spi.holds == old(spi.holds) && Chip() == SentPrefix(old(Chip()), r, HeaderSize(canId))
    {
      if NeedsExtended(canId) {
        WriteByte(TXB0CTRL + EID0, Byte(canId));
        WriteByte(TXB0CTRL + EID8, Byte(canId >> 8));
        WriteByte(TXB0CTRL + SIDL, ExtendedSidl(canId));
        WriteByte(TXB0CTRL + SIDH, Byte(canId >> 21));
        ExtendedHeaderIsPrefix(old(Chip()), r);
      } else {
        WriteByte(TXB0CTRL + SIDH, Byte(canId >> 3));
        WriteByte(TXB0CTRL + SIDL, StandardSidl(canId));
        StandardHeaderIsPrefix(old(Chip()), r);
      }
    }

    /** TXB0 stands for exactly the frame asked for and is requested; no register
        outside TXB0 changes. */
    method TxBuffer0Send(canId: bv32, buf: array<bv8>, len: nat)
      requires Idle() && len <= 8 && len <= buf.Length
      modifies spi`csActive, spi`holds, spi`device, spi.dma`status, spi.dma`semaphores
      ensures Idle() && spi.holds == old(spi.holds)
              && Chip() == SentPrefix(old(Chip()), SendArguments(canId, buf[..len]),
                  SendSize(SendArguments(canId, buf[..len])))
      ensures OnWire(Chip(), 0x30) == Requested(SendArguments(canId, buf[..len]))
      ensures Get(Chip(), 0x30) == 0x08 && Get(Chip(), 0x35) & 0xF0 == 0
      ensures forall a: Addr :: !(0x30 <= a <= 0x3D) ==> Get(Chip(), a) == old(Get(Chip(), a))
    {
      ghost var r: Request := SendArguments(canId, buf[..len]);
      ghost var before := Chip();
      WriteHeader(canId, r);
      ghost var h := HeaderSize(canId);
      WriteByte(TXB0CTRL + DLC, LengthByte(len));
      for j := 0 to len
        invariant Idle() && spi.holds == old(spi.holds) && Chip() == SentPrefix(before, r, h + 1 + j)
      {
        WriteByte(TXB0CTRL + D0 + j, buf[j]);
      }
      WriteByte(TXB0CTRL, TXREQ);
      SentIsRequested(before, r);
    }

    method ReadHeader(base: MessageBuffer) returns (canId: bv32, len: nat)
      requires Idle()
      modifies spi`csActive, spi`holds, spi`device, spi.dma`status, spi.dma`semaphores
      ensures Idle() && spi.holds == old(spi.holds) && Chip() == old(Chip())
      ensures canId == BufferId(Chip(), base) && len == DataLength(Chip(), base)
    {
      var sidh := ReadByte(base + SIDH);
      var sidl := ReadByte(base + SIDL);
      var dlc := ReadByte(base + DLC);
      if Has(sidl, EXIDE) {
        var eid8 := ReadByte(base + EID8);
        var eid0 := ReadByte(base + EID0);
        canId := UnpackId(sidh, sidl, eid8, eid0);
      } else {
        canId := UnpackId(sidh, sidl, 0, 0);
      }
      HeaderIdIsBufferId(Chip(), base, canId);
      len := LowNibble(dlc);
    }

    method ReadPayload(base: MessageBuffer, buf: array<bv8>, len: nat)
      requires Idle() && len == DataLength(Chip(), base) <= buf.Length
      modifies spi`csActive, spi`holds, spi`device, spi.dma`status, spi.dma`semaphores, buf
      ensures Idle() && spi.holds == old(spi.holds) && Chip() == old(Chip())
      ensures buf[..len] == Payload(Chip(), base) && buf[len..] == old(buf[len..])
    {
      for i := 0 to len
        invariant Idle() && spi.holds == old(spi.holds) && Chip() == old(Chip())
        invariant forall k :: 0 <= k < i ==> buf[k] == Get(Chip(), base + D0 + k)
        invariant buf[len..] == old(buf[len..])
      {
        buf[i] := ReadByte(base + D0 + i);
      }
    }

    /** The message in RXB0, in the caller's buffer; nothing else changes. */
    method RxBuffer0Read(buf: array<bv8>) returns (canId: bv32, len: nat)
      requires Idle() && DataLength(Chip(), 0x60) <= buf.Length
      modifies spi`csActive, spi`holds, spi`device, spi.dma`status, spi.dma`semaphores, buf
      ensures Idle() && spi.holds == old(spi.holds) && Chip() == old(Chip())
      ensures len <= buf.Length && Message(canId, buf[..len]) == Received(OnWire(Chip(), 0x60))
      ensures buf[len..] == old(buf[len..])
    {
      canId, len := ReadHeader(RXB0CTRL);
      ReadPayload(RXB0CTRL, buf, len);
    }

    /** The message in RXB1, likewise. */
    method RxBuffer1Read(buf: array<bv8>) returns (canId: bv32, len: nat)
      requires Idle() && DataLength(Chip(), 0x70) <= buf.Length
      modifies spi`csActive, spi`holds, spi`device, spi.dma`status, spi.dma`semaphores, buf
      ensures Idle() && spi.holds == old(spi.holds) && Chip() == old(Chip())
      ensures len <= buf.Length && Message(canId, buf[..len]) == Received(OnWire(Chip(), 0x70))
      ensures buf[len..] == old(buf[len..])
    {
      canId, len := ReadHeader(RXB1CTRL);
      ReadPayload(RXB1CTRL, buf, len);
    }

    // ----- Filters

    method WriteFilterOrMask(sidh: Addr, id: bv32, extended: bool)
      requires Idle() && sidh < 0x28
      modifies spi`csActive, spi`holds, spi`device, spi.dma`status, spi.dma`semaphores
      ensures Idle() && spi.holds == old(spi.holds)
              && Chip() == WriteSlot(old(Chip()), sidh, Encoded(Setting(id, extended)))
    {
      if extended {
        WriteByte(sidh, Byte(id >> 21));
        WriteByte(sidh + 1, FilterSidl(id));
        WriteByte(sidh + 2, Byte(id >> 8));
        WriteByte(sidh + 3, Byte(id));
      } else {
        WriteByte(sidh, Byte(id >> 3));
        WriteByte(sidh + 1, StandardSidl(id));
        WriteByte(sidh + 2, 0);
        WriteByte(sidh + 3, 0);
      }
    }

    method SetFilter(filterId: nat, canId: bv32, extended: bool)
      requires Idle()
      modifies spi`csActive, spi`holds, spi`device, spi.dma`status, spi.dma`semaphores
      ensures Idle() && spi.holds == old(spi.holds)
              && Chip() == Run(old(Chip()), Call.SetFilter(filterId, Setting(canId, extended)))
    {
      if filterId >= 6 {
        return;
      }
      var filterSidh := [0x00, 0x04, 0x08, 0x10, 0x14, 0x18];
      var rxbCtrl: Addr := if filterId < 2 then RXB0CTRL else RXB1CTRL;
      assert filterSidh[filterId] == SlotBase(filterId) && rxbCtrl == SlotCtrl(filterId);
      WriteByte(CANCTRL, REQOP_CONFIG);
      WriteFilterOrMask(filterSidh[filterId], canId, extended);
      WriteByte(CANCTRL, NORMAL_CLKOUT);
      var ctrl := ReadByte(rxbCtrl);
      WriteByte(rxbCtrl, Without(ctrl, RXM));
    }

    method SetMask(maskId: nat, mask: bv32, extended: bool)
      requires Idle()
      modifies spi`csActive, spi`holds, spi`device, spi.dma`status, spi.dma`semaphores
      ensures Idle() && spi.holds == old(spi.holds)
              && Chip() == Run(old(Chip()), Call.SetMask(maskId, Setting(mask, extended)))
    {
      if maskId >= 2 {
        return;
      }
      var maskSidh := [RXM0SIDH, RXM1SIDH];
      var rxbCtrl := [RXB0CTRL, RXB1CTRL];
      assert maskSidh[maskId] == SlotBase(6 + maskId) && rxbCtrl[maskId] == SlotCtrl(6 + maskId);
      WriteByte(CANCTRL, REQOP_CONFIG);
      WriteFilterOrMask(maskSidh[maskId], mask, extended);
      WriteByte(CANCTRL, NORMAL_CLKOUT);
      var ctrl := ReadByte(rxbCtrl[maskId]);
      WriteByte(rxbCtrl[maskId], Without(ctrl, RXM));
    }
  }

  lemma ExtendedHeaderIsPrefix(regs: Regs, r: Request)
    requires NeedsExtended(r.canId)
    ensures SentPrefix(regs, r, HeaderSize(r.canId)) ==
            Write(Write(Write(Write(regs, TXB0CTRL + EID0, Byte(r.canId)), TXB0CTRL + EID8, Byte(r.canId >> 8)),
                        TXB0CTRL + SIDL, ExtendedSidl(r.canId)), TXB0CTRL + SIDH, Byte(r.canId >> 21))
  {
    var h := HeaderSize(r.canId);
    ExtendedHeaderEids(r);
    ExtendedHeaderSids(r);
    assert SentPrefix(regs, r, h - 4) == regs;
    NextPrefix(regs, r, h - 4, TXB0CTRL + EID0, Byte(r.canId));
    NextPrefix(regs, r, h - 3, TXB0CTRL + EID8, Byte(r.canId >> 8));
    NextPrefix(regs, r, h - 2, TXB0CTRL + SIDL, ExtendedSidl(r.canId));
    NextPrefix(regs, r, h - 1, TXB0CTRL + SIDH, Byte(r.canId >> 21));
  }

  lemma StandardHeaderIsPrefix(regs: Regs, r: Request)
    requires !NeedsExtended(r.canId)
    ensures SentPrefix(regs, r, HeaderSize(r.canId))
            == Write(Write(regs, TXB0CTRL + SIDH, Byte(r.canId >> 3)), TXB0CTRL + SIDL, StandardSidl(r.canId))
  {
    var h := HeaderSize(r.canId);
    NextPrefix(regs, r, h - 2, TXB0CTRL + SIDH, Byte(r.canId >> 3));
    NextPrefix(regs, r, h - 1, TXB0CTRL + SIDL, StandardSidl(r.canId));
  }

  lemma NextPrefix(regs: Regs, r: Request, k: nat, a: Addr, v: bv8)
    requires k < SendSize(r) && SendAddress(r, k) == a && SendValue(r, k) == v
    ensures SentPrefix(regs, r, k + 1) == Write(SentPrefix(regs, r, k), a, v)
  {}

  /** Without its extension a standard identifier is already whole. */
  lemma HeaderIdIsBufferId(regs: Regs, base: MessageBuffer, id: bv32)
    requires var sidh, sidl := Get(regs, base + SIDH), Get(regs, base + SIDL);
             id == if Has(sidl, EXIDE)
                   then UnpackId(sidh, sidl, Get(regs, base + EID8), Get(regs, base + EID0))
                   else UnpackId(sidh, sidl, 0, 0)
    ensures id == BufferId(regs, base)
  {}

  /** A read split over two transfers is one READ command. */
  lemma ReadRuns(d: Device, addr: Addr, question: seq<bv8>, clocked: seq<bv8>)
    requires d.frame == [] && question == [CAN_READ, AddressByte(addr)] && clocked == [0]
    ensures AcceptAll(AcceptAll(d, question), clocked).regs == d.regs
    ensures Replies(AcceptAll(d, question), clocked)[0] == Get(d.regs, addr)
  {
    AcceptAllConcat(d, question, clocked);
    assert question + clocked == CommandBytes(Command.ReadByte(addr));
    CommandRuns(Command.ReadByte(addr), d);
  }

  /** A whole send, from any register file. */
  lemma SentIsRequested(regs: Regs, r: Request)
    ensures OnWire(SentPrefix(regs, r, SendSize(r)), 0x30) == Requested(r)
    ensures Get(SentPrefix(regs, r, SendSize(r)), 0x30) == 0x08
    ensures Get(SentPrefix(regs, r, SendSize(r)), 0x35) & 0xF0 == 0
    ensures forall a: Addr :: !(0x30 <= a <= 0x3D) ==>
              Get(SentPrefix(regs, r, SendSize(r)), a) == Get(regs, a)
  {
    PrefixLands(regs, r, SendSize(r));
    LandedIsRequested(r, SentPrefix(regs, r, SendSize(r)));
    LandedIsData(r, SentPrefix(regs, r, SendSize(r)));
    assert SendAddress(r, SendSize(r) - 1) == TXB0CTRL;
  }
}
