/** The SPI object as one task sees it: chip select bracketing and the in-place
    full-duplex DMA transfer. */
module Spi {
  import opened Counting
  import opened SpiDevice
  import opened Dma
  import DmaTokens
  import opened Fifo

  /** A transfer under way: bytes fetched by the transmit channel, shifted over the
      wire, stored by the receive channel, and what waits in the two FIFOs. */
  datatype Pipe = Pipe(txDone: nat, shifted: nat, rxDone: nat, txFifo: seq<bv8>, rxFifo: seq<bv8>)

  /** bytes is what the source held at the start.  The receive side never overtakes
      the transmit side, so also an array that serves both still holds the bytes
      not fetched yet. */
  ghost predicate Flowing(p: Pipe, d0: Device, d: Device, bytes: seq<bv8>, src: seq<bv8>,
      dst: seq<bv8>, dst0: seq<bv8>) {
    && p.rxDone <= p.shifted <= p.txDone <= |bytes| <= |src| && |bytes| <= |dst| == |dst0|
    && p.txFifo == bytes[p.shifted..p.txDone] && p.rxFifo == Replies(d0, bytes)[p.rxDone..p.shifted]
    && |p.txFifo| <= FIFO_DEPTH && |p.rxFifo| <= FIFO_DEPTH
    && src[p.txDone..|bytes|] == bytes[p.txDone..]
    && dst[..p.rxDone] == Replies(d0, bytes)[..p.rxDone] && dst[|bytes|..] == dst0[|bytes|..]
    && d == AcceptAll(d0, bytes[..p.shifted])
  }

  /** Some part of the transfer has a byte to move. */
  predicate CanMove(p: Pipe, size: nat) {
    (p.txDone < size && |p.txFifo| < FIFO_DEPTH) || |p.txFifo| > 0 || (p.rxDone < size && |p.rxFifo| > 0)
  }

  function CountOf(p: Pipe): Count {
    Count(p.txDone, p.shifted, |p.rxFifo|, p.rxDone, 0)
  }

  /** The shift register has a byte to exchange and nowhere to put the one it gets. */
  predicate Overruns(p: Pipe) {
    |p.txFifo| > 0 && |p.rxFifo| == FIFO_DEPTH
  }

  function BytesLeft(p: Pipe, size: nat): int {
    (size - p.txDone) + (size - p.shifted) + (size - p.rxDone)
  }

  lemma PushFlows(p: Pipe, d0: Device, d: Device, bytes: seq<bv8>, src: seq<bv8>, dst: seq<bv8>, dst0: seq<bv8>)
    requires Flowing(p, d0, d, bytes, src, dst, dst0) && p.txDone < |bytes| && |p.txFifo| < FIFO_DEPTH
    ensures Flowing(p.(txDone := p.txDone + 1, txFifo := p.txFifo + [src[p.txDone]]), d0, d, bytes, src, dst, dst0)
  {}

  lemma ShiftFlows(p: Pipe, d0: Device, d: Device, bytes: seq<bv8>, src: seq<bv8>, dst: seq<bv8>, dst0: seq<bv8>)
    requires Flowing(p, d0, d, bytes, src, dst, dst0) && |p.txFifo| > 0 && |p.rxFifo| < FIFO_DEPTH
    ensures Flowing(p.(shifted := p.shifted + 1, txFifo := p.txFifo[1..], rxFifo := p.rxFifo + [Reply(d)]),
                    d0, Accept(d, p.txFifo[0]), bytes, src, dst, dst0)
  {
    var k := p.shifted;
    AcceptAllNext(d0, bytes, k);
    RepliesPrefix(d0, bytes, k + 1);
    assert Replies(d0, bytes)[k] == Replies(d0, bytes)[..k + 1][k] == Reply(d);
    assert p.txFifo[0] == bytes[k] && p.txFifo[1..] == bytes[k + 1..p.txDone];
    assert p.rxFifo + [Reply(d)] == Replies(d0, bytes)[p.rxDone..k + 1];
  }

  /** After an overrun the receive channel never stores its last byte, so the transfer
      does not return; and it takes a transfer longer than the FIFO. */
  lemma OverrunHangs(p: Pipe, d0: Device, d: Device, bytes: seq<bv8>, src: seq<bv8>, dst: seq<bv8>, dst0: seq<bv8>)
    requires Flowing(p, d0, d, bytes, src, dst, dst0) && Overruns(p)
    ensures |bytes| > FIFO_DEPTH && Possible(CountOf(p), Exchange, |bytes|)
    ensures !CanFinish(Next(CountOf(p), Exchange, |bytes|), |bytes|)
  {
    LostByteIsMissed(Next(CountOf(p), Exchange, |bytes|), |bytes|);
  }

  /** The receive channel stores a byte; the array may be the source as well. */
  lemma PopFlows(p: Pipe, d0: Device, d: Device, bytes: seq<bv8>, src: seq<bv8>, dst: seq<bv8>, dst0: seq<bv8>)
    requires Flowing(p, d0, d, bytes, src, dst, dst0) && p.rxDone < |bytes| && |p.rxFifo| > 0
    ensures var p' := p.(rxDone := p.rxDone + 1, rxFifo := p.rxFifo[1..]);
            var dst' := dst[p.rxDone := p.rxFifo[0]];
            && Flowing(p', d0, d, bytes, src, dst', dst0)
            && (src == dst ==> Flowing(p', d0, d, bytes, dst', dst', dst0))
  {}

  class Spi {
    var csActive: bool
    var holds: nat                // how often the running task has taken the recursive bus mutex
    var device: Device            // the chip on this chip select
    const dma: Dma
    const dmaTx: nat
    const dmaRx: nat
    const dmaTxSemaphore: nat
    const dmaRxSemaphore: nat

    /** Both channels are served by handler 0, each gives its own semaphore, and
        nothing else gives those two. */
    ghost predicate Wired()
      reads dma`callbackList, dma`status, dma`semaphores
    {
      && dma.Valid()
      && dmaTx < 6 && dmaRx < 6 && dmaTx != dmaRx
      && dmaTxSemaphore != dmaRxSemaphore
      && dmaTxSemaphore < |dma.semaphores| && dmaRxSemaphore < |dma.semaphores|
      && dma.callbackList[dmaTx] == Gives(dmaTxSemaphore) && dma.callbackList[dmaRx] == Gives(dmaRxSemaphore)
      && (forall c :: 0 <= c < 6 && c != dmaTx ==> dma.callbackList[c] != Gives(dmaTxSemaphore))
      && (forall c :: 0 <= c < 6 && c != dmaRx ==> dma.callbackList[c] != Gives(dmaRxSemaphore))
    }

    /** Between transfers: no completion raised, no token stored. */
    ghost predicate Quiet()
      requires Wired()
      reads dma`callbackList, dma`status, dma`semaphores
    {
      !dma.status[dmaTx] && !dma.status[dmaRx] && !dma.semaphores[dmaTxSemaphore] && !dma.semaphores[dmaRxSemaphore]
    }

    ghost predicate Valid()
      reads dma`callbackList, dma`status, dma`semaphores
    {
      Wired() && Quiet()
    }

    /** Registers the two channels the hardware hands out, receive first. */
    constructor (dma: Dma, rxClaim: nat, txClaim: nat, rxSemaphore: nat, txSemaphore: nat, device: Device)
      requires dma.Valid() && rxClaim < 6 && txClaim < 6 && rxClaim != txClaim
      requires rxSemaphore < |dma.semaphores| && txSemaphore < |dma.semaphores| && rxSemaphore != txSemaphore
      requires !dma.status[rxClaim] && !dma.status[txClaim] && !dma.semaphores[rxSemaphore]
               && !dma.semaphores[txSemaphore]
      requires forall c :: 0 <= c < NUM_DMA_CHANNELS ==>
                 dma.callbackList[c] != Gives(rxSemaphore) && dma.callbackList[c] != Gives(txSemaphore)
      modifies dma`callbackList, dma`irq0Enabled, dma`irq1Enabled
      ensures Valid() && !csActive && holds == 0 && this.device == device && this.dma == dma
              && dmaRx == rxClaim && dmaTx == txClaim
      ensures rxClaim in dma.irq0Enabled && txClaim in dma.irq0Enabled
    {
      this.csActive := false;
      this.holds := 0;
      this.device := device;
      this.dma := dma;
      this.dmaRxSemaphore := rxSemaphore;
      this.dmaTxSemaphore := txSemaphore;
      this.dmaRx := rxClaim;
      this.dmaTx := txClaim;
      new;
      var rxChannel := dma.EnableDma(rxClaim, Gives(rxSemaphore));
      var txChannel := dma.EnableDma(txClaim, Gives(txSemaphore));
    }

    /** Takes the mutex and selects.  The precondition is the configASSERT: no nested
        select by the same task. */
    method CsSelect()
      requires !csActive
      modifies this`csActive, this`holds, this`device
      ensures csActive && holds == old(holds) + 1 && device == old(device).(frame := [])
    {
      holds := holds + 1;
      csActive := true;
      device := device.(frame := []);
    }

    method CsDeselect()
      requires csActive && holds > 0
      modifies this`csActive, this`holds
      ensures !csActive && holds == old(holds) - 1
    {
      csActive := false;
      holds := holds - 1;
    }

    /** Full duplex over DMA, or a byte lost to a full receive FIFO, and then no return,
        which takes more than eight bytes; a missing buffer is replaced by the other one, so then
        one array serves both directions.  Every order in which the two channels,
        the shift register, the interrupt handler and the waiting task can move is
        covered by the nondeterministic loop.  The wire carries the source's
        original contents, and the destination ends up with what the chip replied. */
    method Transfer(tx: array?<bv8>, rx: array?<bv8>, size: nat) returns (moved: nat, overrun: bool)
      requires Valid() && csActive
      requires tx != null || rx != null
      requires 0 < size && (tx != null ==> size <= tx.Length) && (rx != null ==> size <= rx.Length)
      modifies this`device, dma`status, dma`semaphores, (if rx == null then tx else rx)
      ensures overrun ==> size > FIFO_DEPTH
      ensures !overrun ==>
              Valid() && moved == size &&
              var src := if tx == null then rx else tx; var dst := if rx == null then tx else rx;
              && device == AcceptAll(old(device), old(src[..size]))
              && dst[..size] == Replies(old(device), old(src[..size]))
              && dst[size..] == old(dst[size..])
    {
      if tx == null {
        overrun := Pump(rx, rx, size);
      } else if rx == null {
        overrun := Pump(tx, tx, size);
      } else {
        overrun := Pump(tx, rx, size);
      }
      moved := size;
    }

    /** dmaWrite, dmaRead, dmaStart and the two takes: the channels run until both
        completion tokens have been taken, or a byte is lost. */
    method Pump(src: array<bv8>, dst: array<bv8>, size: nat) returns (overrun: bool)
      requires Valid() && 0 < size <= src.Length && size <= dst.Length
      modifies this`device, dma`status, dma`semaphores, dst
      ensures overrun ==> size > FIFO_DEPTH
      ensures !overrun ==> Valid() && device == AcceptAll(old(device), old(src[..size]))
      ensures !overrun ==> dst[..size] == Replies(old(device), old(src[..size])) && dst[size..] == old(dst[size..])
    {
      ghost var bytes := src[..size];
      var p := Pipe(0, 0, 0, [], []);
      var taken := 0;
      overrun := false;
      while taken < 2 && !overrun
        invariant Wired() && taken <= 2 && Conserved(p, size, taken)
        invariant Flowing(p, old(device), device, bytes, src[..], dst[..], old(dst[..]))
        invariant overrun ==> Overruns(p)
        decreases BytesLeft(p, size), One(dma.status[dmaTx]) + One(dma.status[dmaRx]), 2 - taken, One(!overrun)
      {
        if
        case CanMove(p, size) =>
          p, overrun := MoveAndRaise(src, dst, p, size, taken, old(device), bytes, old(dst[..]));
        case dma.status[dmaTx] || dma.status[dmaRx]
            || dma.semaphores[if taken == 0 then dmaTxSemaphore else dmaRxSemaphore] =>
          taken := InterruptOrTake(p, size, taken);
      }
      if overrun {
        OverrunHangs(p, old(device), device, bytes, src[..], dst[..], old(dst[..]));
      }
      assert bytes[..size] == bytes && Replies(old(device), bytes)[..size] == Replies(old(device), bytes);
    }

    /** Each channel is exactly one of running, raised, token stored, token taken. */
    ghost predicate Conserved(p: Pipe, size: nat, taken: nat)
      requires Wired()
      reads dma`callbackList, dma`status, dma`semaphores
    {
      && One(p.txDone < size) + One(dma.status[dmaTx]) + One(dma.semaphores[dmaTxSemaphore]) + One(taken >= 1) == 1
      && One(p.rxDone < size) + One(dma.status[dmaRx]) + One(dma.semaphores[dmaRxSemaphore]) + One(taken >= 2) == 1
    }

    /** Moves a byte; a channel that has moved its last one raises its interrupt. */
    method MoveAndRaise(src: array<bv8>, dst: array<bv8>, p: Pipe, size: nat, ghost taken: nat,
                        ghost d0: Device, ghost bytes: seq<bv8>, ghost dst0: seq<bv8>)
      returns (q: Pipe, overrun: bool)
      requires Wired() && Conserved(p, size, taken)
      requires size == |bytes| && Flowing(p, d0, device, bytes, src[..], dst[..], dst0) && CanMove(p, size)
      modifies this`device, dma`status, dst
      ensures Wired() && Conserved(q, size, taken) && Flowing(q, d0, device, bytes, src[..], dst[..], dst0)
      ensures overrun ==> q == p && Overruns(p) && dma.status == old(dma.status)
      ensures !overrun ==> BytesLeft(q, size) < BytesLeft(p, size)
    {
      q, overrun := MoveByte(src, dst, p, size, d0, bytes, dst0);
      if p.txDone < size && q.txDone == size {
        Raise(dmaTx);
      }
      if p.rxDone < size && q.rxDone == size {
        Raise(dmaRx);
      }
    }

    /** The interrupt handler runs, or the waiting task takes the token it is at. */
    method InterruptOrTake(ghost p: Pipe, ghost size: nat, taken: nat) returns (taken': nat)
      requires Wired() && Conserved(p, size, taken) && taken < 2
      requires dma.status[dmaTx] || dma.status[dmaRx]
               || dma.semaphores[if taken == 0 then dmaTxSemaphore else dmaRxSemaphore]
      modifies dma`status, dma`semaphores
      ensures Wired() && taken <= taken' <= 2 && Conserved(p, size, taken')
      ensures One(dma.status[dmaTx]) + One(dma.status[dmaRx]) < old(One(dma.status[dmaTx]) + One(dma.status[dmaRx]))
              || (dma.status[dmaTx] == old(dma.status[dmaTx]) && dma.status[dmaRx] == old(dma.status[dmaRx])
                  && taken' == taken + 1)
    {
      taken' := taken;
      if
      case dma.status[dmaTx] || dma.status[dmaRx] =>
        RunHandler();
      case taken == 0 && dma.semaphores[dmaTxSemaphore] =>
        Take(dmaTxSemaphore);
        taken' := 1;
      case taken == 1 && dma.semaphores[dmaRxSemaphore] =>
        Take(dmaRxSemaphore);
        taken' := 2;
    }

    /** One of the moves possible now, whichever comes first: the transmit channel
        fetches a byte, the shift register exchanges one with the chip, or the
        receive channel stores one.  The shift register does not wait for room. */
    method MoveByte(src: array<bv8>, dst: array<bv8>, p: Pipe, size: nat,
                    ghost d0: Device, ghost bytes: seq<bv8>, ghost dst0: seq<bv8>)
      returns (q: Pipe, overrun: bool)
      requires size == |bytes| && Flowing(p, d0, device, bytes, src[..], dst[..], dst0) && CanMove(p, size)
      modifies this`device, dst
      ensures Flowing(q, d0, device, bytes, src[..], dst[..], dst0)
      ensures if overrun then q == p && Overruns(p)
              else BytesLeft(q, size) == BytesLeft(p, size) - 1 && q.txDone >= p.txDone && q.rxDone >= p.rxDone
    {
      overrun := false;
      if
      case p.txDone < size && |p.txFifo| < FIFO_DEPTH =>
        PushFlows(p, d0, device, bytes, src[..], dst[..], dst0);
        q := p.(txDone := p.txDone + 1, txFifo := p.txFifo + [src[p.txDone]]);
      case |p.txFifo| > 0 && |p.rxFifo| < FIFO_DEPTH =>
        ShiftFlows(p, d0, device, bytes, src[..], dst[..], dst0);
        q := p.(shifted := p.shifted + 1, txFifo := p.txFifo[1..], rxFifo := p.rxFifo + [Reply(device)]);
        device := Accept(device, p.txFifo[0]);
      case Overruns(p) =>
        q, overrun := p, true;
      case p.rxDone < size && |p.rxFifo| > 0 =>
        PopFlows(p, d0, device, bytes, src[..], dst[..], dst0);
        ghost var dst1 := dst[..][p.rxDone := p.rxFifo[0]];
        dst[p.rxDone] := p.rxFifo[0];
        assert dst[..] == dst1;
        q := p.(rxDone := p.rxDone + 1, rxFifo := p.rxFifo[1..]);
    }

    /** A channel has moved its last byte. */
    method Raise(channel: nat)
      requires Wired() && channel < NUM_DMA_CHANNELS
      modifies dma`status
      ensures Wired() && dma.status == old(dma.status)[channel := true]
    {
      dma.status := dma.status[channel := true];
    }

    method Take(semaphore: nat)
      requires Wired() && semaphore < |dma.semaphores| && dma.semaphores[semaphore]
      modifies dma`semaphores
      ensures Wired() && dma.semaphores == old(dma.semaphores)[semaphore := false]
    {
      dma.semaphores := dma.semaphores[semaphore := false];
    }

    /** This object's two channels as the completion protocol sees them. */
    ghost function Completion(): DmaTokens.System
      requires Wired()
      reads dma`callbackList, dma`status, dma`semaphores
    {
      DmaTokens.System(dmaTx, dmaRx, DmaTokens.Channel(false, dma.status[dmaTx], dma.semaphores[dmaTxSemaphore], 0),
                       DmaTokens.Channel(false, dma.status[dmaRx], dma.semaphores[dmaRxSemaphore], 0),
                       DmaTokens.Idle, DmaTokens.Off, 0, 0)
    }

    /** One run of the handler: for this object's channels the pass that DmaTokens takes
        statement by statement. */
    method RunHandler()
      requires Wired()
      modifies dma`status, dma`semaphores
      ensures Wired() && Completion() == DmaTokens.HandlerPass(old(Completion()))
      ensures !dma.status[dmaTx] && !dma.status[dmaRx]
      ensures dma.semaphores[dmaTxSemaphore] == (old(dma.semaphores[dmaTxSemaphore]) || old(dma.status[dmaTx]))
      ensures dma.semaphores[dmaRxSemaphore] == (old(dma.semaphores[dmaRxSemaphore]) || old(dma.status[dmaRx]))
    {
      dma.DmaHandler0();
      assert old(dma.status[dmaTx]) ==> Serves(old(dma.status), dma.callbackList, dmaTx);
      assert old(dma.status[dmaRx]) ==> Serves(old(dma.status), dma.callbackList, dmaRx);
    }
  }

  lemma {:induction false} RepliesPrefix(d: Device, bytes: seq<bv8>, k: nat)
    requires k <= |bytes|
    ensures Replies(d, bytes)[..k] == Replies(d, bytes[..k])
    decreases |bytes|
  {
    if k == |bytes| {
      assert bytes[..k] == bytes;
      assert Replies(d, bytes)[..k] == Replies(d, bytes);
    } else {
      var front := bytes[..|bytes| - 1];
      RepliesPrefix(d, front, k);
      assert front[..k] == bytes[..k];
      assert Replies(d, bytes)[..k] == Replies(d, front)[..k];
    }
  }
}
