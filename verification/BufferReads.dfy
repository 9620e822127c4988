/** rxBuffer0Read and rxBuffer1Read as a sequence of single register reads,
    each chosen from the values read so far. */
module BufferReads {
  import opened Registers
  import opened CanFrame

  predicate Extended(got: seq<bv8>) {
    |got| > 1 && Has(got[1], EXIDE)
  }

  function HeaderReads(extended: bool): nat {
    if extended then 5 else 3
  }

  /** The offset, from the buffer's control register, of the i-th read. */
  function ReadOffset(extended: bool, i: nat): (offset: nat)
    ensures 1 <= offset <= i + 3
  {
    if i == 0 then SIDH
    else if i == 1 then SIDL
    else if i == 2 then DLC
    else if extended && i == 3 then EID8
    else if extended && i == 4 then EID0
    else D0 + i - HeaderReads(extended)
  }

  function ReadLength(got: seq<bv8>): nat
    requires |got| >= 3
  {
    LowNibble(got[2])
  }

  predicate ReadsDone(got: seq<bv8>) {
    |got| >= 3 && |got| >= HeaderReads(Extended(got)) + ReadLength(got)
  }

  /** The values read so far by a read that is not over. */
  type PartialRead = got: seq<bv8> | !ReadsDone(got) witness []

  function NextOffset(got: seq<bv8>): (offset: nat)
    requires !ReadsDone(got)
    ensures 1 <= offset < 23
  {
    ReadOffset(Extended(got), |got|)
  }

  function Assemble(got: seq<bv8>): Message
    requires ReadsDone(got)
  {
    var extended := Extended(got);
    var header := HeaderReads(extended);
    Message(UnpackId(got[0], got[1], if extended then got[3] else 0, if extended then got[4] else 0),
            got[header..header + ReadLength(got)])
  }

  /** Every value in got is what its register holds. */
  predicate ReadsMatch(regs: Regs, buffer: MessageBuffer, got: seq<bv8>) {
    |got| <= 20 &&
    forall i :: 0 <= i < |got| ==> got[i] == Get(regs, buffer + ReadOffset(Extended(got), i))
  }

  /** Matching reads that are done make up the message the buffer holds. */
  lemma AssembledIsUnpacked(regs: Regs, buffer: MessageBuffer, got: seq<bv8>)
    requires ReadsMatch(regs, buffer, got) && ReadsDone(got)
    ensures Assemble(got) == Unpack(regs, buffer)
  {}

  lemma NextReadMatches(regs: Regs, buffer: MessageBuffer, got: PartialRead)
    requires ReadsMatch(regs, buffer, got) && |got| < 20
    ensures ReadsMatch(regs, buffer, got + [Get(regs, buffer + NextOffset(got))])
  {}

  /** A read whose values so far all match ends with the message the buffer holds. */
  lemma LastReadAssembles(regs: Regs, buffer: MessageBuffer, got: PartialRead)
    requires ReadsMatch(regs, buffer, got) && |got| < 20
    ensures var got' := got + [Get(regs, buffer + NextOffset(got))];
            ReadsDone(got') ==> Assemble(got') == Received(OnWire(regs, buffer))
  {
    var got' := got + [Get(regs, buffer + NextOffset(got))];
    NextReadMatches(regs, buffer, got);
    if ReadsDone(got') {
      AssembledIsUnpacked(regs, buffer, got');
      UnpackIsReceived(regs, buffer);
    }
  }
}
