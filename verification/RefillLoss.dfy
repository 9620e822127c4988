/** What a refill does to the user.  The chip may fill a buffer again as soon as its
    flag is clear; frames are lost or mixed exactly if the last one is not yet read. */
module RefillLoss {
  import opened Registers
  import opened CanFrame
  import opened BufferReads
  import opened Protocol
  import opened InterruptProperties
  import opened ReceiveProperties
  import opened ExactlyOnceReceive
  import opened Settling

  /** What the user has been handed out of a buffer is what arrived there, in order. */
  predicate Correct(box: Mailbox) {
    |box.delivered| <= |box.arrived| && forall i :: 0 <= i < |box.delivered| ==>
          box.delivered[i] == Received(box.arrived[i])
  }

  predicate IsImage(image: seq<bv8>) {
    |image| == 13 && LowNibble(image[DLC - SIDH]) <= 8
  }

  /** Some frame arriving now, with no refill after it, makes the user's deliveries out
      of the buffer differ from its arrivals. */
  ghost predicate CanSpoil(s: State, b: Buffer) {
    exists image, es :: IsImage(image) && NeverRefills(ReceiveStep(s, b, image), es)
                        && !Correct(Box(After(ReceiveStep(s, b, image), es).rx, b))
  }

  lemma {:induction false} ReceiverNeverRefills(s: State, es: seq<Event>)
    requires ReceiverOnly(es)
    ensures NeverRefills(s, es)
  {
    if es != [] {
      assert es[|es| - 1] in es;
      ReceiverNeverRefills(s, es[..|es| - 1]);
    }
  }

  // ----- A frame that spoils the read under way

  function Toggle(x: bv8, mask: bv8): bv8 {
    if Has(x, mask) then Without(x, mask) else With(x, mask)
  }

  /** Another value for the register at an offset: another identifier bit, another
      length, another payload byte. */
  function Other(offset: nat, x: bv8): bv8 {
    if offset == DLC then (if LowNibble(x) == 0 then 1 else 0)
    else if offset == SIDL then Toggle(x, 0x20)
    else Toggle(x, 0x01)
  }

  /** What stands in a buffer now, but for the register a read takes next. */
  function Spoiled(regs: Regs, buffer: MessageBuffer, got: PartialRead): (image: seq<bv8>)
    ensures |image| == 13
  {
    seq(13, i requires 0 <= i < 13 =>
      if i + SIDH == NextOffset(got)
          then Other(i + SIDH, Get(regs, buffer + SIDH + i)) else Get(regs, buffer + SIDH + i))
  }

  lemma OtherIdentifier(sidh: bv8, sidl: bv8, eid8: bv8, eid0: bv8)
    ensures WireId(Toggle(sidh, 0x01), sidl, eid8, eid0) != WireId(sidh, sidl, eid8, eid0)
    ensures WireId(sidh, Toggle(sidl, 0x20), eid8, eid0) != WireId(sidh, sidl, eid8, eid0)
    ensures Has(sidl, EXIDE) ==> WireId(sidh, sidl, Toggle(eid8, 0x01), eid0) != WireId(sidh, sidl, eid8, eid0)
    ensures Has(sidl, EXIDE) ==> WireId(sidh, sidl, eid8, Toggle(eid0, 0x01)) != WireId(sidh, sidl, eid8, eid0)
  {}

  lemma OtherByte(x: bv8)
    ensures Toggle(x, 0x01) != x
    ensures LowNibble(Other(DLC, x)) != LowNibble(x) && LowNibble(Other(DLC, x)) <= 8
  {}

  /** regs' holds the spoiled image where regs holds a frame being read. */
  predicate HoldsSpoiled(regs: Regs, regs': Regs, buffer: MessageBuffer, got: PartialRead) {
    forall i :: 0 <= i < 13 ==> Get(regs', buffer + SIDH + i) == Spoiled(regs, buffer, got)[i]
  }

  lemma NextReadIsInFrame(regs: Regs, buffer: MessageBuffer, got: PartialRead)
    requires ReadsMatch(regs, buffer, got) && DataLength(regs, buffer) <= 8
    ensures NextOffset(got) <= 13
    ensures |got| > 1 ==> Extended(got) == Has(Get(regs, buffer + SIDL), EXIDE)
    ensures NextOffset(got) >= D0 ==> NextOffset(got) - D0 < DataLength(regs, buffer)
    ensures NextOffset(got) == EID8 || NextOffset(got) == EID0 ==> Has(Get(regs, buffer + SIDL), EXIDE)
  {}

  lemma SpoiledIsImage(regs: Regs, buffer: MessageBuffer, got: PartialRead)
    requires ReadsMatch(regs, buffer, got) && DataLength(regs, buffer) <= 8
    ensures IsImage(Spoiled(regs, buffer, got))
  {
    OtherByte(Get(regs, buffer + DLC));
  }

  lemma SpoiledKeepsReads(regs: Regs, regs': Regs, buffer: MessageBuffer, got: PartialRead)
    requires ReadsMatch(regs, buffer, got) && DataLength(regs, buffer) <= 8 && HoldsSpoiled(regs, regs', buffer, got)
    ensures ReadsMatch(regs', buffer, got)
  {
    NextReadIsInFrame(regs, buffer, got);
    var x := Extended(got);
    forall i | 0 <= i < |got|
      ensures got[i] == Get(regs', buffer + ReadOffset(x, i))
    {
      assert ReadOffset(x, i) != NextOffset(got) && ReadOffset(x, i) <= 13;
      assert Get(regs', buffer + SIDH + (ReadOffset(x, i) - SIDH))
          == Spoiled(regs, buffer, got)[ReadOffset(x, i) - SIDH];
    }
  }

  lemma SpoiledRegister(regs: Regs, regs': Regs, buffer: MessageBuffer, got: PartialRead, offset: nat)
    requires HoldsSpoiled(regs, regs', buffer, got) && 1 <= offset <= 13
    ensures Get(regs', buffer + offset) == if offset == NextOffset(got)
            then Other(offset, Get(regs, buffer + offset)) else Get(regs, buffer + offset)
  {
    assert Get(regs', buffer + SIDH + (offset - SIDH)) == Spoiled(regs, buffer, got)[offset - SIDH];
  }

  lemma SpoiledLength(regs: Regs, regs': Regs, buffer: MessageBuffer, got: PartialRead)
    requires NextOffset(got) == DLC && HoldsSpoiled(regs, regs', buffer, got)
    ensures |Payload(regs', buffer)| != |Payload(regs, buffer)|
  {
    SpoiledRegister(regs, regs', buffer, got, DLC);
    OtherByte(Get(regs, buffer + DLC));
  }

  lemma SpoiledPayload(regs: Regs, regs': Regs, buffer: MessageBuffer, got: PartialRead)
    requires D0 <= NextOffset(got) <= 13 && NextOffset(got) - D0 < DataLength(regs, buffer)
             && HoldsSpoiled(regs, regs', buffer, got)
    ensures Payload(regs', buffer) != Payload(regs, buffer)
  {
    var offset := NextOffset(got);
    SpoiledRegister(regs, regs', buffer, got, DLC);
    SpoiledRegister(regs, regs', buffer, got, offset);
    OtherByte(Get(regs, buffer + offset));
    assert Payload(regs', buffer)[offset - D0] != Payload(regs, buffer)[offset - D0];
  }

  lemma SpoiledIdentifier(regs: Regs, regs': Regs, buffer: MessageBuffer, got: PartialRead)
    requires NextOffset(got) < DLC && HoldsSpoiled(regs, regs', buffer, got)
    requires NextOffset(got) == EID8 || NextOffset(got) == EID0 ==> Has(Get(regs, buffer + SIDL), EXIDE)
    ensures BufferId(regs', buffer) != BufferId(regs, buffer)
  {
    SpoiledRegister(regs, regs', buffer, got, SIDH);
    SpoiledRegister(regs, regs', buffer, got, SIDL);
    SpoiledRegister(regs, regs', buffer, got, EID8);
    SpoiledRegister(regs, regs', buffer, got, EID0);
    OtherIdentifier(Get(regs, buffer + SIDH), Get(regs, buffer + SIDL), Get(regs, buffer + EID8),
        Get(regs, buffer + EID0));
  }

  /** The spoiled buffer stands for another message. */
  lemma SpoiledIsOther(regs: Regs, regs': Regs, buffer: MessageBuffer, got: PartialRead)
    requires ReadsMatch(regs, buffer, got) && DataLength(regs, buffer) <= 8 && HoldsSpoiled(regs, regs', buffer, got)
    ensures Received(OnWire(regs', buffer)) != Received(OnWire(regs, buffer))
  {
    NextReadIsInFrame(regs, buffer, got);
    if NextOffset(got) == DLC {
      SpoiledLength(regs, regs', buffer, got);
    } else if NextOffset(got) >= D0 {
      SpoiledPayload(regs, regs', buffer, got);
    } else {
      SpoiledIdentifier(regs, regs', buffer, got);
    }
  }

  // ----- The frame in a buffer reaches the user

  /** The current pass still marks a buffer pending. */
  predicate WillMark(v: Service, b: Buffer) {
    v.pc == MarkPc(b) || (Has(v.intFlag, b.Flag()) && if b.Rx0? then UpToClearRx0(v.pc) else UpToClearRx1(v.pc))
  }

  predicate MarksOnce(v: Service, rx: ReceiveSide) {
    forall b: Buffer :: WillMark(v, b) ==> !Has(rx.pending, b.PendingBit())
  }

  /** A frame waits, or is about to wait, for the reader, and tokens are as many as
      pending bits. */
  predicate Waiting(v: Service, rx: ReceiveSide, b: Buffer) {
    && MarkFacts(v) && Counted(Owed(v), rx) && MarksOnce(v, rx)
    && (v.pc == MarkPc(b) || Has(rx.pending, b.PendingBit()))
    && (rx.reader.Reading? ==> rx.reader.b != b)
  }

  lemma MarksOnceNext(v: Service, regs: Regs, rx: ReceiveSide)
    requires MarkFacts(v) && MarksOnce(v, rx) && !v.pc.ReadFlags?
    ensures MarksOnce(NextService(v, regs), ServiceRx(v, rx))
  {
    RxNext(v, rx);
    BitsOfMarks(rx.pending);
    assert WillMark(v, Rx0) ==> !Has(rx.pending, Rx0.PendingBit());
    assert WillMark(v, Rx1) ==> !Has(rx.pending, Rx1.PendingBit());
    forall b: Buffer
      ensures WillMark(NextService(v, regs), b) ==> WillMark(v, b) && v.pc != MarkPc(b)
    {}
  }

  lemma WaitingNext(v: Service, regs: Regs, rx: ReceiveSide, b: Buffer)
    requires Waiting(v, rx, b) && (Owed(v) > 0 || Marks(v))
    ensures Waiting(NextService(v, regs), ServiceRx(v, rx), b)
  {
    forall c: Buffer
      ensures v.pc == MarkPc(c) ==> !Has(rx.pending, c.PendingBit())
    {
      assert WillMark(v, c) ==> !Has(rx.pending, c.PendingBit());
    }
    OwedNext(v, regs);
    ServiceKeepsCounted(v, regs, rx);
    MarksOnceNext(v, regs, rx);
    RxNext(v, rx);
    BitsOfMarks(rx.pending);
  }

  lemma OwedPassGoesOn(v: Service, regs: Regs)
    requires Owed(v) > 0 || Marks(v)
    ensures Remaining(NextPc(v, regs)) < Remaining(v.pc)
  {}

  predicate SameBoxes(rx: ReceiveSide, rx': ReceiveSide) {
    rx'.box0 == rx.box0 && rx'.box1 == rx.box1
  }

  /** The service, left alone, gives the tokens it owes. */
  lemma {:induction false} OwedIsGiven(s: State, b: Buffer) returns (es: seq<Event>)
    requires Waiting(s.service, s.rx, b)
    ensures ReceiverOnly(es)
    ensures var t := After(s, es);
            && Counted(0, t.rx) && Has(t.rx.pending, b.PendingBit()) && t.rx.reader == s.rx.reader
            && SameBoxes(s.rx, t.rx) && SameBuffer(s.regs, t.regs, b.Base())
    decreases Remaining(s.service.pc)
  {
    if Owed(s.service) == 0 && !Marks(s.service) {
      es := [];
    } else {
      AfterOne(s, ServiceRuns);
      WaitingNext(s.service, s.regs, s.rx, b);
      OwedPassGoesOn(s.service, s.regs);
      ServiceLeavesBuffers(s.service, s.regs, b);
      RxNext(s.service, s.rx);
      var rest := OwedIsGiven(ServiceStep(s), b);
      AfterConcat(s, [ServiceRuns], rest);
      es := [ServiceRuns] + rest;
    }
  }

  lemma ReaderGoesOn(rx: ReceiveSide, regs: Regs, b: Buffer)
    requires Counted(0, rx) && Has(rx.pending, b.PendingBit()) && !rx.reader.ReaderIdle?
    requires rx.reader.Reading? ==> rx.reader.b != b
    ensures rx.reader.TakeRx? ==> rx.sem > 0
    ensures var rx' := ReaderRx(rx, regs);
            && Counted(0, rx') && Box(rx', b) == Box(rx, b)
            && (rx.reader == Unmark(b) ==> rx'.reader == Reading(b, []))
            && (rx.reader != Unmark(b) ==>
                  && Has(rx'.pending, b.PendingBit()) && (rx'.reader.Reading? ==> rx'.reader.b != b)
                  && PendingCount(rx') <= PendingCount(rx)
                  && (PendingCount(rx') < PendingCount(rx) || StepsTo(UNMARK, rx'.reader) < StepsTo(UNMARK, rx.reader)))
  {
    BitsOfMarks(rx.pending);
  }

  /** The reader, left alone, comes to read a buffer that is pending. */
  lemma {:induction false} ReaderReaches(s: State, b: Buffer) returns (es: seq<Event>)
    requires Counted(0, s.rx) && Has(s.rx.pending, b.PendingBit())
    requires s.rx.reader.Reading? ==> s.rx.reader.b != b
    ensures ReceiverOnly(es)
    ensures var t := After(s, es); t.rx.reader == Reading(b, []) && Box(t.rx, b) == Box(s.rx, b) && t.regs == s.regs
    decreases PendingCount(s.rx), StepsTo(UNMARK, s.rx.reader)
  {
    if s.rx.reader.ReaderIdle? {
      AfterOne(s, StartRead);
      var rest := ReaderReaches(Step(s, StartRead), b);
      AfterConcat(s, [StartRead], rest);
      es := [StartRead] + rest;
    } else {
      ReaderGoesOn(s.rx, s.regs, b);
      AfterOne(s, ReaderRuns);
      es := [ReaderRuns];
      if s.rx.reader != Unmark(b) {
        var rest := ReaderReaches(ReaderStep(s), b);
        AfterConcat(s, es, rest);
        es := es + rest;
      }
    }
  }

  /** A read, left alone, hands over what the buffer stands for. */
  lemma {:induction false} ReadEnds(s: State, b: Buffer) returns (es: seq<Event>)
    requires s.rx.reader.Reading? && s.rx.reader.b == b
    requires ReadsMatch(s.regs, b.Base(), s.rx.reader.got)
    ensures ReceiverOnly(es)
    ensures var box, box' := Box(s.rx, b), Box(After(s, es).rx, b);
            box'.arrived == box.arrived && box'.delivered == box.delivered + [Received(OnWire(s.regs, b.Base()))]
    ensures forall other: Buffer :: other != b ==> Box(After(s, es).rx, other) == Box(s.rx, other)
    decreases 20 - |s.rx.reader.got|
  {
    AfterOne(s, ReaderRuns);
    ReadHandsOver(s.regs, s.rx, b);
    ReaderLeavesBox(s.rx, s.regs, if b.Rx0? then Rx1 else Rx0);
    es := [ReaderRuns];
    var t := ReaderStep(s);
    if t.rx.reader.Reading? {
      var rest := ReadEnds(t, b);
      AfterConcat(s, es, rest);
      es := es + rest;
    }
  }

  // ----- The exact condition

  lemma DeliveringWaits(s: State, b: Buffer)
    requires Delivering(s) && Box(s.rx, b).unread && !Has(Flags(s), b.Flag())
             && !(s.rx.reader.Reading? && s.rx.reader.b == b)
    ensures Waiting(s.service, s.rx, b)
  {
    assert Places(Flags(s), s.service, s.rx, b) == 1;
    forall c: Buffer
      ensures WillMark(s.service, c) ==> !Has(s.rx.pending, c.PendingBit())
    {
      assert Places(Flags(s), s.service, s.rx, c) <= 1;
    }
  }

  /** A refill lands whole and moves nobody. */
  lemma RefillLands(s: State, b: Buffer, image: seq<bv8>)
    requires IsImage(image)
    ensures var t := ReceiveStep(s, b, image);
            && t.service == s.service && t.rx == Arrived(s.rx, b, OnWire(t.regs, b.Base()))
            && (forall i :: 0 <= i < 13 ==> Get(t.regs, b.Base() + SIDH + i) == image[i])
            && DataLength(t.regs, b.Base()) <= 8
  {
    var t := ReceiveStep(s, b, image);
    var landed := WithImage(s.regs, b.Base(), image);
    assert forall i :: 0 <= i < 13 ==> Get(landed, b.Base() + SIDH + i) == image[i];
    assert Get(landed, b.Base() + DLC) == Get(landed, b.Base() + SIDH + (DLC - SIDH));
    SameFrame(landed, t.regs, b.Base());
  }

  /** From a waiting frame, or one being read, to its hand-over. */
  lemma FrameIsRead(s: State, b: Buffer) returns (es: seq<Event>)
    requires DataLength(s.regs, b.Base()) <= 8
    requires if s.rx.reader.Reading? && s.rx.reader.b == b
             then ReadsMatch(s.regs, b.Base(), s.rx.reader.got) else Waiting(s.service, s.rx, b)
    ensures ReceiverOnly(es)
    ensures var box, box' := Box(s.rx, b), Box(After(s, es).rx, b);
            box'.arrived == box.arrived && box'.delivered == box.delivered + [Received(OnWire(s.regs, b.Base()))]
  {
    if s.rx.reader.Reading? && s.rx.reader.b == b {
      es := ReadEnds(s, b);
    } else {
      var given := OwedIsGiven(s, b);
      var t := After(s, given);
      SameFrame(s.regs, t.regs, b.Base());
      var reached := ReaderReaches(t, b);
      var u := After(t, reached);
      var read := ReadEnds(u, b);
      AfterConcat(s, given, reached);
      AfterConcat(s, given + reached, read);
      es := given + reached + read;
    }
  }

  lemma SpoiledArrives(s: State, b: Buffer, got: PartialRead)
    requires ReadsMatch(s.regs, b.Base(), got) && DataLength(s.regs, b.Base()) <= 8
    ensures IsImage(Spoiled(s.regs, b.Base(), got))
    ensures var t := ReceiveStep(s, b, Spoiled(s.regs, b.Base(), got));
            && t.service == s.service && t.rx == Arrived(s.rx, b, OnWire(t.regs, b.Base()))
            && DataLength(t.regs, b.Base()) <= 8
            && ReadsMatch(t.regs, b.Base(), got)
            && Received(OnWire(t.regs, b.Base())) != Received(OnWire(s.regs, b.Base()))
  {
    var image := Spoiled(s.regs, b.Base(), got);
    SpoiledIsImage(s.regs, b.Base(), got);
    RefillLands(s, b, image);
    SpoiledKeepsReads(s.regs, ReceiveStep(s, b, image).regs, b.Base(), got);
    SpoiledIsOther(s.regs, ReceiveStep(s, b, image).regs, b.Base(), got);
  }

  lemma SpoiledIsHandedOver(s: State, b: Buffer, got: PartialRead) returns (es: seq<Event>)
    requires Delivering(s) && Box(s.rx, b).unread && !Has(Flags(s), b.Flag())
    requires got == if s.rx.reader.Reading? && s.rx.reader.b == b then s.rx.reader.got else []
    requires ReadsMatch(s.regs, b.Base(), got) && DataLength(s.regs, b.Base()) <= 8
    ensures ReceiverOnly(es)
    ensures var t := ReceiveStep(s, b, Spoiled(s.regs, b.Base(), got));
            var box := Box(After(t, es).rx, b);
            && box.arrived == Box(s.rx, b).arrived + [OnWire(t.regs, b.Base())]
            && box.delivered == Box(s.rx, b).delivered + [Received(OnWire(t.regs, b.Base()))]
  {
    SpoiledArrives(s, b, got);
    if !(s.rx.reader.Reading? && s.rx.reader.b == b) {
      DeliveringWaits(s, b);
    }
    es := FrameIsRead(ReceiveStep(s, b, Spoiled(s.regs, b.Base(), got)), b);
  }

  lemma UnreadCanBeSpoiled(s: State, b: Buffer)
    requires Delivering(s) && Box(s.rx, b).unread && !Has(Flags(s), b.Flag())
    ensures CanSpoil(s, b)
  {
    var got: PartialRead := if s.rx.reader.Reading? && s.rx.reader.b == b then s.rx.reader.got else [];
    var box := Box(s.rx, b);
    assert Faithful(s.regs, box, b.Base());
    var image := Spoiled(s.regs, b.Base(), got);
    SpoiledArrives(s, b, got);
    var es := SpoiledIsHandedOver(s, b, got);
    ReceiverNeverRefills(ReceiveStep(s, b, image), es);
    var box' := Box(After(ReceiveStep(s, b, image), es).rx, b);
    assert box'.delivered[|box.delivered|] != Received(box'.arrived[|box.delivered|]);
  }

  lemma ReadCannotBeSpoiled(s: State, b: Buffer)
    requires Delivering(s) && !Box(s.rx, b).unread && !Has(Flags(s), b.Flag())
    ensures !CanSpoil(s, b)
  {
    forall image, es | IsImage(image) && NeverRefills(ReceiveStep(s, b, image), es)
      ensures Correct(Box(After(ReceiveStep(s, b, image), es).rx, b))
    {
      RefillDelivers(s, b, image);
      DeliveringStays(ReceiveStep(s, b, image), es);
      var t := After(ReceiveStep(s, b, image), es);
      assert Faithful(t.regs, Box(t.rx, b), b.Base());
    }
  }

  lemma RefillDelivers(s: State, b: Buffer, image: seq<bv8>)
    requires Delivering(s) && !Box(s.rx, b).unread && !Has(Flags(s), b.Flag()) && IsImage(image)
    ensures Delivering(ReceiveStep(s, b, image))
  {
    StepKeepsDelivering(s, Receive(b, image));
  }

  /** Where an unread frame is once its flag is clear. */
  lemma UnreadPlace(s: State, b: Buffer)
    requires Delivering(s) && !Has(Flags(s), b.Flag())
    ensures Box(s.rx, b).unread <==>
              s.service.pc == MarkPc(b) || Has(s.rx.pending, b.PendingBit())
                  || (s.rx.reader.Reading? && s.rx.reader.b == b)
  {}

  /** After any run without refills, at a buffer the chip may fill: a frame arriving now
      can make what the user gets out of that buffer differ from what arrived there if
      and only if the last frame's last register has not been read; and that is if the
      service is about to mark it, its bit is pending, or it is being read. */
  lemma OnlyRefillsLoseFrames(s0: State, es0: seq<Event>, b: Buffer)
    requires Started(s0) && NeverRefills(s0, es0) && !Has(Flags(After(s0, es0)), b.Flag())
    ensures var s := After(s0, es0);
            && (CanSpoil(s, b) <==> Box(s.rx, b).unread)
            && (Box(s.rx, b).unread <==>
                  s.service.pc == MarkPc(b) || Has(s.rx.pending, b.PendingBit())
                      || (s.rx.reader.Reading? && s.rx.reader.b == b))
  {
    var s := After(s0, es0);
    EveryFrameIsDeliveredOnce(s0, es0);
    UnreadPlace(s, b);
    if Box(s.rx, b).unread {
      UnreadCanBeSpoiled(s, b);
    } else {
      ReadCannotBeSpoiled(s, b);
    }
  }

  // ----- A frame lost from the start

  /** The frame a receive-buffer image stands for. */
  function ImageFrame(image: seq<bv8>): WireFrame
    requires |image| == 13
  {
    OnWire(WithImage(map[], RXB0CTRL, image), RXB0CTRL)
  }

  predicate AllAre(messages: seq<Message>, m: Message) {
    forall i :: 0 <= i < |messages| ==> messages[i] == m
  }

  /** Everything handed over out of a buffer, now and from here on, is message m. */
  predicate HandsOverOnly(regs: Regs, rx: ReceiveSide, b: Buffer, m: Message) {
    && Received(OnWire(regs, b.Base())) == m && DataLength(regs, b.Base()) <= 8
    && AllAre(Box(rx, b).delivered, m)
    && (rx.reader.Reading? && rx.reader.b == b ==> ReadsMatch(regs, b.Base(), rx.reader.got))
  }

  lemma ReadHandsOver(regs: Regs, rx: ReceiveSide, b: Buffer)
    requires rx.reader.Reading? && rx.reader.b == b && ReadsMatch(regs, b.Base(), rx.reader.got)
    ensures var rx' := ReaderRx(rx, regs);
            && Box(rx', b).arrived == Box(rx, b).arrived
            && (rx'.reader.Reading? ==>
                  Box(rx', b) == Box(rx, b) && rx'.reader.b == b && ReadsMatch(regs, b.Base(), rx'.reader.got))
            && (!rx'.reader.Reading? ==>
                  Box(rx', b).delivered == Box(rx, b).delivered + [Received(OnWire(regs, b.Base()))])
  {
    NextReadMatches(regs, b.Base(), rx.reader.got);
    LastReadAssembles(regs, b.Base(), rx.reader.got);
  }

  lemma ReaderLeavesBox(rx: ReceiveSide, regs: Regs, b: Buffer)
    requires rx.reader.TakeRx? ==> rx.sem > 0
    requires !(rx.reader.Reading? && rx.reader.b == b)
    ensures var rx' := ReaderRx(rx, regs);
              Box(rx', b) == Box(rx, b) && (rx'.reader.Reading? && rx'.reader.b == b ==> rx'.reader.got == [])
  {}

  lemma ReaderHandsOverOnly(regs: Regs, rx: ReceiveSide, b: Buffer, m: Message)
    requires HandsOverOnly(regs, rx, b, m) && (rx.reader.TakeRx? ==> rx.sem > 0)
    ensures HandsOverOnly(regs, ReaderRx(rx, regs), b, m) && Box(ReaderRx(rx, regs), b).arrived == Box(rx, b).arrived
  {
    if rx.reader.Reading? && rx.reader.b == b {
      ReadHandsOver(regs, rx, b);
    } else {
      ReaderLeavesBox(rx, regs, b);
    }
  }

  lemma ServiceHandsOverOnly(v: Service, regs: Regs, rx: ReceiveSide, b: Buffer, m: Message)
    requires HandsOverOnly(regs, rx, b, m)
    ensures HandsOverOnly(ServiceRegs(v, regs), ServiceRx(v, rx), b, m)
            && Box(ServiceRx(v, rx), b).arrived == Box(rx, b).arrived
  {
    ServiceLeavesBuffers(v, regs, b);
    SameFrame(regs, ServiceRegs(v, regs), b.Base());
    RxNext(v, rx);
    if rx.reader.Reading? && rx.reader.b == b {
      NextReadIsInFrame(regs, b.Base(), rx.reader.got);
      SameReads(regs, ServiceRegs(v, regs), b.Base(), rx.reader.got);
    }
  }

  lemma HandsOverOnlyNext(s: State, e: Event, b: Buffer, m: Message)
    requires Enabled(s, e) && (e.IrqRuns? || e.ServiceRuns? || e.ReaderRuns? || e.StartRead?)
             && HandsOverOnly(s.regs, s.rx, b, m)
    ensures HandsOverOnly(Step(s, e).regs, Step(s, e).rx, b, m) && Box(Step(s, e).rx, b).arrived == Box(s.rx, b).arrived
  {
    match e
    case ServiceRuns => ServiceHandsOverOnly(s.service, s.regs, s.rx, b, m);
    case ReaderRuns => ReaderHandsOverOnly(s.regs, s.rx, b, m);
    case _ =>
  }

  lemma {:induction false} HandsOverOnlyStays(s: State, es: seq<Event>, b: Buffer, m: Message)
    requires ReceiverOnly(es) && HandsOverOnly(s.regs, s.rx, b, m)
    ensures HandsOverOnly(After(s, es).regs, After(s, es).rx, b, m)
            && Box(After(s, es).rx, b).arrived == Box(s.rx, b).arrived
  {
    if es != [] {
      var t, e := After(s, es[..|es| - 1]), es[|es| - 1];
      HandsOverOnlyStays(s, es[..|es| - 1], b, m);
      assert e in es;
      if Enabled(t, e) {
        HandsOverOnlyNext(t, e, b, m);
      }
    }
  }

  /** The service sees RX0IF and clears it, with the mark still to come. */
  lemma Rx0IsCleared(s: State) returns (es: seq<Event>)
    requires s.service.pc.TestPin? && Has(Flags(s), RX0IF) && !Has(Flags(s), ERRORS)
    ensures var t := After(s, es); !Has(Flags(t), RX0IF) && t.rx == s.rx
  {
    var s1, s2, s3 := ServiceStep(s), ServiceStep(ServiceStep(s)), ServiceStep(ServiceStep(ServiceStep(s)));
    ServiceClears(s.service, s.regs);
    ServiceClears(s1.service, s1.regs);
    ServiceClears(s2.service, s2.regs);
    ServiceClears(s3.service, s3.regs);
    Rx0LowersInt(Flags(s));
    FlagsAfterStep(s3.service, Flags(s3));
    es := [ServiceRuns] + [ServiceRuns] + [ServiceRuns] + [ServiceRuns];
    AfterOne(s, ServiceRuns);
    AfterOne(s1, ServiceRuns);
    AfterOne(s2, ServiceRuns);
    AfterOne(s3, ServiceRuns);
    AfterConcat(s, [ServiceRuns], [ServiceRuns]);
    AfterConcat(s, [ServiceRuns] + [ServiceRuns], [ServiceRuns]);
    AfterConcat(s, [ServiceRuns] + [ServiceRuns] + [ServiceRuns], [ServiceRuns]);
  }

  lemma Rx0LowersInt(f: bv8)
    ensures Has(f, RX0IF) ==> Has(f, ENABLED)
    ensures Has(With(f, RX0IF), ERRORS) == Has(f, ERRORS)
  {}

  lemma FirstArrives(s: State, image: seq<bv8>)
    requires Started(s) && IsImage(image)
    ensures Enabled(s, Receive(Rx0, image))
    ensures var t := ReceiveStep(s, Rx0, image);
            && t.service.pc.TestPin? && Has(Flags(t), RX0IF) && !Has(Flags(t), ERRORS)
            && t.rx.box0 == Mailbox([ImageFrame(image)], [], true) && t.rx.reader.ReaderIdle?
  {
    NoHandledFlag(Flags(s));
    ReceivedBits(Flags(s));
    Rx0LowersInt(Flags(s));
    ChipRaises(s, Receive(Rx0, image));
    RefillLands(s, Rx0, image);
    ImageArrives(s, image);
  }

  lemma ImageArrives(s: State, image: seq<bv8>)
    requires IsImage(image)
    ensures OnWire(ReceiveStep(s, Rx0, image).regs, RXB0CTRL) == ImageFrame(image)
  {
    var empty := WithImage(map[], RXB0CTRL, image);
    var t := ReceiveStep(s, Rx0, image);
    RefillLands(s, Rx0, image);
    assert Get(empty, RXB0CTRL + DLC) == image[DLC - SIDH];
    forall a: Addr | RXB0CTRL < a <= RXB0CTRL + 13
      ensures Get(empty, a) == Get(t.regs, a)
    {
      assert Get(t.regs, RXB0CTRL + SIDH + (a - RXB0CTRL - SIDH)) == image[a - RXB0CTRL - SIDH];
    }
    SameFrame(empty, t.regs, RXB0CTRL);
  }

  lemma SecondOverwrites(s: State, first: seq<bv8>, second: seq<bv8>) returns (es: seq<Event>)
    requires Started(s) && IsImage(first) && IsImage(second)
    ensures var t := After(s, es);
            t.rx.box0.arrived == [ImageFrame(first), ImageFrame(second)]
                && HandsOverOnly(t.regs, t.rx, Rx0, Received(ImageFrame(second)))
  {
    FirstArrives(s, first);
    AfterOne(s, Receive(Rx0, first));
    var s1 := ReceiveStep(s, Rx0, first);
    var clear := Rx0IsCleared(s1);
    var s2 := After(s1, clear);
    AfterOne(s2, Receive(Rx0, second));
    RefillLands(s2, Rx0, second);
    ImageArrives(s2, second);
    AfterConcat(s, [Receive(Rx0, first)], clear);
    AfterConcat(s, [Receive(Rx0, first)] + clear, [Receive(Rx0, second)]);
    es := [Receive(Rx0, first)] + clear + [Receive(Rx0, second)];
  }

  /** From every start, for any two messages: a run that ends with the driver at rest,
      both frames received, and the first never handed over. */
  lemma RefillLosesAFrame(s: State, first: seq<bv8>, second: seq<bv8>) returns (es: seq<Event>)
    requires Started(s) && IsImage(first) && IsImage(second)
    requires Received(ImageFrame(first)) != Received(ImageFrame(second))
    ensures var t := After(s, es);
            && ServiceAsleep(t) && ReaderAsleep(t)
            && t.rx.box0.arrived == [ImageFrame(first), ImageFrame(second)]
            && Received(ImageFrame(first)) !in t.rx.box0.delivered
  {
    var refill := SecondOverwrites(s, first, second);
    var rest := RestIsReached(s, refill);
    AfterConcat(s, refill, rest);
    HandsOverOnlyStays(After(s, refill), rest, Rx0, Received(ImageFrame(second)));
    es := refill + rest;
  }
}
