/** Exactly-once delivery.  The driver clears RXnIF before the user reads the
    buffer, so this needs the chip not to refill a buffer whose frame still waits
    to be read; under that condition nothing is lost, repeated, altered or
    delivered out of order. */
module ExactlyOnceReceive {
  import opened Registers
  import opened CanFrame
  import opened BufferReads
  import opened Protocol
  import opened InterruptProperties
  import opened ReceiveProperties

  predicate Refills(s: State, e: Event) {
    e.Receive? && Box(s.rx, e.b).unread
  }

  /** No step of the schedule that happens is a refill. */
  predicate NeverRefills(s: State, es: seq<Event>) {
    es == [] ||
    var t, e := After(s, es[..|es| - 1]), es[|es| - 1];
    NeverRefills(s, es[..|es| - 1]) && (Enabled(t, e) ==> !Refills(t, e))
  }

  // ----- The invariant

  /** Where an unread frame is: flagged by the chip, in the service's hands,
      marked pending, or being read. */
  function Places(f: bv8, v: Service, rx: ReceiveSide, b: Buffer): nat {
    Bit(f, b.Flag()) + (if v.pc == MarkPc(b) then 1 else 0) + Bit(rx.pending, b.PendingBit())
    + (if rx.reader.Reading? && rx.reader.b == b then 1 else 0)
  }

  predicate Placed(f: bv8, v: Service, rx: ReceiveSide) {
    forall b: Buffer :: Places(f, v, rx, b) == if Box(rx, b).unread then 1 else 0
  }

  /** Tokens stored, owed and taken by an unfinished read are as many as pending bits. */
  predicate Counted(owed: nat, rx: ReceiveSide) {
    && PendingCount(rx) == rx.sem + owed + InProgress(rx.reader)
    && (rx.reader.Unmark? ==> Has(rx.pending, rx.reader.b.PendingBit()))
  }

  predicate Tracked(f: bv8, v: Service, rx: ReceiveSide) {
    MarkFacts(v) && HeldFacts(f, v) && Placed(f, v, rx) && Counted(Owed(v), rx)
  }

  /** What was handed over is what arrived, in order, but for the frame still
      unread; that one is intact in its buffer. */
  predicate Faithful(regs: Regs, box: Mailbox, buffer: MessageBuffer) {
    && |box.arrived| == |box.delivered| + (if box.unread then 1 else 0)
    && (forall i :: 0 <= i < |box.delivered| ==> box.delivered[i] == Received(box.arrived[i]))
    && (box.unread ==> box.arrived[|box.delivered|] == OnWire(regs, buffer) && DataLength(regs, buffer) <= 8)
  }

  predicate ReadSoFar(regs: Regs, pc: ReaderPc) {
    pc.Reading? ==> ReadsMatch(regs, pc.b.Base(), pc.got) && |pc.got| <= HeaderReads(Extended(pc.got)) + 8
  }

  // ----- Buffers nobody writes stay as they are

  predicate SameBuffer(regs: Regs, regs': Regs, buffer: MessageBuffer) {
    forall a: Addr :: buffer < a <= buffer + 13 ==> Get(regs, a) == Get(regs', a)
  }

  lemma SenderLeavesBuffers(s: State, b: Buffer)
    ensures SameBuffer(s.regs, SenderStep(s).regs, b.Base())
  {}

  lemma ServiceLeavesBuffers(v: Service, regs: Regs, b: Buffer)
    ensures SameBuffer(regs, ServiceRegs(v, regs), b.Base())
  {}

  lemma ReceiveLeavesOther(s: State, b: Buffer, image: seq<bv8>, other: Buffer)
    requires |image| == 13 && b != other
    ensures SameBuffer(s.regs, ReceiveStep(s, b, image).regs, other.Base())
  {}

  lemma BufferStands(s: State, e: Event, b: Buffer)
    requires Enabled(s, e) && !(e.Receive? && e.b == b)
    ensures SameBuffer(s.regs, Step(s, e).regs, b.Base())
  {
    match e
    case SenderRuns => SenderLeavesBuffers(s, b);
    case ServiceRuns => ServiceLeavesBuffers(s.service, s.regs, b);
    case Receive(other, image) => ReceiveLeavesOther(s, other, image, b);
    case _ =>
  }

  lemma SameFrame(regs: Regs, regs': Regs, buffer: MessageBuffer)
    requires SameBuffer(regs, regs', buffer) && DataLength(regs, buffer) <= 8
    ensures OnWire(regs', buffer) == OnWire(regs, buffer) && DataLength(regs', buffer) <= 8
  {}

  lemma SameReads(regs: Regs, regs': Regs, buffer: MessageBuffer, got: seq<bv8>)
    requires SameBuffer(regs, regs', buffer) && ReadsMatch(regs, buffer, got) && |got| <= HeaderReads(Extended(got)) + 8
    ensures ReadsMatch(regs', buffer, got)
  {}

  // ----- Every step keeps it

  lemma FlagToMark(v: Service, regs: Regs, b: Buffer)
    requires HeldFacts(Get(regs, CANINTF), v)
    ensures Bit(FlagsAfter(v, Get(regs, CANINTF)), b.Flag()) + (if NextService(v, regs).pc == MarkPc(b) then 1 else 0)
            == Bit(Get(regs, CANINTF), b.Flag())
  {}

  lemma MarkToPending(v: Service, rx: ReceiveSide, b: Buffer)
    requires v.pc == MarkPc(b) ==> !Has(rx.pending, b.PendingBit())
    ensures Bit(ServiceRx(v, rx).pending, b.PendingBit()) == Bit(rx.pending, b.PendingBit())
            + (if v.pc == MarkPc(b) then 1 else 0)
  {}

  lemma PlacesNext(v: Service, regs: Regs, rx: ReceiveSide, b: Buffer)
    requires MarkFacts(v) && HeldFacts(Get(regs, CANINTF), v)
    requires v.pc == MarkPc(b) ==> !Has(rx.pending, b.PendingBit())
    ensures Places(FlagsAfter(v, Get(regs, CANINTF)), NextService(v, regs), ServiceRx(v, rx), b)
            == Places(Get(regs, CANINTF), v, rx, b)
  {
    FlagToMark(v, regs, b);
    MarkToPending(v, rx, b);
    RxNext(v, rx);
  }

  lemma ServiceKeepsPlaced(v: Service, regs: Regs, rx: ReceiveSide)
    requires Tracked(Get(regs, CANINTF), v, rx)
    ensures Placed(FlagsAfter(v, Get(regs, CANINTF)), NextService(v, regs), ServiceRx(v, rx))
  {
    forall b: Buffer
      ensures Places(FlagsAfter(v, Get(regs, CANINTF)), NextService(v, regs), ServiceRx(v, rx), b)
              == if Box(ServiceRx(v, rx), b).unread then 1 else 0
    {
      assert Places(Get(regs, CANINTF), v, rx, b) <= 1;
      PlacesNext(v, regs, rx, b);
      RxNext(v, rx);
    }
  }

  lemma ServiceKeepsCounted(v: Service, regs: Regs, rx: ReceiveSide)
    requires MarkFacts(v) && Counted(Owed(v), rx)
    requires forall b: Buffer :: v.pc == MarkPc(b) ==> !Has(rx.pending, b.PendingBit())
    ensures Counted(Owed(NextService(v, regs)), ServiceRx(v, rx))
    ensures Gives(v) ==> rx.sem < 2
  {
    OwedNext(v, regs);
    RxNext(v, rx);
    BitsOfMarks(rx.pending);
    assert v.pc == MarkPc(Rx0) ==> !Has(rx.pending, Rx0.PendingBit());
    assert v.pc == MarkPc(Rx1) ==> !Has(rx.pending, Rx1.PendingBit());
  }

  lemma ServiceKeepsTracked(v: Service, regs: Regs, rx: ReceiveSide)
    requires Tracked(Get(regs, CANINTF), v, rx)
    ensures Tracked(FlagsAfter(v, Get(regs, CANINTF)), NextService(v, regs), ServiceRx(v, rx))
    ensures Gives(v) ==> rx.sem < 2
  {
    ServiceKeepsPlaced(v, regs, rx);
    ServiceKeepsHeldFacts(v, regs);
    OwedNext(v, regs);
    forall b: Buffer
      ensures v.pc == MarkPc(b) ==> !Has(rx.pending, b.PendingBit())
    {
      assert Places(Get(regs, CANINTF), v, rx, b) <= 1;
    }
    ServiceKeepsCounted(v, regs, rx);
  }

  lemma ReaderKeepsPlace(f: bv8, v: Service, rx: ReceiveSide, regs: Regs, b: Buffer)
    requires rx.reader.TakeRx? ==> rx.sem > 0
    requires Places(f, v, rx, b) == if Box(rx, b).unread then 1 else 0
    requires rx.reader.Unmark? ==> Has(rx.pending, rx.reader.b.PendingBit())
    ensures var rx' := ReaderRx(rx, regs); Places(f, v, rx', b) == if Box(rx', b).unread then 1 else 0
  {}

  lemma ReaderKeepsPlaced(f: bv8, v: Service, rx: ReceiveSide, regs: Regs)
    requires rx.reader.TakeRx? ==> rx.sem > 0
    requires Placed(f, v, rx) && (rx.reader.Unmark? ==> Has(rx.pending, rx.reader.b.PendingBit()))
    ensures Placed(f, v, ReaderRx(rx, regs))
  {
    ReaderKeepsPlace(f, v, rx, regs, Rx0);
    ReaderKeepsPlace(f, v, rx, regs, Rx1);
  }

  lemma StartKeepsPlaced(f: bv8, v: Service, rx: ReceiveSide)
    requires Placed(f, v, rx) && rx.reader.ReaderIdle?
    ensures Placed(f, v, rx.(reader := TakeRx))
  {
    forall b: Buffer
      ensures Places(f, v, rx.(reader := TakeRx), b) == if Box(rx, b).unread then 1 else 0
    {
      assert Places(f, v, rx, b) == if Box(rx, b).unread then 1 else 0;
    }
  }

  lemma ReaderKeepsCounted(owed: nat, rx: ReceiveSide, regs: Regs)
    requires rx.reader.TakeRx? ==> rx.sem > 0
    requires Counted(owed, rx)
    ensures Counted(owed, ReaderRx(rx, regs))
  {}

  lemma ReceivedBits(f: bv8)
    ensures Has(With(f, RX0IF), RX0IF) && Has(With(f, RX0IF), RX1IF) == Has(f, RX1IF)
            && Has(With(f, RX0IF), TX0IF) == Has(f, TX0IF)
    ensures Has(With(f, RX1IF), RX1IF) && Has(With(f, RX1IF), RX0IF) == Has(f, RX0IF)
            && Has(With(f, RX1IF), TX0IF) == Has(f, TX0IF)
    ensures Has(With(f, TX0IF), TX0IF) && Has(With(f, TX0IF), RX0IF) == Has(f, RX0IF)
            && Has(With(f, TX0IF), RX1IF) == Has(f, RX1IF)
  {}

  lemma ReceiveKeepsPlace(f: bv8, v: Service, rx: ReceiveSide, b: Buffer, frame: WireFrame, c: Buffer)
    requires Places(f, v, rx, c) == if Box(rx, c).unread then 1 else 0
    requires !Box(rx, b).unread
    ensures Places(With(f, b.Flag()), v, Arrived(rx, b, frame), c) == if Box(Arrived(rx, b, frame), c).unread
            then 1 else 0
  {
    ReceivedBits(f);
  }

  lemma ReceiveKeepsPlaced(f: bv8, v: Service, rx: ReceiveSide, b: Buffer, frame: WireFrame)
    requires Placed(f, v, rx) && !Box(rx, b).unread
    ensures Placed(With(f, b.Flag()), v, Arrived(rx, b, frame))
  {
    ReceiveKeepsPlace(f, v, rx, b, frame, Rx0);
    ReceiveKeepsPlace(f, v, rx, b, frame, Rx1);
  }

  lemma FlagsBeyondReceive(f: bv8, v: Service, rx: ReceiveSide, mask: bv8)
    requires mask == TX0IF || Without(mask, ERRORS) == 0
    requires Placed(f, v, rx)
    ensures Placed(With(f, mask), v, rx)
  {}

  lemma RaisedFlagsStayHeld(f: bv8, v: Service, mask: bv8)
    requires HeldFacts(f, v)
    ensures HeldFacts(With(f, mask), v)
  {}

  lemma StepKeepsTracked(s: State, e: Event)
    requires Enabled(s, e) && !Refills(s, e) && Tracked(Flags(s), s.service, s.rx)
    ensures Tracked(Flags(Step(s, e)), Step(s, e).service, Step(s, e).rx)
  {
    if ChipEvent(e) {
      ChipRaises(s, e);
      RaisedFlagsStayHeld(Flags(s), s.service, Raised(e));
      if e.Receive? {
        ReceiveKeepsPlaced(Flags(s), s.service, s.rx, e.b, OnWire(WithImage(s.regs, e.b.Base(), e.image), e.b.Base()));
      } else {
        FlagsBeyondReceive(Flags(s), s.service, s.rx, Raised(e));
      }
    } else if e.ServiceRuns? {
      ServiceClears(s.service, s.regs);
      ServiceKeepsTracked(s.service, s.regs, s.rx);
    } else if e.IrqRuns? {
    } else {
      UsersLeaveFlags(s, e);
      if e.ReaderRuns? {
        ReaderKeepsPlaced(Flags(s), s.service, s.rx, s.regs);
        ReaderKeepsCounted(Owed(s.service), s.rx, s.regs);
      } else if e.StartRead? {
        StartKeepsPlaced(Flags(s), s.service, s.rx);
      }
    }
  }

  lemma ArrivalKeepsFaithful(s: State, b: Buffer, image: seq<bv8>)
    requires Enabled(s, Receive(b, image)) && !Box(s.rx, b).unread
    requires Faithful(s.regs, Box(s.rx, b), b.Base())
    ensures Faithful(ReceiveStep(s, b, image).regs, Box(ReceiveStep(s, b, image).rx, b), b.Base())
  {
    var landed := WithImage(s.regs, b.Base(), image);
    assert Get(landed, b.Base() + DLC) == image[DLC - SIDH];
    assert SameBuffer(landed, ReceiveStep(s, b, image).regs, b.Base());
    SameFrame(landed, ReceiveStep(s, b, image).regs, b.Base());
  }

  lemma DeliveryKeepsFaithful(rx: ReceiveSide, regs: Regs, b: Buffer)
    requires rx.reader.Reading? && Box(rx, rx.reader.b).unread
    requires Faithful(regs, Box(rx, b), b.Base()) && ReadSoFar(regs, rx.reader)
    ensures Faithful(regs, Box(ReaderRx(rx, regs), b), b.Base())
  {
    LastReadAssembles(regs, rx.reader.b.Base(), rx.reader.got);
  }

  lemma StepKeepsFaithful(s: State, e: Event, b: Buffer)
    requires Enabled(s, e) && !Refills(s, e) && Tracked(Flags(s), s.service, s.rx)
    requires Faithful(s.regs, Box(s.rx, b), b.Base()) && ReadSoFar(s.regs, s.rx.reader)
    ensures Faithful(Step(s, e).regs, Box(Step(s, e).rx, b), b.Base())
  {
    if e.Receive? && e.b == b {
      ArrivalKeepsFaithful(s, b, e.image);
    } else {
      BufferStands(s, e, b);
      if Box(s.rx, b).unread {
        SameFrame(s.regs, Step(s, e).regs, b.Base());
      }
      if e.ReaderRuns? && s.rx.reader.Reading? {
        assert Places(Flags(s), s.service, s.rx, s.rx.reader.b) >= 1;
        DeliveryKeepsFaithful(s.rx, s.regs, b);
      }
    }
  }

  lemma ReaderKeepsReadSoFar(rx: ReceiveSide, regs: Regs)
    requires rx.reader.TakeRx? ==> rx.sem > 0
    requires ReadSoFar(regs, rx.reader)
    requires rx.reader.Reading? ==> DataLength(regs, rx.reader.b.Base()) <= 8
    ensures ReadSoFar(regs, ReaderRx(rx, regs).reader)
  {}

  lemma StepKeepsReadSoFar(s: State, e: Event)
    requires Enabled(s, e) && !Refills(s, e) && ReadSoFar(s.regs, s.rx.reader)
    requires s.rx.reader.Reading? ==> Box(s.rx, s.rx.reader.b).unread && DataLength(s.regs, s.rx.reader.b.Base()) <= 8
    ensures ReadSoFar(Step(s, e).regs, Step(s, e).rx.reader)
  {
    if e.ReaderRuns? {
      ReaderKeepsReadSoFar(s.rx, s.regs);
    } else if s.rx.reader.Reading? {
      BufferStands(s, e, s.rx.reader.b);
      SameReads(s.regs, Step(s, e).regs, s.rx.reader.b.Base(), s.rx.reader.got);
      assert Step(s, e).rx.reader == s.rx.reader;
    }
  }

  // ----- Whole runs

  predicate Delivering(s: State) {
    && Tracked(Flags(s), s.service, s.rx) && ReadSoFar(s.regs, s.rx.reader)
    && forall b: Buffer :: Faithful(s.regs, Box(s.rx, b), b.Base())
  }

  lemma StepKeepsDelivering(s: State, e: Event)
    requires Enabled(s, e) && !Refills(s, e) && Delivering(s)
    ensures Delivering(Step(s, e))
  {
    StepKeepsTracked(s, e);
    if s.rx.reader.Reading? {
      assert Places(Flags(s), s.service, s.rx, s.rx.reader.b) >= 1;
      assert Faithful(s.regs, Box(s.rx, s.rx.reader.b), s.rx.reader.b.Base());
    }
    StepKeepsReadSoFar(s, e);
    forall b: Buffer
      ensures Faithful(Step(s, e).regs, Box(Step(s, e).rx, b), b.Base())
    {
      StepKeepsFaithful(s, e, b);
    }
  }

  lemma StartIsTracked(f: bv8, v: Service, rx: ReceiveSide)
    requires !Has(f, RX0IF) && !Has(f, RX1IF) && v.pc == TestPin
    requires rx.sem == 0 && rx.pending == 0 && rx.reader == ReaderIdle && !rx.box0.unread && !rx.box1.unread
    ensures Tracked(f, v, rx)
  {}

  lemma StartDelivers(s: State)
    requires Started(s)
    ensures Delivering(s)
  {
    NoHandledFlag(Flags(s));
    StartIsTracked(Flags(s), s.service, s.rx);
  }

  lemma {:induction false} DeliveringStays(s: State, es: seq<Event>)
    requires Delivering(s) && NeverRefills(s, es)
    ensures Delivering(After(s, es))
  {
    if es != [] {
      var t, e := After(s, es[..|es| - 1]), es[|es| - 1];
      DeliveringStays(s, es[..|es| - 1]);
      if Enabled(t, e) {
        StepKeepsDelivering(t, e);
      }
    }
  }

  /** In every run that never refills an unread buffer: pending bits are exactly
      the tokens stored, owed and taken by an unfinished read, and each buffer's
      deliveries are its arrivals, once each, unaltered and in order, up to the
      one frame that may still be in the buffer. */
  lemma EveryFrameIsDeliveredOnce(s: State, es: seq<Event>)
    requires Started(s) && NeverRefills(s, es)
    ensures Delivering(After(s, es))
  {
    StartDelivers(s);
    DeliveringStays(s, es);
  }

  /** In such a run no give is dropped at the semaphore's capacity. */
  lemma NoGiveIsDropped(s: State, es: seq<Event>)
    requires Started(s) && NeverRefills(s, es)
    ensures Gives(After(s, es).service) ==> After(s, es).rx.sem < 2
  {
    EveryFrameIsDeliveredOnce(s, es);
    var t := After(s, es);
    ServiceKeepsTracked(t.service, t.regs, t.rx);
  }
}
