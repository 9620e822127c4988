/** In which order frames in different buffers reach the user.  A read takes RXB0 first
    whenever its bit is set, so a frame in RXB1 never overtakes one in RXB0; the other way
    round it can happen, and the exact condition is stated. */
module ReadOrder {
  import opened Registers
  import opened CanFrame
  import opened Protocol
  import opened InterruptProperties
  import opened ReceiveProperties
  import opened ExactlyOnceReceive
  import opened RefillLoss
  import opened Settling

  /** When the last frame arrived in a buffer, counted in events of the schedule. */
  function LastArrival(s: State, es: seq<Event>, b: Buffer): nat {
    if es == [] then 0
    else
      var t, e := After(s, es[..|es| - 1]), es[|es| - 1];
      if Enabled(t, e) && e.Receive? && e.b == b then |es| else LastArrival(s, es[..|es| - 1], b)
  }

  lemma {:induction false} ArrivalsArePast(s: State, es: seq<Event>)
    ensures LastArrival(s, es, Rx0) <= |es| && LastArrival(s, es, Rx1) <= |es|
    ensures LastArrival(s, es, Rx0) == LastArrival(s, es, Rx1) ==> LastArrival(s, es, Rx0) == 0
  {
    if es != [] {
      ArrivalsArePast(s, es[..|es| - 1]);
    }
  }

  // ----- RXB0 first

  /** The service has not cleared a flag of RXB0 it has not read, and has read it or marked
      it if it has read RXB1's. */
  predicate Rx0IsAhead(v: Service, rx: ReceiveSide) {
    || Has(rx.pending, 0x01) || (rx.reader.Reading? && rx.reader.b == Rx0) || v.pc.MarkRx0?
    || (UpToClearRx0(v.pc) && Has(v.intFlag, 0x01))
  }

  /** Where two unread frames are, the one in RXB0 being the older. */
  predicate Rx0IsOlder(f: bv8, v: Service, rx: ReceiveSide) {
    && (!Has(f, 0x02) || (UpToClearRx1(v.pc) && Has(v.intFlag, 0x02)) ==> Rx0IsAhead(v, rx))
    && (Has(rx.pending, 0x02) || v.pc.MarkRx1? ==> Has(rx.pending, 0x01) || (rx.reader.Reading? && rx.reader.b == Rx0))
    && rx.reader != Unmark(Rx1) && !(rx.reader.Reading? && rx.reader.b == Rx1)
  }

  lemma ServiceKeepsOlder(v: Service, regs: Regs, rx: ReceiveSide)
    requires Tracked(Get(regs, CANINTF), v, rx) && rx.box0.unread && rx.box1.unread
    requires Rx0IsOlder(Get(regs, CANINTF), v, rx)
    ensures Rx0IsOlder(FlagsAfter(v, Get(regs, CANINTF)), NextService(v, regs), ServiceRx(v, rx))
  {
    assert Places(Get(regs, CANINTF), v, rx, Rx0) == 1;
    assert Places(Get(regs, CANINTF), v, rx, Rx1) == 1;
    RxNext(v, rx);
    BitsOfMarks(rx.pending);
    FlagsAfterStep(v, Get(regs, CANINTF));
  }

  lemma ReaderKeepsOlder(f: bv8, v: Service, rx: ReceiveSide, regs: Regs)
    requires rx.reader.TakeRx? ==> rx.sem > 0
    requires Counted(Owed(v), rx) && Rx0IsOlder(f, v, rx)
    ensures ReaderRx(rx, regs).box0.unread ==> Rx0IsOlder(f, v, ReaderRx(rx, regs))
  {
    BitsOfMarks(rx.pending);
  }

  lemma ArrivalMakesOlder(f: bv8, v: Service, rx: ReceiveSide, frame: WireFrame)
    requires Tracked(f, v, rx) && rx.box0.unread && !rx.box1.unread
    ensures Rx0IsOlder(With(f, 0x02), v, Arrived(rx, Rx1, frame))
  {
    assert Places(f, v, rx, Rx1) == 0;
    ReceivedBits(f);
  }

  lemma OtherFlagsKeepOlder(f: bv8, v: Service, rx: ReceiveSide, mask: bv8)
    requires Rx0IsOlder(f, v, rx) && !Has(mask, 0x02)
    ensures Rx0IsOlder(With(f, mask), v, rx)
  {}

  predicate KeepsOrder(s: State, arrival0: nat, arrival1: nat) {
    && (s.rx.box0.unread && s.rx.box1.unread && arrival0 < arrival1 ==> Rx0IsOlder(Flags(s), s.service, s.rx))
    && (s.rx.box0.unread ==> arrival0 > 0)
  }

  lemma ReceiveKeepsOrder(s: State, b: Buffer, image: seq<bv8>, arrival0: nat, arrival1: nat, now: nat)
    requires Enabled(s, Receive(b, image)) && !Box(s.rx, b).unread && Tracked(Flags(s), s.service, s.rx)
    requires KeepsOrder(s, arrival0, arrival1) && arrival0 < now && arrival1 < now
    ensures KeepsOrder(ReceiveStep(s, b, image), if b.Rx0? then now else arrival0, if b.Rx1? then now else arrival1)
  {
    ChipRaises(s, Receive(b, image));
    if b.Rx1? && s.rx.box0.unread {
      ArrivalMakesOlder(Flags(s), s.service, s.rx, OnWire(WithImage(s.regs, b.Base(), image), b.Base()));
    }
  }

  lemma NotRx1If(mask: bv8)
    ensures !Has(TX0IF, 0x02) && (Without(mask, ERRORS) == 0 ==> !Has(mask, 0x02))
  {}

  lemma StepKeepsOrder(s: State, e: Event, arrival0: nat, arrival1: nat)
    requires Enabled(s, e) && !e.Receive? && Tracked(Flags(s), s.service, s.rx) && KeepsOrder(s, arrival0, arrival1)
    ensures KeepsOrder(Step(s, e), arrival0, arrival1)
  {
    if e.ServiceRuns? {
      ServiceClears(s.service, s.regs);
      RxNext(s.service, s.rx);
      if s.rx.box0.unread && s.rx.box1.unread && arrival0 < arrival1 {
        ServiceKeepsOlder(s.service, s.regs, s.rx);
      }
    } else if e.ReaderRuns? {
      ReaderMoves(s, arrival0, arrival1);
    } else if ChipEvent(e) {
      ChipRaises(s, e);
      NotRx1If(Raised(e));
      if s.rx.box0.unread && s.rx.box1.unread && arrival0 < arrival1 {
        OtherFlagsKeepOlder(Flags(s), s.service, s.rx, Raised(e));
      }
    } else if !e.IrqRuns? {
      UsersLeaveFlags(s, e);
    }
  }

  lemma ReaderMoves(s: State, arrival0: nat, arrival1: nat)
    requires Enabled(s, ReaderRuns) && Tracked(Flags(s), s.service, s.rx) && KeepsOrder(s, arrival0, arrival1)
    ensures KeepsOrder(ReaderStep(s), arrival0, arrival1)
  {
    if s.rx.box0.unread && s.rx.box1.unread && arrival0 < arrival1 {
      ReaderKeepsOlder(Flags(s), s.service, s.rx, s.regs);
    }
  }

  lemma {:induction false} OrderIsKept(s: State, es: seq<Event>)
    requires Started(s) && NeverRefills(s, es)
    ensures KeepsOrder(After(s, es), LastArrival(s, es, Rx0), LastArrival(s, es, Rx1))
  {
    if es != [] {
      var before, e := es[..|es| - 1], es[|es| - 1];
      var t := After(s, before);
      OrderIsKept(s, before);
      EveryFrameIsDeliveredOnce(s, before);
      if Enabled(t, e) {
        if e.Receive? {
          ArrivalsArePast(s, before);
          ReceiveKeepsOrder(t, e.b, e.image, LastArrival(s, before, Rx0), LastArrival(s, before, Rx1), |es|);
        } else {
          StepKeepsOrder(t, e, LastArrival(s, before, Rx0), LastArrival(s, before, Rx1));
        }
      }
    }
  }

  /** The next step of the reader hands a message over out of buffer b. */
  predicate HandsOver(s: State, b: Buffer) {
    Enabled(s, ReaderRuns) && |Box(ReaderStep(s).rx, b).delivered| > |Box(s.rx, b).delivered|
  }

  /** In every run without refills: when a message of RXB1 is handed over, a frame still
      unread in RXB0 is a younger one. */
  lemma Rx1NeverOvertakes(s: State, es: seq<Event>)
    requires Started(s) && NeverRefills(s, es) && HandsOver(After(s, es), Rx1)
    ensures After(s, es).rx.box0.unread ==> LastArrival(s, es, Rx1) < LastArrival(s, es, Rx0)
  {
    ArrivalsArePast(s, es);
    var t := After(s, es);
    OrderIsKept(s, es);
    EveryFrameIsDeliveredOnce(s, es);
    assert Places(Flags(t), t.service, t.rx, Rx1) >= 1;
  }

  // ----- A younger frame in RXB0

  /** The reader has tested the bit and goes for RXB1. */
  predicate Committed(pc: ReaderPc) {
    pc == Unmark(Rx1) || (pc.Reading? && pc.b == Rx1)
  }

  /** A frame that lands in RXB0 now can be handed over before the one in RXB1. */
  ghost predicate CanOvertake(s: State, image: seq<bv8>)
    requires |image| == 13
  {
    exists es :: NeverRefills(ReceiveStep(s, Rx0, image), es)
                 && Overtaken(s.rx, After(ReceiveStep(s, Rx0, image), es).rx)
  }

  predicate Overtaken(rx: ReceiveSide, rx': ReceiveSide) {
    |rx'.box0.delivered| > |rx.box0.delivered| && rx'.box1.delivered == rx.box1.delivered
  }

  /** Until it is over, a read of RXB1 lets nothing else through. */
  predicate Rx1GoesFirst(rx: ReceiveSide, rx': ReceiveSide) {
    && |rx'.box1.delivered| >= |rx.box1.delivered|
    && (|rx'.box1.delivered| == |rx.box1.delivered| ==>
          Committed(rx'.reader) && rx'.box0.delivered == rx.box0.delivered)
  }

  lemma ReaderKeepsFirst(rx: ReceiveSide, rx': ReceiveSide, regs: Regs)
    requires Rx1GoesFirst(rx, rx') && (rx'.reader.TakeRx? ==> rx'.sem > 0)
    ensures Rx1GoesFirst(rx, ReaderRx(rx', regs))
  {}

  lemma StepKeepsFirst(rx: ReceiveSide, s: State, e: Event)
    requires Enabled(s, e) && Rx1GoesFirst(rx, s.rx)
    ensures Rx1GoesFirst(rx, Step(s, e).rx)
  {
    match e
    case ReaderRuns => ReaderKeepsFirst(rx, s.rx, s.regs);
    case ServiceRuns => RxNext(s.service, s.rx);
    case _ =>
  }

  lemma {:induction false} FirstStays(rx: ReceiveSide, s: State, es: seq<Event>)
    requires Rx1GoesFirst(rx, s.rx)
    ensures Rx1GoesFirst(rx, After(s, es).rx)
  {
    if es != [] {
      FirstStays(rx, s, es[..|es| - 1]);
      if Enabled(After(s, es[..|es| - 1]), es[|es| - 1]) {
        StepKeepsFirst(rx, After(s, es[..|es| - 1]), es[|es| - 1]);
      }
    }
  }

  predicate Healthy(s: State) {
    Delivering(s) && PassFacts(Flags(s), s.service) && Awake(s)
  }

  lemma RunsAreHealthy(s: State, es: seq<Event>)
    requires Started(s) && NeverRefills(s, es)
    ensures Healthy(After(s, es))
  {
    EveryFrameIsDeliveredOnce(s, es);
    PassesStayPaid(s, es);
    NoInterruptIsLost(s, es);
  }

  predicate ByService(e: Event) {
    e.IrqRuns? || e.ServiceRuns?
  }

  lemma ServiceStaysHealthy(s: State, e: Event)
    requires Healthy(s) && ByService(e) && Enabled(s, e)
    ensures Healthy(Step(s, e)) && ServiceWork(Step(s, e)) < ServiceWork(s)
    ensures Step(s, e).rx.reader == s.rx.reader && SameBoxes(s.rx, Step(s, e).rx)
  {
    StepKeepsDelivering(s, e);
    StepKeepsPassFacts(s, e);
    StepStaysAwake(s, e);
    if e.IrqRuns? {
      HandlerDrops(s);
    } else {
      ServiceWorkDrops(s);
      RxNext(s.service, s.rx);
    }
  }

  lemma FlagLowersInt(f: bv8)
    ensures Has(f, 0x01) ==> Has(f, 0xE7)
  {}

  /** The service and its handler can move until an unread frame in RXB0 is pending. */
  lemma SomeServiceStep(s: State) returns (e: Event)
    requires Healthy(s) && s.rx.box0.unread && !(s.rx.reader.Reading? && s.rx.reader.b == Rx0)
    requires !Has(s.rx.pending, 0x01)
    ensures ByService(e) && Enabled(s, e)
  {
    assert Places(Flags(s), s.service, s.rx, Rx0) == 1;
    FlagLowersInt(Flags(s));
    e := if Enabled(s, ServiceRuns) then ServiceRuns else IrqRuns;
  }

  lemma {:induction false} Rx0IsMarked(s: State) returns (es: seq<Event>)
    requires Healthy(s) && s.rx.box0.unread && !(s.rx.reader.Reading? && s.rx.reader.b == Rx0)
    ensures ReceiverOnly(es)
    ensures var t := After(s, es);
            && Healthy(t) && Has(t.rx.pending, 0x01) && t.rx.reader == s.rx.reader && SameBoxes(s.rx, t.rx)
    decreases ServiceWork(s)
  {
    es := [];
    if !Has(s.rx.pending, 0x01) {
      var e := SomeServiceStep(s);
      WorkIsLeft(s);
      ServiceStaysHealthy(s, e);
      AfterOne(s, e);
      var rest := Rx0IsMarked(Step(s, e));
      AfterConcat(s, [e], rest);
      es := [e] + rest;
    }
  }

  /** With both pending the reader, left alone, takes RXB0. */
  lemma {:induction false} ReaderTakesRx0(s: State) returns (es: seq<Event>)
    requires Counted(0, s.rx) && Has(s.rx.pending, 0x01) && !s.rx.reader.Reading? && !Committed(s.rx.reader)
    ensures ReceiverOnly(es)
    ensures var t := After(s, es); t.rx.reader == Reading(Rx0, []) && SameBoxes(s.rx, t.rx) && t.regs == s.regs
    decreases StepsTo(UNMARK, s.rx.reader)
  {
    var e := if s.rx.reader.ReaderIdle? then StartRead else ReaderRuns;
    AfterOne(s, e);
    es := [e];
    if s.rx.reader != Unmark(Rx0) {
      var rest := ReaderTakesRx0(Step(s, e));
      AfterConcat(s, es, rest);
      es := es + rest;
    }
  }

  lemma PendingIsRead(s: State) returns (es: seq<Event>)
    requires Healthy(s) && Has(s.rx.pending, 0x01) && !s.rx.reader.Reading? && !Committed(s.rx.reader)
    ensures ReceiverOnly(es) && Overtaken(s.rx, After(s, es).rx)
  {
    assert Places(Flags(s), s.service, s.rx, Rx0) == 1;
    DeliveringWaits(s, Rx0);
    var given := OwedIsGiven(s, Rx0);
    var taken := ReaderTakesRx0(After(s, given));
    AfterConcat(s, given, taken);
    var read := ReadEnds(After(s, given + taken), Rx0);
    AfterConcat(s, given + taken, read);
    es := given + taken + read;
    assert Box(After(s, es).rx, Rx1) == Box(s.rx, Rx1);
  }

  lemma Overtakes(s: State, image: seq<bv8>)
    requires Healthy(s) && Enabled(s, Receive(Rx0, image)) && !s.rx.box0.unread && !Committed(s.rx.reader)
    requires Healthy(ReceiveStep(s, Rx0, image))
    ensures CanOvertake(s, image)
  {
    var t := ReceiveStep(s, Rx0, image);
    assert Places(Flags(s), s.service, s.rx, Rx0) == 0;
    var marked := Rx0IsMarked(t);
    var read := PendingIsRead(After(t, marked));
    AfterConcat(t, marked, read);
    ReceiverNeverRefills(t, marked + read);
  }

  /** After any run without refills, with a frame unread in RXB1 and room in RXB0: a frame
      that arrives in RXB0 now can be handed over first if and only if the reader has not
      yet found RXB0's bit clear and gone for RXB1. */
  lemma Rx0OvertakesUntilTested(s0: State, es0: seq<Event>, image: seq<bv8>)
    requires Started(s0) && NeverRefills(s0, es0)
    requires var s := After(s0, es0); s.rx.box1.unread && !s.rx.box0.unread && Enabled(s, Receive(Rx0, image))
    ensures CanOvertake(After(s0, es0), image) <==> !Committed(After(s0, es0).rx.reader)
  {
    var s := After(s0, es0);
    RunsAreHealthy(s0, es0);
    if Committed(s.rx.reader) {
      forall es
        ensures !Overtaken(s.rx, After(ReceiveStep(s, Rx0, image), es).rx)
      {
        FirstStays(s.rx, ReceiveStep(s, Rx0, image), es);
      }
    } else {
      RunsAreHealthy(s0, es0 + [Receive(Rx0, image)]);
      Overtakes(s, image);
    }
  }
}
