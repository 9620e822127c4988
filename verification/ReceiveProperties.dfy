/** The receive side of the protocol, whatever the chip does: no reader sleeps on a
    frame that is ready. */
module ReceiveProperties {
  import opened Registers
  import opened Protocol

  function Box(rx: ReceiveSide, b: Buffer): Mailbox {
    if b.Rx0? then rx.box0 else rx.box1
  }

  function PendingCount(rx: ReceiveSide): nat {
    Bit(rx.pending, 0x01) + Bit(rx.pending, 0x02)
  }

  function MarkPc(b: Buffer): ServicePc {
    if b.Rx0? then MarkRx0 else MarkRx1
  }

  /** The service has marked RXB0 (RXB1) pending and not given its token yet. */
  predicate Owes0(v: Service) {
    Has(v.intFlag, RX0IF) && (v.pc.ClearRx1? || v.pc.MarkRx1? || v.pc.ClearTx0? || v.pc.UnmarkTx0? || v.pc.GiveRx0?)
  }
  predicate Owes1(v: Service) {
    Has(v.intFlag, RX1IF) && (v.pc.ClearTx0? || v.pc.UnmarkTx0? || v.pc.GiveRx0? || v.pc.GiveRx1?)
  }

  function Owed(v: Service): nat {
    (if Owes0(v) then 1 else 0) + (if Owes1(v) then 1 else 0)
  }

  /** A read that has taken its token and not yet cleared a pending bit. */
  function InProgress(pc: ReaderPc): nat {
    if pc.CopyStamp? || pc.TestRx0? || pc.Unmark? then 1 else 0
  }

  predicate MarkFacts(v: Service) {
    (v.pc.MarkRx0? ==> Has(v.intFlag, RX0IF)) && (v.pc.MarkRx1? ==> Has(v.intFlag, RX1IF))
  }

  /** Where the reader is in its cycle of calls. */
  function Place(pc: ReaderPc): nat {
    match pc
    case CopyStamp => COPY_STAMP case TestRx0 => 1 case Unmark(_) => UNMARK
    case Reading(_, got) => 3 + |got|
    case ReaderIdle => 30 case TakeRx => TAKE_RX
  }

  const COPY_STAMP := 0
  const UNMARK := 2
  const TAKE_RX := 31

  /** Steps of the reader to a place in its cycle, at most. */
  function StepsTo(place: nat, pc: ReaderPc): nat {
    if place >= Place(pc) then place - Place(pc) else 32 + place - Place(pc)
  }

  // ----- No lost wake-up, whatever the chip does

  predicate Covered(v: Service, rx: ReceiveSide) {
    && MarkFacts(v) && rx.sem <= 2
    && PendingCount(rx) <= rx.sem + Owed(v) + InProgress(rx.reader)
    && (rx.reader == Unmark(Rx0) ==> Has(rx.pending, 0x01))
    && (rx.reader == Unmark(Rx1) && !Has(rx.pending, 0x02) ==> PendingCount(rx) <= rx.sem + Owed(v))
  }

  lemma BitsOfMarks(x: bv8)
    ensures Bit(With(x, 0x01), 0x01) == 1 && Bit(With(x, 0x01), 0x02) == Bit(x, 0x02)
    ensures Bit(With(x, 0x02), 0x02) == 1 && Bit(With(x, 0x02), 0x01) == Bit(x, 0x01)
    ensures Bit(Without(x, 0x01), 0x01) == 0 && Bit(Without(x, 0x01), 0x02) == Bit(x, 0x02)
    ensures Bit(Without(x, 0x02), 0x02) == 0 && Bit(Without(x, 0x02), 0x01) == Bit(x, 0x01)
  {}

  predicate Marks(v: Service) {
    v.pc.MarkRx0? || v.pc.MarkRx1?
  }

  predicate Gives(v: Service) {
    (v.pc.GiveRx0? && Has(v.intFlag, RX0IF)) || (v.pc.GiveRx1? && Has(v.intFlag, RX1IF))
  }

  lemma OwedNext(v: Service, regs: Regs)
    requires MarkFacts(v)
    ensures MarkFacts(NextService(v, regs))
    ensures Owed(NextService(v, regs)) == Owed(v) + (if Marks(v) then 1 else 0) - (if Gives(v) then 1 else 0)
  {}

  lemma RxNext(v: Service, rx: ReceiveSide)
    ensures ServiceRx(v, rx)
            == rx.(pending := ServiceRx(v, rx).pending, sem := if Gives(v) then Give2(rx.sem) else rx.sem,
                   marks := rx.marks + (if Marks(v) then 1 else 0),
                   gives := rx.gives + (if Gives(v) then 1 else 0))
    ensures ServiceRx(v, rx).pending ==
            if v.pc.MarkRx0? then With(rx.pending, 0x01)
            else if v.pc.MarkRx1? then With(rx.pending, 0x02)
            else rx.pending
  {}

  lemma ServiceKeepsCovered(v: Service, regs: Regs, rx: ReceiveSide)
    requires Covered(v, rx)
    ensures Covered(NextService(v, regs), ServiceRx(v, rx))
  {
    OwedNext(v, regs);
    RxNext(v, rx);
    BitsOfMarks(rx.pending);
  }

  lemma ReaderKeepsCovered(v: Service, rx: ReceiveSide, regs: Regs)
    requires Covered(v, rx) && (rx.reader.TakeRx? ==> rx.sem > 0)
    ensures Covered(v, ReaderRx(rx, regs))
  {}

  lemma StepKeepsCovered(s: State, e: Event)
    requires Enabled(s, e) && Covered(s.service, s.rx)
    ensures Covered(Step(s, e).service, Step(s, e).rx)
  {
    match e
    case ServiceRuns => ServiceKeepsCovered(s.service, s.regs, s.rx);
    case ReaderRuns => ReaderKeepsCovered(s.service, s.rx, s.regs);
    case Receive(b, image) =>
      var rx' := Step(s, e).rx;
      assert rx'.sem == s.rx.sem && rx'.pending == s.rx.pending && rx'.reader == s.rx.reader;
    case _ =>
  }

  /** Under any schedule, also one where the chip overwrites unread frames and
      gives are dropped: every pending bit is backed by a stored token, a give the
      service still owes, or a read in progress.  So with the service asleep and
      no read under way, a reader that finds the semaphore empty misses nothing. */
  lemma {:induction false} NoReceiveWakeupIsLost(s: State, es: seq<Event>)
    requires Started(s)
    ensures Covered(After(s, es).service, After(s, es).rx)
    ensures var t := After(s, es);
            t.service.pc.TakeInt? && InProgress(t.rx.reader) == 0 && t.rx.sem == 0 ==> !Has(t.rx.pending, 0x03)
  {
    if es != [] {
      var t, e := After(s, es[..|es| - 1]), es[|es| - 1];
      NoReceiveWakeupIsLost(s, es[..|es| - 1]);
      if Enabled(t, e) {
        StepKeepsCovered(t, e);
      }
    }
  }
}
