/** The driver's tasks as they are written, each statement one step of the protocol
    and anything the others do in between. */
module Mcp2515Task {
  import opened Counting
  import opened Registers
  import opened CanFrame
  import opened BufferReads
  import opened Protocol
  import opened InterruptProperties
  import opened ReceiveProperties
  import opened TransmitProperties
  import opened ExactlyOnceReceive
  import opened BusOff
  import opened StampOrigin

  /** Who is running: the others' events come from the schedule. */
  datatype Actor = Handler | CanService | Reader | Sender

  predicate Moves(a: Actor, e: Event) {
    match e
    case IrqRuns => a.Handler?
    case ServiceRuns => a.CanService?
    case ReaderRuns => a.Reader?
    case StartRead => a.Reader?
    case SenderRuns => a.Sender?
    case StartSend(_) => a.Sender?
    case _ => false
  }

  /** The same messages and timestamps have been handed out. */
  predicate SameHandouts(s: State, t: State) {
    t.rx.box0.delivered == s.rx.box0.delivered && t.rx.box1.delivered == s.rx.box1.delivered
        && t.clock.stamps == s.clock.stamps
  }

  /** What the service has done, counted: passes, flags it cleared, and each of its
      markings and gives; and what it alone sets: CANCTRL and the receive time. */
  datatype Work = Work(passes: nat, cleared: nat, rxMarks: nat, rxGives: nat, unmarks: nat, txGives: nat,
      mode: bv8, rxTime: nat, rxRun: nat)

  function WorkOf(s: State): Work {
    Work(s.line.passes, s.line.flagsCleared, s.rx.marks, s.rx.gives, s.tx.unmarks, s.tx.gives,
        Get(s.regs, 0x0F), s.clock.lastRx, s.clock.rxRun)
  }

  function More(w: Work, cleared: nat, rxMarks: nat, rxGives: nat, unmarks: nat, txGives: nat): Work {
    w.(cleared := w.cleared + cleared, rxMarks := w.rxMarks + rxMarks, rxGives := w.rxGives + rxGives,
       unmarks := w.unmarks + unmarks, txGives := w.txGives + txGives)
  }

  /** A receive flag sets the receive time; nothing else does. */
  function Noted(w: Work, intFlag: bv8, lastInt: nat, runs: nat): Work {
    if intFlag & 0x03 != 0 then w.(rxTime := lastInt, rxRun := runs) else w
  }

  lemma OneFlagCleared(f: bv8)
    ensures Has(f, RX0IF) ==> EnabledCount(Only(f, RX0IF)) == 1
    ensures Has(f, RX1IF) ==> EnabledCount(Only(f, RX1IF)) == 1
    ensures Has(f, TX0IF) ==> EnabledCount(Only(f, TX0IF)) == 1
  {}

  lemma NothingCleared(f: bv8)
    ensures EnabledCount(Only(f, 0)) == 0
  {}

  /** What nobody but the actor changes. */
  predicate Untouched(a: Actor, s: State, t: State) {
    match a
    case Handler => t.line.irq == s.line.irq && t.clock.runs == s.clock.runs && t.clock.lastInt == s.clock.lastInt
    case CanService => t.service == s.service && WorkOf(t) == WorkOf(s)
    case Reader => t.rx.reader == s.rx.reader && SameHandouts(s, t)
    case Sender => t.tx.sender == s.tx.sender && t.tx.requests == s.tx.requests
  }

  lemma OthersLeaveUntouched(a: Actor, s: State, e: Event)
    requires Enabled(s, e) && !Moves(a, e)
    ensures Untouched(a, s, Step(s, e))
  {
    if ChipEvent(e) {
      ChipRaises(s, e);
    }
    if !e.ServiceRuns? {
      OthersLeaveMode(s, e);
    }
  }

  /** n scheduled events can set six flags each and wake the service once each. */
  predicate Within(s: State, n: nat, t: State, m: nat) {
    m <= n && t.line.flagsSet + 6 * m <= s.line.flagsSet + 6 * n && 2 * m + One(t.line.sem) <= 2 * n + One(s.line.sem)
  }

  lemma EventIsWithin(s: State, e: Event, n: nat)
    requires Enabled(s, e) && n > 0
    ensures Within(s, n, Step(s, e), n - 1)
  {}

  lemma UnmarkShares(s: State)
    requires s.service.pc.ErrorUnmark? || s.service.pc.UnmarkTx0?
    ensures var t := ServiceStep(s);
            && t.regs == s.regs && t.line.sem == s.line.sem && t.rx == s.rx && t.clock == s.clock
            && t.tx.sem == s.tx.sem && t.tx.pending == Without(s.tx.pending, 0x01)
            && WorkOf(t) == WorkOf(s).(unmarks := s.tx.unmarks + 1)
  {}

  /** The reads of a header, and what they say. */
  predicate IsHeader(header: seq<bv8>, canId: bv32, len: nat) {
    && |header| >= 3 && |header| == HeaderReads(Extended(header)) && len == ReadLength(header)
    && canId == UnpackId(header[0], header[1], if Extended(header) then header[3] else 0,
        if Extended(header) then header[4] else 0)
  }

  lemma BaseReads(got: seq<bv8>)
    requires |got| < 3
    ensures !ReadsDone(got) && NextOffset(got) == if |got| == 0 then SIDH else if |got| == 1 then SIDL else DLC
  {}

  lemma PayloadRead(header: seq<bv8>, canId: bv32, len: nat, data: seq<bv8>)
    requires IsHeader(header, canId, len) && |data| < len
    ensures !ReadsDone(header + data) && NextOffset(header + data) == D0 + |data|
  {}

  lemma AllRead(header: seq<bv8>, canId: bv32, len: nat, data: seq<bv8>)
    requires IsHeader(header, canId, len) && |data| == len
    ensures ReadsDone(header + data) && Assemble(header + data) == Message(canId, data)
  {}

  /** A read of buffer b that began with the receive side at rx0 has taken the values
      got; the last one has handed the message over. */
  predicate ReadUpTo(rx0: ReceiveSide, rx: ReceiveSide, b: Buffer, got: seq<bv8>) {
    if ReadsDone(got) then HandedOver(rx0, rx, b, Assemble(got))
    else
      && rx.reader == Reading(b, got)
      && rx.box0.delivered == rx0.box0.delivered && rx.box1.delivered == rx0.box1.delivered
  }

  lemma ReadGoesOn(rx0: ReceiveSide, rx: ReceiveSide, b: Buffer, got: PartialRead, regs: Regs)
    requires ReadUpTo(rx0, rx, b, got)
    ensures ReadUpTo(rx0, ReaderRx(rx, regs), b, got + [Get(regs, b.Base() + NextOffset(got))])
  {}

  lemma HeldLengthFits(s: State, b: Buffer, canId: bv32, len: nat, header: PartialRead)
    requires Delivering(s) && IsHeader(header, canId, len) && s.rx.reader == Reading(b, header)
    ensures len <= 8
  {
    assert Places(Flags(s), s.service, s.rx, b) >= 1;
    assert Faithful(s.regs, Box(s.rx, b), b.Base());
    assert header[2] == Get(s.regs, b.Base() + ReadOffset(Extended(header), 2));
  }

  /** Without refills a length read is that of an arrived frame. */
  lemma LengthsFitWithoutRefills(start: State, es: seq<Event>, b: Buffer, canId: bv32, len: nat,
      rx0: ReceiveSide, header: seq<bv8>)
    requires Started(start) && NeverRefills(start, es) && IsHeader(header, canId, len)
    requires ReadUpTo(rx0, After(start, es).rx, b, header)
    ensures len <= 8
  {
    if !ReadsDone(header) {
      EveryFrameIsDeliveredOnce(start, es);
      HeldLengthFits(After(start, es), b, canId, len, header);
    }
  }

  /** At this point of the run the reader tested the pending byte, and took RXB0 if and
      only if its bit was set. */
  predicate TookFirst(start: State, trace: seq<Event>, test: nat, from: Buffer) {
    && test < |trace| && trace[test] == ReaderRuns
    && var t := After(start, trace[..test]);
       t.rx.reader.TestRx0? && (from == Rx0 <==> t.rx.pending & 0x01 != 0)
  }

  /** One read has ended, with message m out of buffer b. */
  predicate HandedOver(rx: ReceiveSide, rx': ReceiveSide, b: Buffer, m: Message) {
    && rx'.reader.ReaderIdle? && Box(rx', b).delivered == Box(rx, b).delivered + [m]
    && forall other :: other != b ==> Box(rx', other).delivered == Box(rx, other).delivered
  }

  lemma OneMore(s: State, es: seq<Event>, e: Event)
    requires Enabled(After(s, es), e)
    ensures After(s, es + [e]) == Step(After(s, es), e)
  {}

  class Mcp2515Task {
    var intSemaphore: bool
    var txSemaphore: bool
    var rxSemaphore: nat
    var pendingRxBuf: bv8
    var pendingTxBuf: bv8
    var lastIntTime: nat
    var lastRxTime: nat
    var chip: Regs

    var world: State               // the whole system these fields are part of
    var schedule: seq<Event>       // what the others and the chip still do
    ghost var start: State
    ghost var trace: seq<Event>    // the run so far

    predicate Shared(s: State)
      reads this
    {
      && s.line.sem == intSemaphore && s.tx.sem == txSemaphore && s.rx.sem == rxSemaphore
      && s.rx.pending == pendingRxBuf && s.tx.pending == pendingTxBuf
      && s.clock.lastInt == lastIntTime && s.clock.lastRx == lastRxTime && s.regs == chip
    }

    ghost predicate Reached()
      reads this
    {
      Started(start) && world == After(start, trace)
    }

    /** The fields belong to a state the protocol reaches. */
    ghost predicate Valid()
      reads this
    {
      Reached() && Shared(world)
    }

    twostate predicate Continues()
      reads this
    {
      start == old(start) && old(trace) <= trace && Within(old(world), |old(schedule)|, world, |schedule|)
    }

    /** The semaphores initialInTask creates, over a chip with no interrupt pending. */
    constructor (chip: Regs, schedule: seq<Event>)
      requires !IntLow(chip) && !TxRequested(chip)
      ensures Valid() && trace == [] && this.schedule == schedule
      ensures world.rx.reader.ReaderIdle? && world.tx.sender.SenderIdle? && world.service.pc == TestPin
    {
      intSemaphore, txSemaphore, rxSemaphore := false, false, 0;
      pendingRxBuf, pendingTxBuf := 0, 0;
      lastIntTime, lastRxTime := 0, 0;
      this.chip := chip;
      world := State(chip, Service(TestPin, 0, 0), Interrupt(false, IrqIdle, false, 0, 0, 0), Clock(0, 0, 0, [], 0, []),
                     ReceiveSide(0, 0, ReaderIdle, Mailbox([], [], false), Mailbox([], [], false), 0, 0),
                     SendSide(false, 0, SenderIdle, [], [], 0, 0, 0));
      this.schedule := schedule;
      new;
      start, trace := world, [];
    }

    // ----- Interleaving

    /** The running actor's statement has just been done: it was one step. */
    method Record(e: Event)
      requires Reached() && Enabled(world, e) && Shared(Step(world, e))
      modifies this`world, this`trace
      ensures Valid() && world == Step(old(world), e) && trace == old(trace) + [e]
    {
      OneMore(start, trace, e);
      world, trace := Step(world, e), trace + [e];
    }

    method Load(s: State)
      modifies `intSemaphore, `txSemaphore, `rxSemaphore, `pendingRxBuf, `pendingTxBuf, `lastIntTime, `lastRxTime, `chip
      ensures Shared(s)
    {
      intSemaphore, txSemaphore, rxSemaphore := s.line.sem, s.tx.sem, s.rx.sem;
      pendingRxBuf, pendingTxBuf := s.rx.pending, s.tx.pending;
      lastIntTime, lastRxTime := s.clock.lastInt, s.clock.lastRx;
      chip := s.regs;
    }

    /** The next scheduled event, unless it would be the running actor's or cannot happen now. */
    method OneEvent(me: Actor)
      requires Valid() && schedule != []
      modifies this
      ensures Valid() && Continues() && Untouched(me, old(world), world) && schedule == old(schedule)[1..]
    {
      var e := schedule[0];
      schedule := schedule[1..];
      if Enabled(world, e) && !Moves(me, e) {
        OthersLeaveUntouched(me, world, e);
        EventIsWithin(world, e, |old(schedule)|);
        Load(Step(world, e));
        Record(e);
      }
    }

    /** Any number of scheduled events. */
    method Interfere(me: Actor)
      requires Valid()
      modifies this
      ensures Valid() && Continues() && Untouched(me, old(world), world)
    {
      var more: bool := *;
      while more && schedule != []
        invariant Valid() && Continues() && Untouched(me, old(world), world)
        decreases |schedule|
      {
        OneEvent(me);
        more := *;
      }
    }

    // ----- irqHandler

    method IrqHandler()
      requires Valid() && world.line.edge && world.line.irq.IrqIdle?
      modifies this
      ensures Valid() && start == old(start) && old(trace) <= trace && world.line.irq.IrqIdle?
      ensures intSemaphore && lastIntTime == old(world.clock.now)
              && world.clock.runs == old(world.clock.runs) + [lastIntTime]
    {
      lastIntTime := world.clock.now;
      Record(IrqRuns);
      Interfere(Handler);
      intSemaphore := true;
      Record(IrqRuns);
    }

    // ----- run, statement by statement

    /** One statement of canService has been done; then anything the others do. */
    method ServiceDid()
      requires Reached() && Enabled(world, ServiceRuns) && Shared(ServiceStep(world))
      modifies this
      ensures Valid() && Continues()
      ensures Within(ServiceStep(old(world)), |old(schedule)|, world, |schedule|)
      ensures world.service == NextService(old(world.service), old(world.regs))
      ensures WorkOf(world) == WorkOf(ServiceStep(old(world)))
      ensures Clears(old(world.service)) == 0 ==> world.line.flagsCleared == old(world.line.flagsCleared)
    {
      NothingCleared(Flags(world));
      Record(ServiceRuns);
      Interfere(CanService);
    }

    /** !gpio_get(_intPin) */
    method PinIsLow() returns (low: bool)
      requires Valid() && world.service.pc.TestPin?
      modifies this
      ensures Valid() && Continues() && WorkOf(world) == old(WorkOf(world))
      ensures low == old(IntLow(chip)) && world.service.pc == if low then ReadFlags else TakeInt
    {
      low := IntLow(chip);
      ServiceDid();
    }

    /** readByte(CANINTF) */
    method ReadIntFlag() returns (intFlag: bv8)
      requires Valid() && world.service.pc.ReadFlags?
      modifies this
      ensures Valid() && Continues() && WorkOf(world) == old(WorkOf(world)).(passes := old(WorkOf(world)).passes + 1)
      ensures intFlag == old(Get(chip, 0x2C)) && world.service.intFlag == intFlag
      ensures world.service.pc == if Has(intFlag, ERRORS) then ReadEflg else Stamp
    {
      intFlag := Get(chip, CANINTF);
      ServiceDid();
    }

    /** readByte(EFLG) */
    method ReadErrorFlags() returns (eflg: bv8)
      requires Valid() && world.service.pc.ReadEflg?
      modifies this
      ensures Valid() && Continues() && WorkOf(world) == old(WorkOf(world))
      ensures eflg == old(Get(chip, 0x2D)) && world.service == Service(ClearErrors, old(world.service.intFlag), eflg)
    {
      eflg := Get(chip, EFLG);
      ServiceDid();
    }

    /** bitModify(CANINTF, mask, 0) */
    method ClearFlags(mask: bv8)
      requires Valid() && mask != 0 && Clears(world.service) == mask
      modifies this
      ensures Valid() && Continues()
              && WorkOf(world) == old(WorkOf(world)).(cleared := old(WorkOf(world)).cleared
                  + EnabledCount(Only(old(Flags(world)), mask)))
      ensures world.service == old(world.service).(pc := NextPc(old(world.service), old(world.regs)))
    {
      chip := BitModify(chip, CANINTF, mask, 0);
      ServiceDid();
    }

    /** writeByte(CANCTRL, mode) */
    method WriteMode(mode: bv8)
      requires Valid()
      requires (world.service.pc.EnterConfig? && mode == REQOP_CONFIG)
               || (world.service.pc.LeaveConfig? && mode == NORMAL_CLKOUT)
      modifies this
      ensures Valid() && Continues() && WorkOf(world) == old(WorkOf(world)).(mode := mode)
      ensures world.service == old(world.service).(pc := NextPc(old(world.service), old(world.regs)))
    {
      chip := Write(chip, CANCTRL, mode);
      ServiceDid();
    }

    /** _pendingTxBuf &= ~0x01 */
    method UnmarkPendingTx()
      requires Valid() && (world.service.pc.ErrorUnmark? || world.service.pc.UnmarkTx0?)
      modifies this
      ensures Valid() && Continues() && WorkOf(world) == old(WorkOf(world)).(unmarks := old(WorkOf(world)).unmarks + 1)
      ensures world.service
              == old(world.service).(pc := if old(world.service.pc.ErrorUnmark?) then ErrorGive else GiveRx0)
    {
      UnmarkShares(world);
      pendingTxBuf := Without(pendingTxBuf, 0x01);
      ServiceDid();
    }

    /** _pendingRxBuf |= bit */
    method MarkPendingRx(bit: bv8)
      requires Valid() && ((world.service.pc.MarkRx0? && bit == 0x01) || (world.service.pc.MarkRx1? && bit == 0x02))
      modifies this
      ensures Valid() && Continues() && WorkOf(world) == old(WorkOf(world)).(rxMarks := old(WorkOf(world)).rxMarks + 1)
      ensures world.service == old(world.service).(pc := NextPc(old(world.service), old(world.regs)))
    {
      pendingRxBuf := With(pendingRxBuf, bit);
      ServiceDid();
    }

    /** xSemaphoreGive(_txSemaphore) */
    method GiveTxSemaphore()
      requires Valid() && (world.service.pc.ErrorGive?
               || (world.service.pc.GiveTx? && Has(world.service.intFlag, TX0IF)))
      modifies this
      ensures Valid() && Continues()
              && WorkOf(world) == old(WorkOf(world)).(txGives := old(WorkOf(world)).txGives + 1)
              && world.service.pc.TestPin?
    {
      txSemaphore := true;
      ServiceDid();
    }

    /** xSemaphoreGive(_rxSemaphore): a full counting semaphore drops the give. */
    method GiveRxSemaphore()
      requires Valid()
      requires (world.service.pc.GiveRx0? && Has(world.service.intFlag, RX0IF))
               || (world.service.pc.GiveRx1? && Has(world.service.intFlag, RX1IF))
      modifies this
      ensures Valid() && Continues() && WorkOf(world) == old(WorkOf(world)).(rxGives := old(WorkOf(world)).rxGives + 1)
      ensures world.service == old(world.service).(pc := NextPc(old(world.service), old(world.regs)))
    {
      if rxSemaphore < 2 {
        rxSemaphore := rxSemaphore + 1;
      }
      ServiceDid();
    }

    /** An if whose flag was not set. */
    method Skip()
      requires Valid()
      requires match world.service.pc
               case ClearRx0 | GiveRx0 => !Has(world.service.intFlag, RX0IF)
               case ClearRx1 | GiveRx1 => !Has(world.service.intFlag, RX1IF)
               case ClearTx0 | GiveTx => !Has(world.service.intFlag, TX0IF)
               case Stamp => !Has(world.service.intFlag, RX0IF | RX1IF)
               case _ => false
      modifies this
      ensures Valid() && Continues() && WorkOf(world) == old(WorkOf(world))
      ensures world.service == old(world.service).(pc := NextPc(old(world.service), old(world.regs)))
    {
      ServiceDid();
    }

    /** _lastRxTime = _lastIntTime */
    method StampRxTime()
      requires Valid() && world.service.pc.Stamp? && Has(world.service.intFlag, RX0IF | RX1IF)
      modifies this
      ensures Valid() && Continues()
              && WorkOf(world) == old(WorkOf(world)).(rxTime := old(lastIntTime), rxRun := old(|world.clock.runs|))
      ensures world.service == old(world.service).(pc := ClearRx0)
    {
      lastRxTime := lastIntTime;
      ServiceDid();
    }

    method AwaitIntSemaphore()
      requires Valid()
      modifies this
      ensures Valid() && Continues() && Untouched(CanService, old(world), world)
      ensures intSemaphore || schedule == []
    {
      while !intSemaphore && schedule != []
        invariant Valid() && Continues() && Untouched(CanService, old(world), world)
        decreases |schedule|
      {
        OneEvent(CanService);
      }
    }

    /** xSemaphoreTake(_intSemaphore, portMAX_DELAY); not taken means blocked with
        nothing scheduled any more. */
    method TakeIntSemaphore() returns (taken: bool)
      requires Valid() && world.service.pc.TakeInt?
      modifies this
      ensures Valid() && Continues() && WorkOf(world) == old(WorkOf(world))
      ensures taken ==> world.service.pc.TestPin?
      ensures taken ==> 2 * |schedule| + One(intSemaphore) < 2 * |old(schedule)| + One(old(intSemaphore))
      ensures !taken ==> world.service == old(world.service) && schedule == [] && !intSemaphore
    {
      AwaitIntSemaphore();
      taken := intSemaphore;
      if taken {
        intSemaphore := false;
        ServiceDid();
      }
    }

    // ----- run

    /** mode is CANCTRL while the chip is out of normal mode. */
    method RecoverFromBusOff(eflg: bv8) returns (ghost mode: bv8)
      requires Valid() && world.service.pc == if Has(eflg, TXBO) then EnterConfig else ErrorUnmark
      modifies this
      ensures Valid() && Continues() && world.service == old(world.service).(pc := ErrorUnmark)
      ensures if eflg & 0x20 != 0
              then mode == 0x80 && WorkOf(world) == old(WorkOf(world)).(mode := 0x04)
              else WorkOf(world) == old(WorkOf(world))
    {
      mode := Get(chip, CANCTRL);
      if Has(eflg, TXBO) {
        WriteMode(REQOP_CONFIG);
        mode := Get(chip, CANCTRL);
        WriteMode(NORMAL_CLKOUT);
      }
    }

    lemma ErrorFlagStands()
      requires Valid() && world.service.pc.ClearErrors?
      ensures EnabledCount(Only(Flags(world), ERRORS)) > 0
    {
      PassesStayPaid(start, trace);
      CountedWithout(Flags(world), ERRORS);
    }

    method ClearErrorFlags(eflg: bv8)
      requires Valid() && world.service.pc.ClearErrors? && world.service.eflg == eflg
      modifies this
      ensures Valid() && Continues()
              && world.service == old(world.service).(pc := if Has(eflg, TXBO) then EnterConfig else ErrorUnmark)
      ensures WorkOf(world).cleared > old(WorkOf(world)).cleared
      ensures WorkOf(world) == old(WorkOf(world)).(cleared := WorkOf(world).cleared)
    {
      ErrorFlagStands();
      ClearFlags(ERRORS);
    }

    /** Error flags cleared, one unmarking, one give.  If EFLG has TXBO set, CANCTRL is
        written twice, into configuration mode and back to normal; if not, it stands. */
    method ErrorBranch() returns (ghost mode: bv8)
      requires Valid() && world.service.pc.ReadEflg?
      modifies this
      ensures Valid() && Continues() && world.service.pc.TestPin?
      ensures WorkOf(world).cleared > old(WorkOf(world)).cleared
      ensures WorkOf(world) == More(old(WorkOf(world)), WorkOf(world).cleared - old(WorkOf(world)).cleared, 0, 0, 1, 1)
                               .(mode := Get(chip, 0x0F))
      ensures if old(Get(chip, 0x2D)) & 0x20 != 0 then mode == 0x80 && Get(chip, 0x0F) == 0x04
              else Get(chip, 0x0F) == old(Get(chip, 0x0F))
    {
      var eflg := ReadErrorFlags();
      ClearErrorFlags(eflg);
      mode := RecoverFromBusOff(eflg);
      ReleaseTxBuffer();
    }

    /** The end of an error pass. */
    method ReleaseTxBuffer()
      requires Valid() && world.service.pc.ErrorUnmark?
      modifies this
      ensures Valid() && Continues() && world.service.pc.TestPin?
      ensures WorkOf(world) == More(old(WorkOf(world)), 0, 0, 0, 1, 1)
    {
      UnmarkPendingTx();
      GiveTxSemaphore();
    }

    /** A flag the service has read still stands when it comes to clear it. */
    lemma ReadFlagStands(flag: bv8)
      requires Valid() && Has(world.service.intFlag, flag)
      requires (world.service.pc.ClearRx0? && flag == RX0IF) || (world.service.pc.ClearRx1? && flag == RX1IF)
               || (world.service.pc.ClearTx0? && flag == TX0IF)
      ensures EnabledCount(Only(Flags(world), flag)) == 1
    {
      PassesStayPaid(start, trace);
      OneFlagCleared(Flags(world));
    }

    method ClearRead(flag: bv8)
      requires Valid() && Has(world.service.intFlag, flag)
      requires (world.service.pc.ClearRx0? && flag == RX0IF) || (world.service.pc.ClearRx1? && flag == RX1IF)
               || (world.service.pc.ClearTx0? && flag == TX0IF)
      modifies this
      ensures Valid() && Continues() && WorkOf(world) == More(old(WorkOf(world)), 1, 0, 0, 0, 0)
      ensures world.service == old(world.service).(pc := NextPc(old(world.service), old(world.regs)))
    {
      ReadFlagStands(flag);
      ClearFlags(flag);
    }

    // Each if of the flag branch.

    method HandleRx0(intFlag: bv8)
      requires Valid() && world.service.pc.ClearRx0? && world.service.intFlag == intFlag
      modifies this
      ensures Valid() && Continues()
              && WorkOf(world) == More(old(WorkOf(world)), Bit(intFlag, RX0IF), Bit(intFlag, RX0IF), 0, 0, 0)
      ensures world.service == old(world.service).(pc := ClearRx1)
    {
      if Has(intFlag, RX0IF) {
        ClearRead(RX0IF);
        MarkPendingRx(0x01);
      } else {
        Skip();
      }
    }

    method HandleRx1(intFlag: bv8)
      requires Valid() && world.service.pc.ClearRx1? && world.service.intFlag == intFlag
      modifies this
      ensures Valid() && Continues()
              && WorkOf(world) == More(old(WorkOf(world)), Bit(intFlag, RX1IF), Bit(intFlag, RX1IF), 0, 0, 0)
      ensures world.service == old(world.service).(pc := ClearTx0)
    {
      if Has(intFlag, RX1IF) {
        ClearRead(RX1IF);
        MarkPendingRx(0x02);
      } else {
        Skip();
      }
    }

    method HandleTx0(intFlag: bv8)
      requires Valid() && world.service.pc.ClearTx0? && world.service.intFlag == intFlag
      modifies this
      ensures Valid() && Continues()
              && WorkOf(world) == More(old(WorkOf(world)), Bit(intFlag, TX0IF), 0, 0, Bit(intFlag, TX0IF), 0)
      ensures world.service == old(world.service).(pc := GiveRx0)
    {
      if Has(intFlag, TX0IF) {
        ClearRead(TX0IF);
        UnmarkPendingTx();
      } else {
        Skip();
      }
    }

    method NotifyRx0(intFlag: bv8)
      requires Valid() && world.service.pc.GiveRx0? && world.service.intFlag == intFlag
      modifies this
      ensures Valid() && Continues() && WorkOf(world) == More(old(WorkOf(world)), 0, 0, Bit(intFlag, RX0IF), 0, 0)
      ensures world.service == old(world.service).(pc := GiveRx1)
    {
      if Has(intFlag, RX0IF) {
        GiveRxSemaphore();
      } else {
        Skip();
      }
    }

    method NotifyRx1(intFlag: bv8)
      requires Valid() && world.service.pc.GiveRx1? && world.service.intFlag == intFlag
      modifies this
      ensures Valid() && Continues() && WorkOf(world) == More(old(WorkOf(world)), 0, 0, Bit(intFlag, RX1IF), 0, 0)
      ensures world.service == old(world.service).(pc := GiveTx)
    {
      if Has(intFlag, RX1IF) {
        GiveRxSemaphore();
      } else {
        Skip();
      }
    }

    method NotifyTx(intFlag: bv8)
      requires Valid() && world.service.pc.GiveTx? && world.service.intFlag == intFlag
      modifies this
      ensures Valid() && Continues() && WorkOf(world) == More(old(WorkOf(world)), 0, 0, 0, 0, Bit(intFlag, TX0IF))
              && world.service.pc.TestPin?
    {
      if Has(intFlag, TX0IF) {
        GiveTxSemaphore();
      } else {
        Skip();
      }
    }

    method NoteTime(intFlag: bv8)
      requires Valid() && world.service.pc.Stamp? && world.service.intFlag == intFlag
      modifies this
      ensures Valid() && Continues() && world.service == old(world.service).(pc := ClearRx0)
      ensures WorkOf(world) == Noted(old(WorkOf(world)), intFlag, old(lastIntTime), old(|world.clock.runs|))
    {
      AnyReceiveFlag(intFlag);
      if Has(intFlag, RX0IF | RX1IF) {
        StampRxTime();
      } else {
        Skip();
      }
    }

    method HandleFlags(intFlag: bv8)
      requires Valid() && world.service.pc.ClearRx0? && world.service.intFlag == intFlag
      modifies this
      ensures Valid() && Continues() && world.service == old(world.service).(pc := GiveRx0)
      ensures var rx, tx := Bit(intFlag, RX0IF) + Bit(intFlag, RX1IF), Bit(intFlag, TX0IF);
              WorkOf(world) == More(old(WorkOf(world)), rx + tx, rx, 0, tx, 0)
    {
      HandleRx0(intFlag);
      HandleRx1(intFlag);
      HandleTx0(intFlag);
    }

    method Notify(intFlag: bv8)
      requires Valid() && world.service.pc.GiveRx0? && world.service.intFlag == intFlag
      modifies this
      ensures Valid() && Continues() && world.service.pc.TestPin?
      ensures WorkOf(world)
              == More(old(WorkOf(world)), 0, 0, Bit(intFlag, RX0IF) + Bit(intFlag, RX1IF), 0, Bit(intFlag, TX0IF))
    {
      NotifyRx0(intFlag);
      NotifyRx1(intFlag);
      NotifyTx(intFlag);
    }

    /** Each flag read is cleared once; each receive flag makes one marking and one give,
        TX0IF one unmarking and one give.  A receive flag sets the receive time to the time
        of the last interrupt; without one it stands. */
    method FlagBranch(intFlag: bv8)
      requires Valid() && world.service.pc.Stamp? && world.service.intFlag == intFlag
      modifies this
      ensures Valid() && Continues() && world.service.pc.TestPin?
      ensures var rx, tx := Bit(intFlag, RX0IF) + Bit(intFlag, RX1IF), Bit(intFlag, TX0IF);
              WorkOf(world) == More(Noted(old(WorkOf(world)), intFlag, old(lastIntTime), old(|world.clock.runs|)),
                                    rx + tx, rx, rx, tx, tx)
      ensures lastRxTime == (if intFlag & 0x03 != 0 then old(lastIntTime) else old(lastRxTime))
              && Get(chip, 0x0F) == old(Get(chip, 0x0F))
    {
      NoteTime(intFlag);
      HandleFlags(intFlag);
      Notify(intFlag);
    }

    method Pass()
      requires Valid() && world.service.pc.ReadFlags?
      modifies this
      ensures Valid() && Continues() && world.line.passes == old(world.line.passes) + 1 && world.service.pc.TestPin?
    {
      var intFlag := ReadIntFlag();
      if Has(intFlag, ERRORS) {
        var mode := ErrorBranch();
      } else {
        FlagBranch(intFlag);
      }
    }

    /** The inner loop: it ends, for every schedule. */
    method Drain() returns (passes: nat)
      requires Valid() && world.service.pc.TestPin?
      modifies this
      ensures Valid() && Continues() && world.service.pc.TakeInt?
      ensures passes == world.line.passes - old(world.line.passes) <= EnabledCount(Flags(old(world)))
              + 6 * |old(schedule)|
    {
      passes := 0;
      var low := PinIsLow();
      while low
        invariant Valid() && Continues() && world.service.pc == if low then ReadFlags else TakeInt
        invariant passes == world.line.passes - old(world.line.passes) <= EnabledCount(Flags(old(world)))
                  + 6 * |old(schedule)|
        decreases EnabledCount(Flags(old(world))) + 6 * |old(schedule)| - passes
      {
        Pass();
        passes := passes + 1;
        low := PinIsLow();
        FewPasses(old(world), |old(schedule)|, start, old(trace), trace, |schedule|);
      }
    }

    /** canService from the head of its loop, whatever the others and the chip do on a
        schedule of any length: it drains the flags in a bounded number of passes and
        ends up blocked on its semaphore, and then INT is high or a wake-up is on its way. */
    method Run() returns (passes: nat)
      requires Valid() && world.service.pc.TestPin?
      modifies this
      ensures Valid() && Continues()
      ensures schedule == [] && world.service.pc.TakeInt? && !intSemaphore
      ensures IntLow(chip) ==> world.line.edge || world.line.irq.IrqGive?
      ensures passes <= EnabledCount(Flags(old(world))) + 6 * |old(schedule)|
    {
      passes := 0;
      while true
        invariant Valid() && Continues() && world.service.pc.TestPin?
        invariant passes == world.line.passes - old(world.line.passes)
        decreases 2 * |schedule| + One(intSemaphore)
      {
        var drained := Drain();
        passes := passes + drained;
        var taken := TakeIntSemaphore();
        if !taken {
          break;
        }
      }
      FewPasses(old(world), |old(schedule)|, start, old(trace), trace, |schedule|);
      NoInterruptIsLost(start, trace);
    }

    // ----- rxReadInTask

    method ReaderDid()
      requires Reached() && Enabled(world, ReaderRuns) && Shared(ReaderStep(world))
      modifies this
      ensures Valid() && Continues() && Untouched(Reader, ReaderStep(old(world)), world)
      ensures old(trace) + [ReaderRuns] <= trace
    {
      Record(ReaderRuns);
      Interfere(Reader);
    }

    method AwaitRxSemaphore()
      requires Valid()
      modifies this
      ensures Valid() && Continues() && Untouched(Reader, old(world), world)
      ensures rxSemaphore > 0 || schedule == []
    {
      while rxSemaphore == 0 && schedule != []
        invariant Valid() && Continues() && Untouched(Reader, old(world), world)
        decreases |schedule|
      {
        OneEvent(Reader);
      }
    }

    /** readByte of one register of the buffer being read; the last one hands the
        message over. */
    method ReadRegister(b: Buffer, offset: nat, ghost rx0: ReceiveSide, ghost got: PartialRead) returns (value: bv8)
      requires Valid() && ReadUpTo(rx0, world.rx, b, got) && NextOffset(got) == offset
      modifies this
      ensures Valid() && Continues() && world.clock.stamps == old(world.clock.stamps)
      ensures ReadUpTo(rx0, world.rx, b, got + [value])
    {
      value := Get(chip, b.Base() + offset);
      ReadGoesOn(rx0, world.rx, b, got, world.regs);
      ReaderDid();
    }

    method ReadBase(b: Buffer, ghost rx0: ReceiveSide) returns (sidh: bv8, sidl: bv8, dlc: bv8)
      requires Valid() && ReadUpTo(rx0, world.rx, b, [])
      modifies this
      ensures Valid() && Continues() && world.clock.stamps == old(world.clock.stamps)
      ensures ReadUpTo(rx0, world.rx, b, [sidh, sidl, dlc])
    {
      BaseReads([]);
      sidh := ReadRegister(b, SIDH, rx0, []);
      assert [] + [sidh] == [sidh];
      BaseReads([sidh]);
      sidl := ReadRegister(b, SIDL, rx0, [sidh]);
      assert [sidh] + [sidl] == [sidh, sidl];
      BaseReads([sidh, sidl]);
      dlc := ReadRegister(b, DLC, rx0, [sidh, sidl]);
      assert [sidh, sidl] + [dlc] == [sidh, sidl, dlc];
    }

    method ReadExtension(b: Buffer, ghost rx0: ReceiveSide, ghost got: PartialRead) returns (eid8: bv8, eid0: bv8)
      requires Valid() && ReadUpTo(rx0, world.rx, b, got) && |got| == 3 && Extended(got)
      modifies this
      ensures Valid() && Continues() && world.clock.stamps == old(world.clock.stamps)
      ensures ReadUpTo(rx0, world.rx, b, got + [eid8, eid0])
    {
      eid8 := ReadRegister(b, EID8, rx0, got);
      assert !ReadsDone(got + [eid8]);
      eid0 := ReadRegister(b, EID0, rx0, got + [eid8]);
      assert got + [eid8] + [eid0] == got + [eid8, eid0];
    }

    /** The header registers of buffer b, read in the source's order. */
    method ReadHeader(b: Buffer, ghost rx0: ReceiveSide) returns (canId: bv32, len: nat, ghost header: seq<bv8>)
      requires Valid() && ReadUpTo(rx0, world.rx, b, [])
      modifies this
      ensures Valid() && Continues() && world.clock.stamps == old(world.clock.stamps)
      ensures IsHeader(header, canId, len) && ReadUpTo(rx0, world.rx, b, header)
    {
      var sidh, sidl, dlc := ReadBase(b, rx0);
      header := [sidh, sidl, dlc];
      len := LowNibble(dlc);
      if Has(sidl, EXIDE) {
        var eid8, eid0 := ReadExtension(b, rx0, header);
        header := header + [eid8, eid0];
        canId := UnpackId(sidh, sidl, eid8, eid0);
      } else {
        canId := UnpackId(sidh, sidl, 0, 0);
      }
    }

    method ReadPayload(b: Buffer, buf: array<bv8>, canId: bv32, len: nat, ghost rx0: ReceiveSide,
        ghost header: seq<bv8>)
      requires Valid() && IsHeader(header, canId, len) && ReadUpTo(rx0, world.rx, b, header)
      requires len <= buf.Length
      modifies this, buf
      ensures Valid() && Continues() && world.clock.stamps == old(world.clock.stamps)
      ensures ReadUpTo(rx0, world.rx, b, header + buf[..len])
    {
      assert header + buf[..0] == header;
      for i := 0 to len
        invariant Valid() && Continues() && world.clock.stamps == old(world.clock.stamps)
        invariant ReadUpTo(rx0, world.rx, b, header + buf[..i])
      {
        PayloadRead(header, canId, len, buf[..i]);
        buf[i] := ReadRegister(b, D0 + i, rx0, header + buf[..i]);
        assert header + buf[..i + 1] == header + buf[..i] + [buf[i]];
      }
    }

    /** rxBuffer0Read, rxBuffer1Read.  The source does not check the array's size; a
        length that writes past one of eight bytes takes a refill. */
    method RxBufferRead(b: Buffer, buf: array<bv8>) returns (overrun: bool, canId: bv32, len: nat)
      requires Valid() && world.rx.reader == Reading(b, [])
      modifies this, buf
      ensures Valid() && Continues() && world.clock.stamps == old(world.clock.stamps)
      ensures overrun <==> len > buf.Length
      ensures overrun ==> buf.Length < 8 || !NeverRefills(start, trace)
      ensures !overrun ==> HandedOver(old(world.rx), world.rx, b, Message(canId, buf[..len]))
    {
      ghost var rx0, header := world.rx, [];
      canId, len, header := ReadHeader(b, rx0);
      if NeverRefills(start, trace) {
        LengthsFitWithoutRefills(start, trace, b, canId, len, rx0, header);
      }
      overrun := len > buf.Length;
      if !overrun {
        ReadPayload(b, buf, canId, len, rx0, header);
        AllRead(header, canId, len, buf[..len]);
      }
    }

    /** xSemaphoreTake(_rxSemaphore) with a token there; *timestamp_us = _lastRxTime */
    method TakeRxSemaphore() returns (timestamp: nat)
      requires Valid() && world.rx.reader.TakeRx? && rxSemaphore > 0
      modifies this
      ensures Valid() && Continues() && world.rx.reader.TestRx0?
      ensures world.rx.box0.delivered == old(world.rx.box0.delivered)
              && world.rx.box1.delivered == old(world.rx.box1.delivered)
      ensures |world.clock.stamps| == |old(world.clock.stamps)| + 1
              && world.clock.stamps[|old(world.clock.stamps)|].time == timestamp
    {
      rxSemaphore := rxSemaphore - 1;
      ReaderDid();
      timestamp := lastRxTime;
      ReaderDid();
    }

    /** _pendingRxBuf & 0x01 */
    method TestPendingRx() returns (b: Buffer)
      requires Valid() && world.rx.reader.TestRx0?
      modifies this
      ensures Valid() && Continues() && SameHandouts(old(world), world) && world.rx.reader == Unmark(b)
      ensures TookFirst(start, trace, old(|trace|), b)
    {
      b := if Has(pendingRxBuf, 0x01) then Rx0 else Rx1;
      ghost var before := trace;
      ReaderDid();
      assert trace[..|before|] == before && trace[|before|] == (before + [ReaderRuns])[|before|];
    }

    /** _pendingRxBuf &= ~0x01; or _pendingRxBuf &= ~0x02; */
    method UnmarkPendingRx(b: Buffer)
      requires Valid() && world.rx.reader == Unmark(b)
      modifies this
      ensures Valid() && Continues() && SameHandouts(old(world), world) && world.rx.reader == Reading(b, [])
    {
      pendingRxBuf := Without(pendingRxBuf, if b.Rx0? then 0x01 else 0x02);
      ReaderDid();
    }

    /** The call from its take on. */
    method ReadMessage(buf: array<bv8>) returns (overrun: bool, canId: bv32, len: nat,
        timestamp: nat, ghost from: Buffer, ghost test: nat)
      requires Valid() && world.rx.reader.TakeRx? && rxSemaphore > 0
      modifies this, buf
      ensures Valid() && Continues()
      ensures overrun ==> buf.Length < 8 || !NeverRefills(start, trace)
      ensures !overrun ==> len <= buf.Length && HandedOver(old(world.rx), world.rx, from, Message(canId, buf[..len]))
      ensures |world.clock.stamps| == |old(world.clock.stamps)| + 1
              && world.clock.stamps[|old(world.clock.stamps)|].time == timestamp
      ensures test >= old(|trace|) && TookFirst(start, trace, test, from)
    {
      timestamp := TakeRxSemaphore();
      test := |trace|;
      var b := TestPendingRx();
      ghost var tested := trace;
      UnmarkPendingRx(b);
      overrun, canId, len := RxBufferRead(b, buf);
      from := b;
      assert trace[..test] == tested[..test];
    }

    /** The call up to its take. */
    method CallAndWait() returns (stored: bool)
      requires Valid() && world.rx.reader.ReaderIdle?
      modifies this
      ensures Valid() && Continues() && SameHandouts(old(world), world) && world.rx.reader.TakeRx?
      ensures stored == (rxSemaphore > 0) && (!stored ==> schedule == [])
    {
      Record(StartRead);
      AwaitRxSemaphore();
      stored := rxSemaphore > 0;
    }

    /** The reading task's call: it blocks for good only if nothing scheduled any more
        would give it a token; otherwise it returns the message just handed over out of a
        buffer, and the timestamp it was handed out with.  The buffer is RXB0 if and only if
        RXB0's bit was set when the call tested it.  If the caller's array holds a
        CAN payload, only after a refill can the call meet a length that does not fit. */
    method RxReadInTask(buf: array<bv8>) returns (done: bool, overrun: bool, canId: bv32,
        len: nat, timestamp: nat, ghost from: Buffer, ghost test: nat)
      requires Valid() && world.rx.reader.ReaderIdle?
      modifies this, buf
      ensures Valid() && Continues()
      ensures !done ==> schedule == [] && rxSemaphore == 0 && world.rx.reader.TakeRx?
      ensures overrun ==> buf.Length < 8 || !NeverRefills(start, trace)
      ensures done && !overrun ==>
                len <= buf.Length && HandedOver(old(world.rx), world.rx, from, Message(canId, buf[..len]))
      ensures done ==>
                && |world.clock.stamps| == |old(world.clock.stamps)| + 1
                && world.clock.stamps[|old(world.clock.stamps)|].time == timestamp
      ensures done ==> test >= old(|trace|) && TookFirst(start, trace, test, from)
    {
      done, overrun, canId, len, timestamp, from, test := false, false, 0, 0, 0, Rx0, 0;
      var stored := CallAndWait();
      if stored {
        overrun, canId, len, timestamp, from, test := ReadMessage(buf);
        done := true;
      }
    }

    // ----- txBuffer0SendInTask

    method SenderDid()
      requires Reached() && Enabled(world, SenderRuns) && Shared(SenderStep(world))
      modifies this
      ensures Valid() && Continues() && Untouched(Sender, SenderStep(old(world)), world)
    {
      Record(SenderRuns);
      Interfere(Sender);
    }

    method AwaitTxSemaphore()
      requires Valid()
      modifies this
      ensures Valid() && Continues() && Untouched(Sender, old(world), world)
      ensures txSemaphore || schedule == []
    {
      while !txSemaphore && schedule != []
        invariant Valid() && Continues() && Untouched(Sender, old(world), world)
        decreases |schedule|
      {
        OneEvent(Sender);
      }
    }

    /** xSemaphoreTake(_txSemaphore) with the token there */
    method TakeTxSemaphore()
      requires Valid() && world.tx.sender.TakeTx? && txSemaphore
      modifies this
      ensures Valid() && Continues() && world.tx.requests == old(world.tx.requests)
      ensures world.tx.sender == MarkTx(old(world.tx.sender.r), true)
    {
      txSemaphore := false;
      SenderDid();
    }

    /** _pendingTxBuf |= 0x01 */
    method MarkPendingTx()
      requires Valid() && world.tx.sender.MarkTx?
      modifies this
      ensures Valid() && Continues() && world.tx.sender == Loading(old(world.tx.sender.r), 0)
      ensures world.tx.requests == old(world.tx.requests) + [old(world.tx.sender.r)]
    {
      pendingTxBuf := With(pendingTxBuf, 0x01);
      SenderDid();
    }

    /** writeByte of the k-th register of a load, TXREQ excepted */
    method LoadRegister(r: Request, k: nat, a: Addr, v: bv8)
      requires Valid() && world.tx.sender == Loading(r, k)
      requires k + 1 < SendSize(r) && SendAddress(r, k) == a && SendValue(r, k) == v
      modifies this
      ensures Valid() && Continues() && world.tx.sender == Loading(r, k + 1)
              && world.tx.requests == old(world.tx.requests)
    {
      chip := Write(chip, a, v);
      SenderDid();
    }

    method LoadHeader(canId: bv32, r: Request)
      requires Valid() && world.tx.sender == Loading(r, 0) && r.canId == canId
      modifies this
      ensures Valid() && Continues() && world.tx.sender == Loading(r, HeaderSize(canId))
              && world.tx.requests == old(world.tx.requests)
    {
      if NeedsExtended(canId) {
        ExtendedHeaderEids(r);
        LoadRegister(r, 0, TXB0CTRL + EID0, Byte(canId));
        LoadRegister(r, 1, TXB0CTRL + EID8, Byte(canId >> 8));
        ExtendedHeaderSids(r);
        LoadRegister(r, 2, TXB0CTRL + SIDL, ExtendedSidl(canId));
        LoadRegister(r, 3, TXB0CTRL + SIDH, Byte(canId >> 21));
      } else {
        StandardHeaderSids(r);
        LoadRegister(r, 0, TXB0CTRL + SIDH, Byte(canId >> 3));
        LoadRegister(r, 1, TXB0CTRL + SIDL, StandardSidl(canId));
      }
    }

    /** txBuffer0Send; requested is what TXB0 stood for when TXREQ was set. */
    method TxBuffer0Send(canId: bv32, buf: array<bv8>, len: nat, r: Request) returns (ghost requested: WireFrame)
      requires Valid() && len <= 8 && len <= buf.Length && r == SendArguments(canId, buf[..len])
      requires world.tx.sender == Loading(r, 0)
      modifies this
      ensures Valid() && Continues() && world.tx.sender.SenderIdle? && world.tx.requests == old(world.tx.requests)
      ensures requested == Requested(r)
    {
      LoadHeader(canId, r);
      var h := HeaderSize(canId);
      LoadRegister(r, h, TXB0CTRL + DLC, LengthByte(len));
      for j := 0 to len
        invariant Valid() && Continues() && world.tx.sender == Loading(r, h + 1 + j)
                  && world.tx.requests == old(world.tx.requests)
      {
        LoadRegister(r, h + 1 + j, TXB0CTRL + D0 + j, buf[j]);
      }
      requested := RequestTransmission(r);
    }

    /** writeByte(TXB0CTRL, 0x08) */
    method RequestTransmission(ghost r: Request) returns (ghost requested: WireFrame)
      requires Valid() && world.tx.sender == Loading(r, SendSize(r) - 1)
      modifies this
      ensures Valid() && Continues() && world.tx.sender.SenderIdle? && world.tx.requests == old(world.tx.requests)
      ensures requested == Requested(r)
    {
      RequestedFrameIsWhole(start, trace);
      chip := Write(chip, TXB0CTRL, TXREQ);
      requested := OnWire(chip, TXB0CTRL);
      SenderDid();
    }

    /** _pendingTxBuf & 0x01, at the start of a call */
    method TestPendingTx(r: Request) returns (marked: bool)
      requires Valid() && world.tx.sender.SenderIdle?
      modifies this
      ensures Valid() && Continues() && world.tx.requests == old(world.tx.requests)
      ensures world.tx.sender == if marked then TakeTx(r) else MarkTx(r, false)
    {
      Record(StartSend(r));
      Interfere(Sender);
      marked := Has(pendingTxBuf, 0x01);
      SenderDid();
    }

    method WaitForTxSemaphore() returns (taken: bool)
      requires Valid() && world.tx.sender.TakeTx?
      modifies this
      ensures Valid() && Continues() && world.tx.requests == old(world.tx.requests)
      ensures taken ==> world.tx.sender == MarkTx(old(world.tx.sender.r), true)
      ensures !taken ==> schedule == [] && !txSemaphore && world.tx.sender == old(world.tx.sender)
    {
      AwaitTxSemaphore();
      taken := txSemaphore;
      if taken {
        TakeTxSemaphore();
      }
    }

    /** The sending task's call: it blocks for good only if nothing scheduled any more
        would give it a token, and then a completion or an error is still to come;
        otherwise the one frame it requested is the caller's. */
    method TxBuffer0SendInTask(canId: bv32, buf: array<bv8>, len: nat) returns (done: bool, ghost requested: WireFrame)
      requires Valid() && world.tx.sender.SenderIdle? && len <= 8 && len <= buf.Length
      modifies this
      ensures Valid() && Continues()
      ensures done ==> world.tx.sender.SenderIdle? && requested == Requested(SendArguments(canId, buf[..len]))
      ensures done ==> world.tx.requests == old(world.tx.requests) + [SendArguments(canId, buf[..len])]
      ensures !done ==> schedule == [] && !txSemaphore && world.tx.requests == old(world.tx.requests)
      ensures !done ==>
                || TxRequested(chip) || Has(Get(chip, CANINTF), TX0IF) || Has(Get(chip, CANINTF), ERRORS)
                || OwesGive(world.service)
    {
      var r: Request := SendArguments(canId, buf[..len]);
      done, requested := true, WireFrame(false, 0, []);
      var marked := TestPendingTx(r);
      if marked {
        done := WaitForTxSemaphore();
      }
      if done {
        MarkPendingTx();
        requested := TxBuffer0Send(canId, buf, len, r);
      } else {
        NoTransmitWakeupIsLost(start, trace);
      }
    }
  }

  lemma FewPasses(s: State, n: nat, start: State, es: seq<Event>, es': seq<Event>, m: nat)
    requires s == After(start, es) && s.service.pc.TestPin? && es <= es' && Within(s, n, After(start, es'), m)
    ensures After(start, es').line.passes - s.line.passes <= EnabledCount(Flags(s)) + 6 * n
  {
    var more := es'[|es|..];
    assert es' == es + more;
    AfterConcat(start, es, more);
    PassesAreBounded(s, more);
  }
}
