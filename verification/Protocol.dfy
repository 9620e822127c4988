/** The protocol between the INT interrupt handler, the canService task, one
    reading task, one sending task and the chip, one atomic step at a time. */
module Protocol {
  import opened Registers
  import opened CanFrame
  import opened BufferReads

  datatype Buffer = Rx0 | Rx1 {
    function Base(): MessageBuffer { if Rx0? then 0x60 else 0x70 }
    function Flag(): bv8 { if Rx0? then 0x01 else 0x02 }
    function PendingBit(): bv8 { if Rx0? then 0x01 else 0x02 }
  }

  // Where each actor is; the names say what it does next.
  datatype IrqPc = IrqIdle | IrqGive
  datatype ServicePc =
    | TestPin | ReadFlags
    | ReadEflg | ClearErrors | EnterConfig | LeaveConfig | ErrorUnmark | ErrorGive
    | Stamp | ClearRx0 | MarkRx0 | ClearRx1 | MarkRx1 | ClearTx0 | UnmarkTx0 | GiveRx0 | GiveRx1 | GiveTx
    | TakeInt
  datatype ReaderPc = ReaderIdle | TakeRx | CopyStamp | TestRx0 | Unmark(b: Buffer)
      | Reading(b: Buffer, got: PartialRead)
  datatype SenderPc = SenderIdle | TestTx(r: Request) | TakeTx(r: Request) | MarkTx(r: Request, token: bool)
      | Loading(r: Request, k: nat)

  /** canService: its place in run and its locals. */
  datatype Service = Service(pc: ServicePc, intFlag: bv8, eflg: bv8)

  /** The INT line, its handler, and the flag and pass counts of draining. */
  datatype Interrupt = Interrupt(
    edge: bool, irq: IrqPc, sem: bool,
    flagsSet: nat, flagsCleared: nat, passes: nat)

  datatype Stamped = Stamped(time: nat, run: nat)

  /** The clock, the two time fields, the time of every handler run so far, how
      many of them _lastRxTime has seen, and the timestamps handed out. */
  datatype Clock = Clock(
    now: nat, lastInt: nat, lastRx: nat,
    runs: seq<nat>, rxRun: nat, stamps: seq<Stamped>)

  /** One receive buffer's past: frames the chip put in, messages handed to the
      user, and whether the last frame still waits to be handed over. */
  datatype Mailbox = Mailbox(arrived: seq<WireFrame>, delivered: seq<Message>, unread: bool)

  /** Beside the driver's state: both mailboxes, and how often the service marked a
      buffer and gave the semaphore, dropped gives included. */
  datatype ReceiveSide = ReceiveSide(
    sem: nat, pending: bv8, reader: ReaderPc, box0: Mailbox, box1: Mailbox,
    marks: nat, gives: nat)

  /** Beside the driver's state: the sends past their marking step, the frames
      the chip put on the bus, and what the service did on TXB0's behalf. */
  datatype SendSide = SendSide(
    sem: bool, pending: bv8, sender: SenderPc,
    requests: seq<Request>, transmitted: seq<WireFrame>,
    unmarks: nat, gives: nat, events: nat)

  datatype State = State(
    regs: Regs, service: Service, line: Interrupt, clock: Clock, rx: ReceiveSide, tx: SendSide)

  datatype Event =
    | IrqRuns | ServiceRuns | ReaderRuns | SenderRuns
    | StartRead | StartSend(r: Request)
    | Receive(b: Buffer, image: seq<bv8>) | Transmitted | Error(flags: bv8, eflg: bv8) | Tick(d: nat)

  // ----- The chip

  predicate IntLow(regs: Regs) {
    Has(Get(regs, 0x2C), 0xE7)
  }

  predicate TxRequested(regs: Regs) {
    Has(Get(regs, 0x30), 0x08)
  }

  function Bit(x: bv8, m: bv8): nat {
    if Has(x, m) then 1 else 0
  }

  /** How many of the enabled interrupt flags x has. */
  function EnabledCount(x: bv8): nat {
    Bit(x, RX0IF) + Bit(x, RX1IF) + Bit(x, TX0IF) + Bit(x, ERRIF) + Bit(x, WAKIF) + Bit(x, MERRF)
  }

  /** The chip sets interrupt flags; INT falling is latched as an edge. */
  function RaiseFlags(s: State, mask: bv8): State {
    var flags := Get(s.regs, 0x2C);
    var regs' := s.regs[0x2C := With(flags, mask)];
    s.(regs := regs',
       line := s.line.(edge := s.line.edge || (!IntLow(s.regs) && IntLow(regs')),
                     flagsSet := s.line.flagsSet + EnabledCount(Without(mask, flags))))
  }

  /** A received frame lands in a buffer as thirteen register values. */
  function WithImage(regs: Regs, buffer: MessageBuffer, image: seq<bv8>): Regs
    requires |image| == 13
  {
    map a: Addr | 0 <= a < 256 ::
      if buffer < a <= buffer + 13 then image[a - buffer - 1] else Get(regs, a)
  }

  function Arrived(rx: ReceiveSide, b: Buffer, frame: WireFrame): ReceiveSide {
    if b.Rx0? then rx.(box0 := Mailbox(rx.box0.arrived + [frame], rx.box0.delivered, true))
    else rx.(box1 := Mailbox(rx.box1.arrived + [frame], rx.box1.delivered, true))
  }

  function ReceiveStep(s: State, b: Buffer, image: seq<bv8>): State
    requires |image| == 13
  {
    var regs' := WithImage(s.regs, b.Base(), image);
    RaiseFlags(s.(regs := regs', rx := Arrived(s.rx, b, OnWire(regs', b.Base()))), b.Flag())
  }

  function TransmittedStep(s: State): State {
    var frame := OnWire(s.regs, 0x30);
    var regs' := s.regs[0x30 := Without(Get(s.regs, 0x30), 0x08)];
    RaiseFlags(s.(regs := regs', tx := s.tx.(transmitted := s.tx.transmitted + [frame])), 0x04)
  }

  function ErrorStep(s: State, flags: bv8, eflg: bv8): State {
    RaiseFlags(s.(regs := s.regs[0x2D := eflg]), flags)
  }

  // ----- irqHandler

  function IrqStep(s: State): State {
    match s.line.irq
    case IrqIdle =>
      s.(line := s.line.(edge := false, irq := IrqGive),
         clock := s.clock.(lastInt := s.clock.now, runs := s.clock.runs + [s.clock.now]))
    case IrqGive => s.(line := s.line.(sem := true, irq := IrqIdle))
  }

  // ----- run: its control flow, and what its next statement does to each part of the state

  function NextPc(v: Service, regs: Regs): ServicePc {
    match v.pc
    case TestPin => if IntLow(regs) then ReadFlags else TakeInt
    case ReadFlags => if Has(Get(regs, CANINTF), ERRORS) then ReadEflg else Stamp
    case ReadEflg => ClearErrors
    case ClearErrors => if Has(v.eflg, TXBO) then EnterConfig else ErrorUnmark
    case EnterConfig => LeaveConfig
    case LeaveConfig => ErrorUnmark
    case ErrorUnmark => ErrorGive
    case ErrorGive => TestPin
    case Stamp => ClearRx0
    case ClearRx0 => if Has(v.intFlag, RX0IF) then MarkRx0 else ClearRx1
    case MarkRx0 => ClearRx1
    case ClearRx1 => if Has(v.intFlag, RX1IF) then MarkRx1 else ClearTx0
    case MarkRx1 => ClearTx0
    case ClearTx0 => if Has(v.intFlag, TX0IF) then UnmarkTx0 else GiveRx0
    case UnmarkTx0 => GiveRx0
    case GiveRx0 => GiveRx1
    case GiveRx1 => GiveTx
    case GiveTx => TestPin
    case TakeInt => TestPin
  }

  function NextService(v: Service, regs: Regs): Service {
    Service(NextPc(v, regs),
            if v.pc.ReadFlags? then Get(regs, CANINTF) else v.intFlag,
            if v.pc.ReadEflg? then Get(regs, EFLG) else v.eflg)
  }

  /** The flags the next statement clears. */
  function Clears(v: Service): bv8 {
    match v.pc
    case ClearErrors => ERRORS
    case ClearRx0 => if Has(v.intFlag, RX0IF) then RX0IF else 0
    case ClearRx1 => if Has(v.intFlag, RX1IF) then RX1IF else 0
    case ClearTx0 => if Has(v.intFlag, TX0IF) then TX0IF else 0
    case _ => 0
  }

  function ServiceRegs(v: Service, regs: Regs): Regs {
    match v.pc
    case EnterConfig => Write(regs, CANCTRL, REQOP_CONFIG)
    case LeaveConfig => Write(regs, CANCTRL, NORMAL_CLKOUT)
    case _ => if Clears(v) == 0 then regs else BitModify(regs, CANINTF, Clears(v), 0)
  }

  function ServiceLine(v: Service, regs: Regs, line: Interrupt): Interrupt {
    match v.pc
    case ReadFlags => line.(passes := line.passes + 1)
    case TakeInt => line.(sem := false)
    case _ => line.(flagsCleared := line.flagsCleared + EnabledCount(Only(Get(regs, CANINTF), Clears(v))))
  }

  function ServiceClock(v: Service, clock: Clock): Clock {
    if v.pc.Stamp? && Has(v.intFlag, RX0IF | RX1IF)
        then clock.(lastRx := clock.lastInt, rxRun := |clock.runs|) else clock
  }

  /** A counting semaphore of capacity 2 drops what it cannot hold. */
  function Give2(sem: nat): nat {
    if sem < 2 then sem + 1 else sem
  }

  function MarkRx(rx: ReceiveSide, bit: bv8): ReceiveSide {
    rx.(pending := With(rx.pending, bit), marks := rx.marks + 1)
  }

  function GiveRxSem(rx: ReceiveSide): ReceiveSide {
    rx.(sem := Give2(rx.sem), gives := rx.gives + 1)
  }

  function ServiceRx(v: Service, rx: ReceiveSide): ReceiveSide {
    match v.pc
    case MarkRx0 => MarkRx(rx, 0x01)
    case MarkRx1 => MarkRx(rx, 0x02)
    case GiveRx0 => if Has(v.intFlag, RX0IF) then GiveRxSem(rx) else rx
    case GiveRx1 => if Has(v.intFlag, RX1IF) then GiveRxSem(rx) else rx
    case _ => rx
  }

  function UnmarkTx(tx: SendSide): SendSide {
    tx.(pending := Without(tx.pending, 0x01), unmarks := tx.unmarks + 1)
  }

  function GiveTxSem(tx: SendSide): SendSide {
    tx.(sem := true, gives := tx.gives + 1)
  }

  function ServiceTx(v: Service, regs: Regs, tx: SendSide): SendSide {
    match v.pc
    case ReadFlags => if Has(Get(regs, CANINTF), ERRORS | TX0IF) then tx.(events := tx.events + 1) else tx
    case ErrorUnmark => UnmarkTx(tx)
    case ErrorGive => GiveTxSem(tx)
    case UnmarkTx0 => UnmarkTx(tx)
    case GiveTx => if Has(v.intFlag, TX0IF) then GiveTxSem(tx) else tx
    case _ => tx
  }

  function ServiceStep(s: State): State {
    State(ServiceRegs(s.service, s.regs), NextService(s.service, s.regs), ServiceLine(s.service, s.regs, s.line),
          ServiceClock(s.service, s.clock), ServiceRx(s.service, s.rx), ServiceTx(s.service, s.regs, s.tx))
  }

  // ----- rxReadInTask

  function Deliver(rx: ReceiveSide, b: Buffer, m: Message): ReceiveSide {
    if b.Rx0? then rx.(reader := ReaderIdle, box0 := Mailbox(rx.box0.arrived, rx.box0.delivered + [m], false))
    else rx.(reader := ReaderIdle, box1 := Mailbox(rx.box1.arrived, rx.box1.delivered + [m], false))
  }

  /** The last register read of a buffer hands its message over. */
  function ReaderRx(rx: ReceiveSide, regs: Regs): ReceiveSide
    requires rx.reader.TakeRx? ==> rx.sem > 0
  {
    match rx.reader
    case ReaderIdle => rx
    case TakeRx => rx.(sem := rx.sem - 1, reader := CopyStamp)
    case CopyStamp => rx.(reader := TestRx0)
    case TestRx0 => rx.(reader := Unmark(if Has(rx.pending, 0x01) then Rx0 else Rx1))
    case Unmark(b) => rx.(pending := Without(rx.pending, b.PendingBit()), reader := Reading(b, []))
    case Reading(b, got) =>
      var got' := got + [Get(regs, b.Base() + NextOffset(got))];
      if ReadsDone(got') then Deliver(rx, b, Assemble(got')) else rx.(reader := Reading(b, got'))
  }

  function ReaderClock(pc: ReaderPc, clock: Clock): Clock {
    if pc.CopyStamp? then clock.(stamps := clock.stamps + [Stamped(clock.lastRx, clock.rxRun)]) else clock
  }

  function ReaderStep(s: State): State
    requires s.rx.reader.TakeRx? ==> s.rx.sem > 0
  {
    s.(rx := ReaderRx(s.rx, s.regs), clock := ReaderClock(s.rx.reader, s.clock))
  }

  // ----- txBuffer0SendInTask

  function SenderTx(tx: SendSide): SendSide {
    match tx.sender
    case SenderIdle => tx
    case TestTx(r) => tx.(sender := if Has(tx.pending, 0x01) then TakeTx(r) else MarkTx(r, false))
    case TakeTx(r) => tx.(sem := false, sender := MarkTx(r, true))
    case MarkTx(r, _) => tx.(pending := With(tx.pending, 0x01), sender := Loading(r, 0), requests := tx.requests + [r])
    case Loading(r, k) => tx.(sender := if k + 1 < SendSize(r) then Loading(r, k + 1) else SenderIdle)
  }

  function SenderRegs(pc: SenderPc, regs: Regs): Regs {
    if pc.Loading? && pc.k < SendSize(pc.r) then Write(regs, SendAddress(pc.r, pc.k), SendValue(pc.r, pc.k)) else regs
  }

  function SenderStep(s: State): State {
    s.(tx := SenderTx(s.tx), regs := SenderRegs(s.tx.sender, s.regs))
  }

  // ----- Runs

  predicate Enabled(s: State, e: Event) {
    match e
    case IrqRuns => s.line.irq.IrqGive? || s.line.edge
    case ServiceRuns => s.service.pc.TakeInt? ==> s.line.sem
    case ReaderRuns => !s.rx.reader.ReaderIdle? && (s.rx.reader.TakeRx? ==> s.rx.sem > 0)
    case SenderRuns => !s.tx.sender.SenderIdle? && (s.tx.sender.TakeTx? ==> s.tx.sem)
    case StartRead => s.rx.reader.ReaderIdle?
    case StartSend(_) => s.tx.sender.SenderIdle?
    case Receive(b, image) => !Has(Get(s.regs, CANINTF), b.Flag()) && |image| == 13 && LowNibble(image[4]) <= 8
    case Transmitted => TxRequested(s.regs)
    case Error(flags, _) => Without(flags, 0xE0) == 0
    case Tick(_) => true
  }

  function Step(s: State, e: Event): State
    requires Enabled(s, e)
  {
    match e
    case IrqRuns => IrqStep(s)
    case ServiceRuns => ServiceStep(s)
    case ReaderRuns => ReaderStep(s)
    case SenderRuns => SenderStep(s)
    case StartRead => s.(rx := s.rx.(reader := TakeRx))
    case StartSend(r) => s.(tx := s.tx.(sender := TestTx(r)))
    case Receive(b, image) => ReceiveStep(s, b, image)
    case Transmitted => TransmittedStep(s)
    case Error(flags, eflg) => ErrorStep(s, flags, eflg)
    case Tick(d) => s.(clock := s.clock.(now := s.clock.now + d))
  }

  /** The state initialInTask leaves behind, before the first chip event. */
  predicate Started(s: State) {
    && !IntLow(s.regs) && !TxRequested(s.regs)
    && s.service.pc == TestPin
    && s.line == Interrupt(false, IrqIdle, false, 0, 0, 0)
    && s.clock == Clock(s.clock.now, 0, 0, [], 0, [])
    && s.rx == ReceiveSide(0, 0, ReaderIdle, Mailbox([], [], false), Mailbox([], [], false), 0, 0)
    && s.tx == SendSide(false, 0, SenderIdle, [], [], 0, 0, 0)
  }

  /** A schedule of any length, in any order; an actor that cannot move waits. */
  function After(s: State, es: seq<Event>): State {
    if es == [] then s
    else
      var t := After(s, es[..|es| - 1]);
      var e := es[|es| - 1];
      if Enabled(t, e) then Step(t, e) else t
  }

  lemma AfterOne(s: State, e: Event)
    ensures After(s, [e]) == if Enabled(s, e) then Step(s, e) else s
  {}

  lemma {:induction false} AfterConcat(s: State, a: seq<Event>, b: seq<Event>)
    ensures After(s, a + b) == After(After(s, a), b)
    decreases |b|
  {
    if b == [] {
      assert a + b == a;
    } else {
      assert (a + b)[..|a + b| - 1] == a + b[..|b| - 1];
      AfterConcat(s, a, b[..|b| - 1]);
    }
  }
}
