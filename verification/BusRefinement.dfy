/** Any number of tasks share one SPI object.  readByte, writeByte and bitModify
    interleave byte by byte, yet refine atomic register operations. */
module BusRefinement {
  import opened Registers
  import opened SpiDevice

  /** A task's place in csSelect, the transfers and csDeselect of one command. */
  datatype TaskPc =
    | Idle
    | TakeMutex(c: Command)              // csSelect: waits for the bus mutex
    | Activate(c: Command)               // configASSERT(!_csActive); _csActive = true
    | PullLow(c: Command)
    | Shift(c: Command, k: nat)          // the k-th byte of the command is next
    | Deactivate(c: Command, r: bv8)     // configASSERT(_csActive); _csActive = false
    | PullHigh(c: Command, r: bv8)
    | GiveMutex(c: Command, r: bv8)

  datatype Entry =
    | Completed(task: nat, c: Command, result: bv8)
    | ChipWrote(regs: Regs)              // the chip changes registers by itself

  datatype Bus = Bus(
    tasks: seq<TaskPc>,
    mutex: int,                          // the holder, or -1
    csActive: bool, csLow: bool, asserted: bool,
    device: Device,
    log: seq<Entry>,                     // what happened to the registers, in order
    lockOrder: seq<(nat, Command)>,
    selects: seq<seq<bv8>>,              // the bytes of every finished chip-select-low interval
    returned: seq<(nat, Command, bv8)>)  // what each finished call returned to its task

  datatype BusEvent = Start(task: nat, c: Command) | Runs(task: nat) | ChipActs(regs: Regs)

  /** The device after the byte a task is about to shift, and what it clocks out. */
  datatype Exchange = Exchange(device: Device, reply: bv8)

  function ByteExchange(b: Bus, i: nat): Exchange
    requires i < |b.tasks|
  {
    match b.tasks[i]
    case Shift(c, k) => Exchange(if k < |CommandBytes(c)| then Accept(b.device, CommandBytes(c)[k]) else b.device,
        Reply(b.device))
    case _ => Exchange(b.device, 0)
  }

  function StepTask(b: Bus, i: nat, x: Exchange): Bus
    requires i < |b.tasks|
  {
    match b.tasks[i]
    case Idle => b
    case TakeMutex(c) => b.(tasks := b.tasks[i := Activate(c)], mutex := i, lockOrder := b.lockOrder + [(i, c)])
    case Activate(c) => b.(tasks := b.tasks[i := PullLow(c)], asserted := b.asserted || b.csActive, csActive := true)
    case PullLow(c) => b.(tasks := b.tasks[i := Shift(c, 0)], csLow := true, device := b.device.(frame := []))
    case Shift(c, k) => ShiftByte(b, i, c, k, x)
    case Deactivate(c, r) => b.(tasks := b.tasks[i := PullHigh(c, r)], asserted := b.asserted
        || !b.csActive, csActive := false)
    case PullHigh(c, r) => b.(tasks := b.tasks[i := GiveMutex(c, r)], csLow := false,
        selects := b.selects + [b.device.frame])
    case GiveMutex(c, r) => b.(tasks := b.tasks[i := Idle], mutex := -1, returned := b.returned + [(i, c, r)])
  }

  /** One byte goes each way; the last byte of a command completes it. */
  function ShiftByte(b: Bus, i: nat, c: Command, k: nat, x: Exchange): Bus
    requires i < |b.tasks|
  {
    if k >= |CommandBytes(c)| then b
    else if k + 1 < |CommandBytes(c)| then b.(tasks := b.tasks[i := Shift(c, k + 1)], device := x.device)
    else b.(tasks := b.tasks[i := Deactivate(c, x.reply)], device := x.device,
        log := b.log + [Completed(i, c, x.reply)])
  }

  predicate Enabled(b: Bus, e: BusEvent) {
    match e
    case Start(i, _) => i < |b.tasks| && b.tasks[i].Idle?
    case Runs(i) => i < |b.tasks| && (b.tasks[i].TakeMutex? ==> b.mutex == -1)
    case ChipActs(_) => true
  }

  function Step(b: Bus, e: BusEvent): Bus
    requires Enabled(b, e)
  {
    match e
    case Start(i, c) => b.(tasks := b.tasks[i := TakeMutex(c)])
    case Runs(i) => StepTask(b, i, ByteExchange(b, i))
    case ChipActs(regs) => b.(device := b.device.(regs := regs), log := b.log + [ChipWrote(regs)])
  }

  function After(b: Bus, es: seq<BusEvent>): Bus {
    if es == [] then b
    else
      var t := After(b, es[..|es| - 1]);
      if Enabled(t, es[|es| - 1]) then Step(t, es[|es| - 1]) else t
  }

  predicate Started(b: Bus) {
    && (forall i :: 0 <= i < |b.tasks| ==> b.tasks[i].Idle?)
    && b.mutex == -1 && !b.csActive && !b.csLow && !b.asserted
    && b.log == [] && b.lockOrder == [] && b.selects == [] && b.returned == []
  }

  // ----- The atomic specification: one whole command at a time

  function ReplayEntry(regs: Regs, e: Entry): Regs {
    match e
    case Completed(_, c, _) => Effect(c, regs)
    case ChipWrote(regs') => regs'
  }

  function Replay(regs: Regs, log: seq<Entry>): Regs {
    if log == [] then regs else ReplayEntry(Replay(regs, log[..|log| - 1]), log[|log| - 1])
  }

  /** Every read in the log answered with the register's value at its turn. */
  predicate AnswersRight(regs: Regs, log: seq<Entry>) {
    log == [] ||
    var before, last := Replay(regs, log[..|log| - 1]), log[|log| - 1];
    AnswersRight(regs, log[..|log| - 1])
    && (last.Completed? && last.c.ReadByte? ==> last.result == Get(before, last.c.addr))
  }

  function CommandsOf(log: seq<Entry>): seq<(nat, Command)> {
    if log == [] then []
    else
      var last := log[|log| - 1];
      CommandsOf(log[..|log| - 1]) + if last.Completed? then [(last.task, last.c)] else []
  }

  function ResultsOf(log: seq<Entry>): seq<(nat, Command, bv8)> {
    if log == [] then []
    else
      var last := log[|log| - 1];
      ResultsOf(log[..|log| - 1]) + if last.Completed? then [(last.task, last.c, last.result)] else []
  }

  function BytesOf(order: seq<(nat, Command)>): seq<seq<bv8>> {
    seq(|order|, i requires 0 <= i < |order| => CommandBytes(order[i].1))
  }

  // ----- The invariant

  predicate Holds(pc: TaskPc) {
    !pc.Idle? && !pc.TakeMutex?
  }

  /** The holder has not yet shifted the last byte of its command. */
  predicate Unfinished(pc: TaskPc) {
    pc.Activate? || pc.PullLow? || pc.Shift?
  }

  /** The holder's chip-select interval is not over yet. */
  predicate Open(pc: TaskPc) {
    Unfinished(pc) || pc.Deactivate? || pc.PullHigh?
  }

  predicate Exclusive(b: Bus) {
    && -1 <= b.mutex < |b.tasks|
    && (forall i :: 0 <= i < |b.tasks| ==> (Holds(b.tasks[i]) <==> b.mutex == i))
  }

  function Holder(b: Bus): TaskPc
    requires -1 <= b.mutex < |b.tasks|
  {
    if b.mutex == -1 then Idle else b.tasks[b.mutex]
  }

  predicate Bracketed(b: Bus, pc: TaskPc) {
    && !b.asserted
    && b.csActive == (pc.PullLow? || pc.Shift? || pc.Deactivate?)
    && b.csLow == (pc.Shift? || pc.Deactivate? || pc.PullHigh?)
    && (pc.Shift? ==> pc.k < |CommandBytes(pc.c)| && b.device.frame == CommandBytes(pc.c)[..pc.k])
    && (pc.Deactivate? || pc.PullHigh? ==> b.device.frame == CommandBytes(pc.c))
  }

  predicate Replayed(b: Bus, regs: Regs) {
    b.device.regs == Replay(regs, b.log) && AnswersRight(regs, b.log)
  }

  predicate InLockOrder(log: seq<Entry>, lockOrder: seq<(nat, Command)>, selects: seq<seq<bv8>>,
      holder: int, pc: TaskPc) {
    && (Unfinished(pc) ==> holder >= 0)
    && lockOrder == CommandsOf(log) + (if Unfinished(pc) then [(holder as nat, pc.c)] else [])
    && BytesOf(lockOrder) == selects + (if Open(pc) then [CommandBytes(pc.c)] else [])
  }

  /** The holder's command is complete and its call has not returned yet. */
  predicate Returning(pc: TaskPc) {
    pc.Deactivate? || pc.PullHigh? || pc.GiveMutex?
  }

  predicate Returned(log: seq<Entry>, returned: seq<(nat, Command, bv8)>, holder: int, pc: TaskPc) {
    && (Returning(pc) ==> holder >= 0)
    && ResultsOf(log) == returned + (if Returning(pc) then [(holder as nat, pc.c, pc.r)] else [])
  }

  predicate Sound(b: Bus, regs: Regs) {
    Exclusive(b) && Bracketed(b, Holder(b)) && Replayed(b, regs)
    && InLockOrder(b.log, b.lockOrder, b.selects, b.mutex, Holder(b)) && Returned(b.log, b.returned, b.mutex, Holder(b))
  }

  // ----- Every step keeps it

  lemma RunKeepsExclusive(b: Bus, i: nat, x: Exchange)
    requires Enabled(b, Runs(i)) && Exclusive(b)
    ensures Exclusive(StepTask(b, i, x))
    ensures var pc, b' := b.tasks[i], StepTask(b, i, x);
            !pc.Idle? ==>
              && (pc.TakeMutex? ==> Holder(b) == Idle)
              && (!pc.TakeMutex? ==> Holder(b) == pc && b.mutex == i)
              && (Holds(b'.tasks[i]) ==> Holder(b') == b'.tasks[i] && b'.mutex == i)
              && (!Holds(b'.tasks[i]) ==> Holder(b') == Idle)
  {}

  lemma RunKeepsBracketed(b: Bus, i: nat)
    requires Enabled(b, Runs(i)) && Exclusive(b) && Bracketed(b, Holder(b))
    ensures var b' := StepTask(b, i, ByteExchange(b, i)); Exclusive(b') && Bracketed(b', Holder(b'))
  {
    RunKeepsExclusive(b, i, ByteExchange(b, i));
    match b.tasks[i]
    case Shift(c, k) => CommandByteEffect(c, b.device, k);
    case Idle => case TakeMutex(_) => case Activate(_) => case PullLow(_) =>
    case Deactivate(_, _) => case PullHigh(_, _) => case GiveMutex(_, _) =>
  }

  lemma LogGrows(regs: Regs, log: seq<Entry>, e: Entry)
    ensures Replay(regs, log + [e]) == ReplayEntry(Replay(regs, log), e)
    ensures AnswersRight(regs, log + [e]) <==>
              AnswersRight(regs, log) && (e.Completed? && e.c.ReadByte? ==>
                    e.result == Get(Replay(regs, log), e.c.addr))
    ensures ResultsOf(log + [e]) == ResultsOf(log) + if e.Completed? then [(e.task, e.c, e.result)] else []
    ensures CommandsOf(log + [e]) == CommandsOf(log) + if e.Completed? then [(e.task, e.c)] else []
  {}

  lemma BytesGrow(order: seq<(nat, Command)>, x: (nat, Command))
    ensures BytesOf(order + [x]) == BytesOf(order) + [CommandBytes(x.1)]
  {}

  lemma RunKeepsReplayed(b: Bus, i: nat, regs: Regs)
    requires Enabled(b, Runs(i)) && Sound(b, regs)
    ensures Replayed(StepTask(b, i, ByteExchange(b, i)), regs)
  {
    RunKeepsExclusive(b, i, ByteExchange(b, i));
    match b.tasks[i]
    case Shift(c, k) =>
      CommandByteEffect(c, b.device, k);
      LogGrows(regs, b.log, Completed(i, c, Reply(b.device)));
    case _ =>
  }

  /** Taking the mutex opens an interval; the last byte completes the command. */
  lemma TakeOpens(log: seq<Entry>, lockOrder: seq<(nat, Command)>, selects: seq<seq<bv8>>, i: nat, c: Command)
    requires InLockOrder(log, lockOrder, selects, -1, Idle)
    ensures InLockOrder(log, lockOrder + [(i, c)], selects, i, Activate(c))
  {
    BytesGrow(lockOrder, (i, c));
  }

  lemma LastByteCompletes(log: seq<Entry>, lockOrder: seq<(nat, Command)>, selects: seq<seq<bv8>>,
      i: nat, c: Command, k: nat, r: bv8)
    requires InLockOrder(log, lockOrder, selects, i, Shift(c, k))
    ensures InLockOrder(log + [Completed(i, c, r)], lockOrder, selects, i, Deactivate(c, r))
  {}

  lemma RunKeepsLockOrder(b: Bus, i: nat, x: Exchange)
    requires Enabled(b, Runs(i)) && Exclusive(b) && InLockOrder(b.log, b.lockOrder, b.selects, b.mutex, Holder(b))
    requires Bracketed(b, Holder(b))
    ensures Exclusive(StepTask(b, i, x))
    ensures var b' := StepTask(b, i, x); InLockOrder(b'.log, b'.lockOrder, b'.selects, b'.mutex, Holder(b'))
  {
    RunKeepsExclusive(b, i, x);
    match b.tasks[i]
    case TakeMutex(c) => TakeOpens(b.log, b.lockOrder, b.selects, i, c);
    case Shift(c, k) =>
      if k == |CommandBytes(c)| - 1 {
        LastByteCompletes(b.log, b.lockOrder, b.selects, i, c, k, x.reply);
      }
    case Idle => case Activate(_) => case PullLow(_) =>
    case Deactivate(_, _) => case PullHigh(_, _) => case GiveMutex(_, _) =>
  }

  lemma LastByteAnswers(log: seq<Entry>, returned: seq<(nat, Command, bv8)>, i: nat, c: Command, k: nat, r: bv8)
    requires Returned(log, returned, i, Shift(c, k))
    ensures Returned(log + [Completed(i, c, r)], returned, i, Deactivate(c, r))
  {}

  lemma RunKeepsReturned(b: Bus, i: nat, x: Exchange)
    requires Enabled(b, Runs(i)) && Exclusive(b) && Returned(b.log, b.returned, b.mutex, Holder(b))
    ensures Exclusive(StepTask(b, i, x))
    ensures var b' := StepTask(b, i, x); Returned(b'.log, b'.returned, b'.mutex, Holder(b'))
  {
    RunKeepsExclusive(b, i, x);
    match b.tasks[i]
    case Shift(c, k) =>
      if k == |CommandBytes(c)| - 1 {
        LastByteAnswers(b.log, b.returned, i, c, k, x.reply);
      }
    case Idle => case TakeMutex(_) => case Activate(_) => case PullLow(_) =>
    case Deactivate(_, _) => case PullHigh(_, _) => case GiveMutex(_, _) =>
  }

  lemma StepKeepsSound(b: Bus, e: BusEvent, regs: Regs)
    requires Enabled(b, e) && Sound(b, regs)
    ensures Sound(Step(b, e), regs)
  {
    match e
    case Runs(i) =>
      RunKeepsBracketed(b, i);
      RunKeepsReplayed(b, i, regs);
      RunKeepsLockOrder(b, i, ByteExchange(b, i));
      RunKeepsReturned(b, i, ByteExchange(b, i));
    case Start(_, _) =>
    case ChipActs(r) => LogGrows(regs, b.log, ChipWrote(r));
  }

  /** For any number of tasks and any interleaving of their steps, also with the chip
      changing registers in between: no configASSERT ever fires, every finished
      chip-select interval holds the bytes of exactly one command, in lock order,
      and registers and read results are those of running the commands whole, one
      by one, in lock order. */
  lemma {:induction false} InterleavedCommandsAreAtomic(b: Bus, es: seq<BusEvent>)
    requires Started(b)
    ensures Sound(After(b, es), b.device.regs)
    ensures var t := After(b, es);
            && !t.asserted
            && t.selects <= BytesOf(t.lockOrder) && |t.lockOrder| <= |t.selects| + 1
            && CommandsOf(t.log) <= t.lockOrder && |t.lockOrder| <= |CommandsOf(t.log)| + 1
            && t.device.regs == Replay(b.device.regs, t.log) && AnswersRight(b.device.regs, t.log)
            && t.returned <= ResultsOf(t.log)
  {
    if es != [] {
      var t, e := After(b, es[..|es| - 1]), es[|es| - 1];
      InterleavedCommandsAreAtomic(b, es[..|es| - 1]);
      if Enabled(t, e) {
        StepKeepsSound(t, e, b.device.regs);
      }
    }
  }
}
