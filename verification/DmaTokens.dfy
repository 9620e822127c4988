/** The completion tokens of a DMA transfer: two channels, the interrupt handler's
    loop over them, and the task that takes first the transmit and then the receive
    semaphore, all in any interleaving, as on two cores.  On one core the handler
    keeps the task from running. */
module DmaTokens {
  import opened Counting

  const CHANNELS_PER_IRQ := 6

  /** running: still moving bytes.  status: finished, interrupt raised. */
  datatype Channel = Channel(running: bool, status: bool, sem: bool, completions: nat)

  datatype TaskPc = Idle | TakeTx | TakeRx
  datatype HandlerPc = Off | Test(c: nat) | Callback(c: nat) | Acknowledge(c: nat)

  /** txChannel and rxChannel are the two claimed channels, both served by handler 0. */
  datatype System = System(
    txChannel: nat, rxChannel: nat, tx: Channel, rx: Channel,
    task: TaskPc, handler: HandlerPc, started: nat, returned: nat)

  datatype Event = StartTransfer | TaskRuns | TxDone | RxDone | Interrupt | HandlerRuns

  function Get(s: System, c: nat): Channel
    requires c == s.txChannel || c == s.rxChannel
  {
    if c == s.txChannel then s.tx else s.rx
  }

  function Put(s: System, c: nat, ch: Channel): System
    requires c == s.txChannel || c == s.rxChannel
  {
    if c == s.txChannel then s.(tx := ch) else s.(rx := ch)
  }

  predicate Served(s: System, c: nat) {
    c == s.txChannel || c == s.rxChannel
  }

  function Finish(ch: Channel): Channel {
    ch.(running := false, status := true, completions := ch.completions + 1)
  }

  /** One statement of the loop in dma_handler0. */
  function HandlerStep(s: System): System {
    match s.handler
    case Off => s
    case Test(c) =>
      if c >= CHANNELS_PER_IRQ then s.(handler := Off)
      else if Served(s, c) && Get(s, c).status then s.(handler := Callback(c))
      else s.(handler := Test(c + 1))
    case Callback(c) =>
      if Served(s, c) then Put(s, c, Get(s, c).(sem := true)).(handler := Acknowledge(c)) else s
    case Acknowledge(c) =>
      if Served(s, c) then Put(s, c, Get(s, c).(status := false)).(handler := Test(c + 1)) else s
  }

  function TaskStep(s: System): System {
    match s.task
    case Idle => s
    case TakeTx => s.(tx := s.tx.(sem := false), task := TakeRx)
    case TakeRx => s.(rx := s.rx.(sem := false), task := Idle, returned := s.returned + 1)
  }

  predicate Enabled(s: System, e: Event) {
    match e
    case StartTransfer => s.task.Idle?
    case TaskRuns => (s.task.TakeTx? && s.tx.sem) || (s.task.TakeRx? && s.rx.sem)
    case TxDone => s.tx.running
    case RxDone => s.rx.running
    case Interrupt => s.handler.Off? && (s.tx.status || s.rx.status)
    case HandlerRuns => !s.handler.Off?
  }

  function Step(s: System, e: Event): System
    requires Enabled(s, e)
  {
    match e
    case StartTransfer =>
      s.(tx := s.tx.(running := true), rx := s.rx.(running := true), task := TakeTx, started := s.started + 1)
    case TaskRuns => TaskStep(s)
    case TxDone => s.(tx := Finish(s.tx))
    case RxDone => s.(rx := Finish(s.rx))
    case Interrupt => s.(handler := Test(0))
    case HandlerRuns => HandlerStep(s)
  }

  function After(s: System, es: seq<Event>): System {
    if es == [] then s
    else
      var t := After(s, es[..|es| - 1]);
      if Enabled(t, es[|es| - 1]) then Step(t, es[|es| - 1]) else t
  }

  predicate Started(s: System) {
    && s.txChannel < 6 && s.rxChannel < 6 && s.txChannel != s.rxChannel
    && s.tx == Channel(false, false, false, 0) && s.rx == s.tx
    && s.task.Idle? && s.handler.Off? && s.started == 0 && s.returned == 0
  }

  // ----- Conservation

  /** A channel finishes between the give for its last completion and the acknowledge,
      which then wipes out the new completion as well. */
  predicate Overtakes(s: System, e: Event) {
    (e.TxDone? && s.handler == Acknowledge(s.txChannel)) || (e.RxDone? && s.handler == Acknowledge(s.rxChannel))
  }

  predicate NeverOvertakes(s: System, es: seq<Event>) {
    es == [] ||
    var t, e := After(s, es[..|es| - 1]), es[|es| - 1];
    NeverOvertakes(s, es[..|es| - 1]) && (Enabled(t, e) ==> !Overtakes(t, e))
  }

  /** On one core the task does not move while the handler runs. */
  predicate OneCore(s: System, es: seq<Event>) {
    es == [] ||
    var t, e := After(s, es[..|es| - 1]), es[|es| - 1];
    OneCore(s, es[..|es| - 1]) && (e.StartTransfer? || e.TaskRuns? ==> t.handler.Off?)
  }

  /** How many of running, interrupt pending, token stored and token taken hold. */
  function Tokens(s: System, c: nat, taken: bool): nat
    requires Served(s, c)
  {
    var ch := Get(s, c);
    One(ch.running) + One(ch.status && s.handler != Acknowledge(c)) + One(ch.sem) + One(taken)
  }

  predicate HandlerFacts(s: System) {
    && (s.handler.Test? ==> s.handler.c <= CHANNELS_PER_IRQ)
    && (s.handler.Callback? || s.handler.Acknowledge? ==>
          s.handler.c < CHANNELS_PER_IRQ && Served(s, s.handler.c) && Get(s, s.handler.c).status)
  }

  predicate Conserved(s: System) {
    && s.txChannel < CHANNELS_PER_IRQ && s.rxChannel < CHANNELS_PER_IRQ && s.txChannel != s.rxChannel && HandlerFacts(s)
    && Tokens(s, s.txChannel, s.task.TakeRx?) == One(!s.task.Idle?)
    && Tokens(s, s.rxChannel, false) == One(!s.task.Idle?)
    && s.started == s.returned + One(!s.task.Idle?)
    && s.tx.completions + One(s.tx.running) == s.started && s.rx.completions + One(s.rx.running) == s.started
  }

  lemma HandlerKeepsConserved(s: System)
    requires Conserved(s) && !s.handler.Off?
    ensures Conserved(HandlerStep(s))
  {
    match s.handler
    case Test(c) => case Callback(c) => case Acknowledge(c) =>
  }

  lemma StepKeepsConserved(s: System, e: Event)
    requires Enabled(s, e) && Conserved(s) && !Overtakes(s, e)
    ensures Conserved(Step(s, e))
  {
    if e.HandlerRuns? {
      HandlerKeepsConserved(s);
    }
  }

  /** Over any number of transfers and any interleaving in which no channel overtakes
      its acknowledge: during a transfer each channel is exactly one of running,
      interrupt pending, token stored, token taken. */
  lemma {:induction false} TokensAreConserved(s: System, es: seq<Event>)
    requires Started(s) && NeverOvertakes(s, es)
    ensures Conserved(After(s, es))
  {
    if es != [] {
      var t, e := After(s, es[..|es| - 1]), es[|es| - 1];
      TokensAreConserved(s, es[..|es| - 1]);
      if Enabled(t, e) {
        StepKeepsConserved(t, e);
      }
    }
  }

  /** A completion of channel c is gone and the task waits for its token. */
  predicate Lost(s: System, c: nat) {
    && s.txChannel != s.rxChannel && Served(s, c) && HandlerFacts(s)
    && (if c == s.txChannel then s.task.TakeTx? else !s.task.Idle?)
    && var ch := Get(s, c); !ch.running && !ch.sem && (ch.status ==> s.handler == Acknowledge(c))
  }

  lemma LostNext(s: System, e: Event, c: nat)
    requires Enabled(s, e) && Lost(s, c)
    ensures Lost(Step(s, e), c)
  {}

  lemma {:induction false} LostStays(s: System, es: seq<Event>, c: nat)
    requires Lost(s, c)
    ensures Lost(After(s, es), c)
  {
    if es != [] {
      LostStays(s, es[..|es| - 1], c);
      var t, e := After(s, es[..|es| - 1]), es[|es| - 1];
      if Enabled(t, e) {
        LostNext(t, e, c);
      }
    }
  }

  predicate AnyLost(s: System) {
    Lost(s, s.txChannel) || Lost(s, s.rxChannel)
  }

  lemma OvertakingLoses(s: System, e: Event)
    requires Enabled(s, e) && Conserved(s) && Overtakes(s, e)
    ensures AnyLost(Step(s, e))
  {}

  lemma StepKeepsConservedOrLost(s: System, e: Event)
    requires Enabled(s, e) && (Conserved(s) || AnyLost(s))
    ensures Conserved(Step(s, e)) || AnyLost(Step(s, e))
  {
    if Lost(s, s.txChannel) {
      LostNext(s, e, s.txChannel);
    } else if Lost(s, s.rxChannel) {
      LostNext(s, e, s.rxChannel);
    } else if Overtakes(s, e) {
      OvertakingLoses(s, e);
    } else {
      StepKeepsConserved(s, e);
    }
  }

  lemma {:induction false} ConservedOrLost(s: System, es: seq<Event>)
    requires Started(s)
    ensures Conserved(After(s, es)) || AnyLost(After(s, es))
  {
    if es != [] {
      var t, e := After(s, es[..|es| - 1]), es[|es| - 1];
      ConservedOrLost(s, es[..|es| - 1]);
      if Enabled(t, e) {
        StepKeepsConservedOrLost(t, e);
      }
    }
  }

  /** In every run, on any cores, overtaking or not: whenever transfer has returned, both
      channels have completed exactly as often as transfers were started, and no token or
      interrupt is left over for the next one. */
  lemma NoTransferReturnsOnAnOldToken(s: System, es: seq<Event>)
    requires Started(s) && After(s, es).task.Idle?
    ensures var t := After(s, es);
            && !t.tx.running && !t.rx.running && !t.tx.sem && !t.rx.sem
            && (t.tx.status ==> t.handler == Acknowledge(t.txChannel)) && (t.rx.status ==>
                  t.handler == Acknowledge(t.rxChannel))
            && t.tx.completions == t.rx.completions == t.returned == t.started
  {
    ConservedOrLost(s, es);
  }

  /** The channel the handler is at is not running again. */
  predicate HandlerIsAlone(s: System) {
    s.handler.Callback? || s.handler.Acknowledge? ==> Served(s, s.handler.c) && !Get(s, s.handler.c).running
  }

  /** On one core no channel ever overtakes its acknowledge. */
  lemma {:induction false} OneCoreNeverOvertakes(s: System, es: seq<Event>)
    requires Started(s) && OneCore(s, es)
    ensures NeverOvertakes(s, es) && Conserved(After(s, es)) && HandlerIsAlone(After(s, es))
  {
    if es != [] {
      var t, e := After(s, es[..|es| - 1]), es[|es| - 1];
      OneCoreNeverOvertakes(s, es[..|es| - 1]);
      if Enabled(t, e) {
        StepKeepsConserved(t, e);
      }
    }
  }

  // ----- An uninterrupted run of the handler

  function Serve(ch: Channel): Channel {
    ch.(status := false, sem := ch.sem || ch.status)
  }

  /** What one run of the handler does to the two channels. */
  function HandlerPass(s: System): System {
    s.(tx := Serve(s.tx), rx := Serve(s.rx), handler := Off)
  }

  function HandlerRank(h: HandlerPc): int {
    match h
    case Off => 0
    case Test(c) => 3 * (CHANNELS_PER_IRQ - c) + 1
    case Callback(c) => 3 * (CHANNELS_PER_IRQ - c)
    case Acknowledge(c) => 3 * (CHANNELS_PER_IRQ - c) - 1
  }

  /** The three statements of the loop for a raised channel. */
  lemma ChannelIsServed(s: System, c: nat)
    requires s.handler == Test(c) && c < CHANNELS_PER_IRQ && Served(s, c) && Get(s, c).status
    ensures After(s, [HandlerRuns] + [HandlerRuns] + [HandlerRuns])
            == Put(s, c, Serve(Get(s, c))).(handler := Test(c + 1))
  {
    var s1 := HandlerStep(s);
    var s2 := HandlerStep(s1);
    AfterOne(s, HandlerRuns);
    AfterOne(s1, HandlerRuns);
    AfterOne(s2, HandlerRuns);
    AfterConcat(s, [HandlerRuns], [HandlerRuns]);
    AfterConcat(s, [HandlerRuns] + [HandlerRuns], [HandlerRuns]);
  }

  /** The loop, from a channel with none raised before it, is one such run. */
  lemma {:induction false} LoopIsPass(s: System, c: nat) returns (es: seq<Event>)
    requires s.txChannel < CHANNELS_PER_IRQ && s.rxChannel < CHANNELS_PER_IRQ && s.txChannel != s.rxChannel
    requires s.handler == Test(c) && c <= CHANNELS_PER_IRQ
    requires (s.tx.status ==> c <= s.txChannel) && (s.rx.status ==> c <= s.rxChannel)
    ensures After(s, es) == HandlerPass(s)
    decreases CHANNELS_PER_IRQ - c
  {
    AfterOne(s, HandlerRuns);
    es := [HandlerRuns];
    if c < CHANNELS_PER_IRQ {
      if Served(s, c) && Get(s, c).status {
        ChannelIsServed(s, c);
        es := [HandlerRuns] + [HandlerRuns] + [HandlerRuns];
      }
      var rest := LoopIsPass(After(s, es), c + 1);
      AfterConcat(s, es, rest);
      es := es + rest;
    }
  }

  lemma AfterOne(s: System, e: Event)
    requires Enabled(s, e)
    ensures After(s, [e]) == Step(s, e)
  {}

  lemma {:induction false} AfterConcat(s: System, a: seq<Event>, b: seq<Event>)
    ensures After(s, a + b) == After(After(s, a), b)
    decreases |b|
  {
    if b == [] {
      assert a + b == a;
    } else {
      assert (a + b)[..|a + b| - 1] == a + b[..|b| - 1];
      AfterConcat(s, a, b[..|b| - 1]);
    }
  }

  // ----- The condition is exact

  /** The transfer under way can return. */
  ghost predicate CanReturn(s: System) {
    exists es :: After(s, es).task.Idle?
  }

  /** From wherever it is, the handler comes to an end. */
  lemma {:induction false} HandlerEnds(s: System) returns (es: seq<Event>)
    requires Conserved(s)
    ensures Conserved(After(s, es)) && After(s, es).handler.Off? && After(s, es).task == s.task
    decreases HandlerRank(s.handler)
  {
    if s.handler.Off? {
      es := [];
    } else {
      AfterOne(s, HandlerRuns);
      StepKeepsConserved(s, HandlerRuns);
      var rest := HandlerEnds(HandlerStep(s));
      AfterConcat(s, [HandlerRuns], rest);
      es := [HandlerRuns] + rest;
    }
  }

  /** With the handler off, the channels can finish. */
  lemma ChannelsFinish(s: System) returns (es: seq<Event>)
    requires Conserved(s) && s.handler.Off?
    ensures var t := After(s, es); Conserved(t) && t.handler.Off? && t.task == s.task && !t.tx.running && !t.rx.running
  {
    es := [];
    if s.tx.running {
      AfterOne(s, TxDone);
      StepKeepsConserved(s, TxDone);
      es := [TxDone];
    }
    var t := After(s, es);
    if t.rx.running {
      AfterOne(t, RxDone);
      StepKeepsConserved(t, RxDone);
      AfterConcat(s, es, [RxDone]);
      es := es + [RxDone];
    }
  }

  lemma PassKeepsConserved(s: System)
    requires Conserved(s) && s.handler.Off?
    ensures Conserved(HandlerPass(s))
  {}

  /** And the handler then gives their tokens. */
  lemma TokensComeIn(s: System) returns (es: seq<Event>)
    requires Conserved(s) && s.handler.Off? && !s.tx.running && !s.rx.running
    ensures var t := After(s, es);
            Conserved(t) && t.task == s.task && !t.tx.running && !t.rx.running && !t.tx.status
                && !t.rx.status && t.handler.Off?
  {
    es := [];
    if s.tx.status || s.rx.status {
      AfterOne(s, Interrupt);
      var loop := LoopIsPass(Step(s, Interrupt), 0);
      AfterConcat(s, [Interrupt], loop);
      es := [Interrupt] + loop;
      PassKeepsConserved(s);
      assert After(s, es) == HandlerPass(s);
    }
  }

  lemma TransferReturns(s: System)
    requires Conserved(s)
    ensures CanReturn(s)
  {
    var off := HandlerEnds(s);
    var finish := ChannelsFinish(After(s, off));
    AfterConcat(s, off, finish);
    var tokens := TokensComeIn(After(s, off + finish));
    AfterConcat(s, off + finish, tokens);
    var es := off + finish + tokens;
    var t := After(s, es);
    if t.task.TakeTx? {
      AfterOne(t, TaskRuns);
      AfterOne(TaskStep(t), TaskRuns);
      AfterConcat(t, [TaskRuns], [TaskRuns]);
      AfterConcat(s, es, [TaskRuns] + [TaskRuns]);
      assert After(s, es + ([TaskRuns] + [TaskRuns])).task.Idle?;
    } else if t.task.TakeRx? {
      AfterOne(t, TaskRuns);
      AfterConcat(s, es, [TaskRuns]);
      assert After(s, es + [TaskRuns]).task.Idle?;
    }
  }

  /** After any run without overtaking, when a channel finishes: its transfer can still
      return if and only if the channel does not overtake its acknowledge now. */
  lemma OnlyOvertakingLosesCompletions(s0: System, es0: seq<Event>, e: Event)
    requires Started(s0) && NeverOvertakes(s0, es0)
    requires (e.TxDone? || e.RxDone?) && Enabled(After(s0, es0), e)
    ensures CanReturn(Step(After(s0, es0), e)) <==> !Overtakes(After(s0, es0), e)
  {
    var s := After(s0, es0);
    TokensAreConserved(s0, es0);
    if Overtakes(s, e) {
      var c := if e.TxDone? then s.txChannel else s.rxChannel;
      forall es
        ensures !After(Step(s, e), es).task.Idle?
      {
        LostStays(Step(s, e), es, c);
      }
    } else {
      StepKeepsConserved(s, e);
      TransferReturns(Step(s, e));
    }
  }

  lemma RunGoesOn(s: System, es: seq<Event>, e: Event)
    requires NeverOvertakes(s, es) && Enabled(After(s, es), e) && !Overtakes(After(s, es), e)
    ensures After(s, es + [e]) == Step(After(s, es), e) && NeverOvertakes(s, es + [e])
  {}

  /** The first transfer over channels 1 and 0, up to both gives. */
  lemma FirstTransferGives(s: System) returns (es: seq<Event>)
    requires Started(s) && s.txChannel == 1 && s.rxChannel == 0
    ensures NeverOvertakes(s, es)
    ensures var t := After(s, es); t.handler == Acknowledge(t.txChannel) && t.task.TakeTx? && t.tx.sem && t.rx.sem
  {
    es := [];
    RunGoesOn(s, es, StartTransfer);
    es := es + [StartTransfer];
    RunGoesOn(s, es, TxDone);
    es := es + [TxDone];
    RunGoesOn(s, es, RxDone);
    es := es + [RxDone];
    RunGoesOn(s, es, Interrupt);
    es := es + [Interrupt];
    for i := 0 to 5
      invariant NeverOvertakes(s, es)
      invariant After(s, es) == s.(task := TakeTx, started := s.started + 1,
                                   tx := Channel(false, true, i == 5, s.tx.completions + 1),
                                   rx := Channel(false, i < 3, i >= 2, s.rx.completions + 1),
                                   handler := [Test(0), Callback(0), Acknowledge(0), Test(1),
                                       Callback(1), Acknowledge(1)][i])
    {
      RunGoesOn(s, es, HandlerRuns);
      es := es + [HandlerRuns];
    }
  }

  /** Where another core runs the task: it returns between a give and its acknowledge,
      starts the next transfer, and the transmit channel overtakes. */
  lemma OvertakingHappens(s: System) returns (es: seq<Event>)
    requires Started(s) && s.txChannel == 1 && s.rxChannel == 0
    ensures NeverOvertakes(s, es) && Enabled(After(s, es), TxDone) && Overtakes(After(s, es), TxDone)
  {
    es := FirstTransferGives(s);
    RunGoesOn(s, es, TaskRuns);
    es := es + [TaskRuns];
    RunGoesOn(s, es, TaskRuns);
    es := es + [TaskRuns];
    RunGoesOn(s, es, StartTransfer);
    es := es + [StartTransfer];
  }

  /** A waiting task is never stuck: some other step is always possible. */
  lemma SomeoneCanMove(s: System, es: seq<Event>)
    requires Started(s) && NeverOvertakes(s, es) && !After(s, es).task.Idle?
    ensures exists e :: e != StartTransfer && Enabled(After(s, es), e)
  {
    TokensAreConserved(s, es);
    var t := After(s, es);
    assert Enabled(t, TaskRuns) || Enabled(t, TxDone) || Enabled(t, RxDone) || Enabled(t, Interrupt)
        || Enabled(t, HandlerRuns);
  }
}
