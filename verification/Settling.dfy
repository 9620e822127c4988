/** Left alone by the chip and the sender, the driver comes to rest, whichever of its
    actors moves first. */
module Settling {
  import opened Counting
  import opened Registers
  import opened Protocol
  import opened InterruptProperties
  import opened ReceiveProperties

  /** The service is blocked on its semaphore and no interrupt is on its way. */
  predicate ServiceAsleep(s: State) {
    s.service.pc.TakeInt? && !s.line.sem && !s.line.edge && s.line.irq.IrqIdle?
  }

  predicate ReaderAsleep(s: State) {
    (s.rx.reader.TakeRx? || s.rx.reader.ReaderIdle?) && s.rx.sem == 0
  }

  /** A step of the handler, the service or the reading task. */
  predicate ByReceiver(e: Event) {
    e.IrqRuns? || e.ServiceRuns? || e.ReaderRuns? || e.StartRead?
  }

  /** Nothing but the driver's receiving half moves. */
  predicate ReceiverOnly(es: seq<Event>) {
    forall e :: e in es ==> ByReceiver(e)
  }

  /** The service and the reader are blocked and the handler has nothing to do. */
  predicate NoMoveLeft(s: State) {
    !Enabled(s, IrqRuns) && !Enabled(s, ServiceRuns) && !Enabled(s, ReaderRuns) && !Enabled(s, StartRead)
  }

  /** How many events of a schedule happen. */
  function Moves(s: State, es: seq<Event>): nat {
    if es == [] then 0
    else Moves(s, es[..|es| - 1]) + One(Enabled(After(s, es[..|es| - 1]), es[|es| - 1]))
  }

  // ----- Every move brings rest closer

  /** Flags still to be cleared by passes not begun yet. */
  function FlagsAhead(s: State): int {
    EnabledCount(Flags(s)) - if OwesClear(s.service) then 1 else 0
  }

  /** Steps until a wake-up on its way has been taken. */
  function Wakes(line: Interrupt): nat {
    3 * One(line.edge) + 2 * One(line.irq.IrqGive?) + One(line.sem)
  }

  function ServiceWork(s: State): int {
    14 * FlagsAhead(s) + 2 * Wakes(s.line) + Rank(s.service.pc)
  }

  function ReaderWork(rx: ReceiveSide): nat {
    40 * rx.sem + StepsTo(TAKE_RX, rx.reader)
  }

  /** Bounds the moves left; a statement of the service can give the reader a token. */
  function Work(s: State): int {
    41 * ServiceWork(s) + ReaderWork(s.rx)
  }

  const MOST_MOVES := 4581

  lemma RankDrops(v: Service, regs: Regs)
    requires !v.pc.ReadFlags? && !v.pc.TakeInt?
    ensures Rank(NextPc(v, regs)) < Rank(v.pc)
  {}

  lemma ServiceStepIsSilent(s: State)
    ensures ServiceStep(s).line.edge == s.line.edge && ServiceStep(s).line.irq == s.line.irq
    ensures ServiceStep(s).line.sem == (s.line.sem && !s.service.pc.TakeInt?)
    ensures ServiceStep(s).line.passes == s.line.passes + (if s.service.pc.ReadFlags? then 1 else 0)
    ensures ServiceStep(s).line.flagsSet == s.line.flagsSet
  {}

  /** Every pass takes the flags it will clear out of those ahead. */
  lemma FlagsGetFewer(s: State)
    requires PassFacts(Flags(s), s.service)
    ensures PassFacts(Flags(ServiceStep(s)), ServiceStep(s).service)
    ensures FlagsAhead(ServiceStep(s)) <= FlagsAhead(s) - (if s.service.pc.ReadFlags? then 1 else 0)
  {
    ServiceClears(s.service, s.regs);
    ServiceKeepsBranchFacts(s.service, s.regs);
    ServiceKeepsHeldFacts(s.service, s.regs);
    ServicePays(s);
    ServiceStepIsSilent(s);
  }

  lemma ServiceWorkDrops(s: State)
    requires PassFacts(Flags(s), s.service) && Enabled(s, ServiceRuns)
    ensures ServiceWork(ServiceStep(s)) < ServiceWork(s)
  {
    FlagsGetFewer(s);
    ServiceStepIsSilent(s);
    if !s.service.pc.ReadFlags? && !s.service.pc.TakeInt? {
      RankDrops(s.service, s.regs);
    }
  }

  lemma ServiceDrops(s: State)
    requires PassFacts(Flags(s), s.service) && Enabled(s, ServiceRuns)
    ensures Work(ServiceStep(s)) < Work(s)
  {
    ServiceWorkDrops(s);
    RxNext(s.service, s.rx);
    assert ReaderWork(ServiceRx(s.service, s.rx)) <= ReaderWork(s.rx) + 40;
  }

  lemma ReaderWorkDrops(rx: ReceiveSide, regs: Regs)
    requires !rx.reader.ReaderIdle? && (rx.reader.TakeRx? ==> rx.sem > 0)
    ensures ReaderWork(ReaderRx(rx, regs)) < ReaderWork(rx)
  {}

  lemma HandlerDrops(s: State)
    requires Enabled(s, IrqRuns)
    ensures Work(IrqStep(s)) < Work(s)
  {}

  lemma CallDrops(s: State)
    requires Enabled(s, StartRead)
    ensures Work(Step(s, StartRead)) < Work(s)
  {}

  lemma ReaderDrops(s: State)
    requires Enabled(s, ReaderRuns)
    ensures Work(ReaderStep(s)) < Work(s)
  {
    ReaderWorkDrops(s.rx, s.regs);
    assert ServiceWork(ReaderStep(s)) == ServiceWork(s);
  }

  lemma StepKeepsPassFacts(s: State, e: Event)
    requires PassFacts(Flags(s), s.service) && ByReceiver(e) && Enabled(s, e)
    ensures PassFacts(Flags(Step(s, e)), Step(s, e).service)
  {
    if e.ServiceRuns? {
      FlagsGetFewer(s);
    } else {
      if !e.IrqRuns? {
        UsersLeaveFlags(s, e);
      }
      assert Flags(Step(s, e)) == Flags(s) && Step(s, e).service == s.service;
    }
  }

  lemma WorkDrops(s: State, e: Event)
    requires PassFacts(Flags(s), s.service) && ByReceiver(e) && Enabled(s, e)
    ensures Work(Step(s, e)) < Work(s)
  {
    if e.ServiceRuns? {
      ServiceDrops(s);
    } else if e.ReaderRuns? {
      ReaderDrops(s);
    } else if e.StartRead? {
      CallDrops(s);
    } else {
      HandlerDrops(s);
    }
  }

  lemma WorkIsLeft(s: State)
    requires PassFacts(Flags(s), s.service)
    ensures Work(s) >= 0 && ServiceWork(s) >= 0
    ensures s.rx.sem <= 2 ==> Work(s) <= MOST_MOVES
  {}

  lemma {:induction false} MovesUseWork(s: State, es: seq<Event>)
    requires PassFacts(Flags(s), s.service) && ReceiverOnly(es)
    ensures PassFacts(Flags(After(s, es)), After(s, es).service)
    ensures Moves(s, es) + Work(After(s, es)) <= Work(s)
  {
    if es != [] {
      var t, e := After(s, es[..|es| - 1]), es[|es| - 1];
      MovesUseWork(s, es[..|es| - 1]);
      if Enabled(t, e) {
        assert e in es;
        StepKeepsPassFacts(t, e);
        WorkDrops(t, e);
      }
    }
  }

  /** From every state of every run, refills and errors included, and for every schedule
      of the handler, the service and the reader: boundedly many moves are made, and when
      none is left, both tasks are asleep and no interrupt is on its way. */
  lemma EveryScheduleComesToRest(s: State, es: seq<Event>, more: seq<Event>)
    requires Started(s) && ReceiverOnly(more)
    ensures Moves(After(s, es), more) <= MOST_MOVES
    ensures NoMoveLeft(After(s, es + more)) ==> ServiceAsleep(After(s, es + more)) && ReaderAsleep(After(s, es + more))
  {
    PassesStayPaid(s, es);
    NoReceiveWakeupIsLost(s, es);
    MovesUseWork(After(s, es), more);
    WorkIsLeft(After(s, es));
    WorkIsLeft(After(After(s, es), more));
  }

  // ----- So rest can always be reached

  lemma {:induction false} Settles(s: State) returns (es: seq<Event>)
    requires PassFacts(Flags(s), s.service)
    ensures ReceiverOnly(es) && NoMoveLeft(After(s, es))
    decreases Work(s)
  {
    WorkIsLeft(s);
    if NoMoveLeft(s) {
      es := [];
    } else {
      var e := if Enabled(s, IrqRuns) then IrqRuns else if Enabled(s, ServiceRuns) then ServiceRuns
               else if Enabled(s, ReaderRuns) then ReaderRuns else StartRead;
      StepKeepsPassFacts(s, e);
      WorkDrops(s, e);
      AfterOne(s, e);
      var rest := Settles(Step(s, e));
      AfterConcat(s, [e], rest);
      es := [e] + rest;
    }
  }

  lemma RestIsReached(s: State, es: seq<Event>) returns (more: seq<Event>)
    requires Started(s)
    ensures ReceiverOnly(more) && ServiceAsleep(After(s, es + more)) && ReaderAsleep(After(s, es + more))
  {
    PassesStayPaid(s, es);
    more := Settles(After(s, es));
    AfterConcat(s, es, more);
  }
}
