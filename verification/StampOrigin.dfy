/** Where a timestamp comes from, read off the schedule: the handler run that was the
    latest one when the service last stamped a pass that had read a receive flag. */
module StampOrigin {
  import opened Registers
  import opened Protocol
  import opened InterruptProperties
  import opened ReceiveProperties
  import opened TimestampProperties

  /** What the last event of a schedule finds. */
  function Before(s: State, es: seq<Event>): State
    requires es != []
  {
    After(s, es[..|es| - 1])
  }

  /** The last event of a schedule is this one and happens. */
  predicate Ends(s: State, es: seq<Event>, e: Event)
    requires es != []
  {
    es[|es| - 1] == e && Enabled(Before(s, es), e)
  }

  /** The time of day. */
  function Now(s: State, es: seq<Event>): nat {
    if es == [] then s.clock.now
    else Now(s, es[..|es| - 1]) + if es[|es| - 1].Tick? then es[|es| - 1].d else 0
  }

  /** When the handler ran. */
  function HandlerTimes(s: State, es: seq<Event>): seq<nat> {
    if es == [] then []
    else if Ends(s, es, IrqRuns) && Before(s, es).line.irq.IrqIdle?
    then HandlerTimes(s, es[..|es| - 1]) + [Now(s, es[..|es| - 1])]
    else HandlerTimes(s, es[..|es| - 1])
  }

  /** CANINTF as the service last read it. */
  function SeenFlags(s: State, es: seq<Event>): bv8 {
    if es == [] then 0
    else if Ends(s, es, ServiceRuns) && Before(s, es).service.pc.ReadFlags? then Get(Before(s, es).regs, 0x2C)
    else SeenFlags(s, es[..|es| - 1])
  }

  /** How often the handler had run when it did. */
  function RunsAtRead(s: State, es: seq<Event>): nat {
    if es == [] then 0
    else if Ends(s, es, ServiceRuns) && Before(s, es).service.pc.ReadFlags? then |HandlerTimes(s, es[..|es| - 1])|
    else RunsAtRead(s, es[..|es| - 1])
  }

  /** How often the handler had run at the last stamp of a pass that read a receive flag. */
  function RunsAtStamp(s: State, es: seq<Event>): (n: nat)
    ensures n <= |HandlerTimes(s, es)|
  {
    if es == [] then 0
    else if Ends(s, es, ServiceRuns) && Before(s, es).service.pc.Stamp? && SeenFlags(s, es[..|es| - 1]) & 0x03 != 0
    then |HandlerTimes(s, es[..|es| - 1])|
    else RunsAtStamp(s, es[..|es| - 1])
  }

  /** The timestamps handed out: each the time of the run the last such stamp named. */
  function HandedOut(s: State, es: seq<Event>): seq<Stamped> {
    if es == [] then []
    else if Ends(s, es, ReaderRuns) && Before(s, es).rx.reader.CopyStamp?
    then
      var n := RunsAtStamp(s, es[..|es| - 1]);
      HandedOut(s, es[..|es| - 1]) + [Stamped(TimeOf(HandlerTimes(s, es[..|es| - 1]), n), n)]
    else HandedOut(s, es[..|es| - 1])
  }

  predicate Agrees(c: Clock, v: Service, now: nat, times: seq<nat>, run: nat, stamps: seq<Stamped>, seen: bv8)
    requires run <= |times|
  {
    && c.now == now && c.runs == times && c.lastInt == TimeOf(times, |times|)
    && c.rxRun == run && c.lastRx == TimeOf(times, run) && c.stamps == stamps
    && (InPass(v.pc) ==> v.intFlag == seen)
  }

  predicate AgreesWithRun(s: State, es: seq<Event>) {
    var t := After(s, es);
    Agrees(t.clock, t.service, Now(s, es), HandlerTimes(s, es), RunsAtStamp(s, es), HandedOut(s, es), SeenFlags(s, es))
  }

  lemma AnyReceiveFlag(f: bv8)
    ensures Has(f, RX0IF | RX1IF) <==> f & 0x03 != 0
  {}

  lemma ServiceAgrees(s: State, es: seq<Event>)
    requires es != [] && AgreesWithRun(s, es[..|es| - 1]) && Ends(s, es, ServiceRuns)
    ensures AgreesWithRun(s, es)
  {
    AnyReceiveFlag(Before(s, es).service.intFlag);
  }

  lemma ReaderAgrees(s: State, es: seq<Event>)
    requires es != [] && AgreesWithRun(s, es[..|es| - 1]) && Ends(s, es, ReaderRuns)
    ensures AgreesWithRun(s, es)
  {}

  lemma HandlerAgrees(s: State, es: seq<Event>)
    requires es != [] && AgreesWithRun(s, es[..|es| - 1]) && Ends(s, es, IrqRuns)
    ensures AgreesWithRun(s, es)
  {}

  lemma OthersAgree(s: State, es: seq<Event>)
    requires es != [] && AgreesWithRun(s, es[..|es| - 1])
    requires !Ends(s, es, ServiceRuns) && !Ends(s, es, ReaderRuns) && !Ends(s, es, IrqRuns)
    ensures AgreesWithRun(s, es)
  {}

  /** In every run: the handler's runs, the latest of them and the one _lastRxTime is
      the time of are those the schedule says, and so is every timestamp handed out. */
  lemma {:induction false} TimestampsAreOfReceivePasses(s: State, es: seq<Event>)
    requires Started(s)
    ensures AgreesWithRun(s, es)
  {
    if es != [] {
      TimestampsAreOfReceivePasses(s, es[..|es| - 1]);
      if Ends(s, es, ServiceRuns) {
        ServiceAgrees(s, es);
      } else if Ends(s, es, ReaderRuns) {
        ReaderAgrees(s, es);
      } else if Ends(s, es, IrqRuns) {
        HandlerAgrees(s, es);
      } else {
        OthersAgree(s, es);
      }
    }
  }

  // ----- And the stamp is of this pass

  predicate IsFresh(v: Service, atRead: nat, atStamp: nat, now: nat) {
    atRead <= now && (HasStamped(v) ==> atRead <= atStamp)
  }

  predicate FreshAfter(s: State, es: seq<Event>) {
    IsFresh(After(s, es).service, RunsAtRead(s, es), RunsAtStamp(s, es), |HandlerTimes(s, es)|)
  }

  lemma ServiceKeepsFresh(s: State, es: seq<Event>)
    requires es != [] && AgreesWithRun(s, es[..|es| - 1]) && FreshAfter(s, es[..|es| - 1]) && Ends(s, es, ServiceRuns)
    ensures FreshAfter(s, es)
  {
    AnyReceiveFlag(Before(s, es).service.intFlag);
  }

  lemma OthersKeepFresh(s: State, es: seq<Event>)
    requires es != [] && FreshAfter(s, es[..|es| - 1]) && !Ends(s, es, ServiceRuns)
    ensures FreshAfter(s, es)
  {
    var t, e := Before(s, es), es[|es| - 1];
    if Enabled(t, e) && ChipEvent(e) {
      ChipRaises(t, e);
    }
  }

  lemma {:induction false} StampsStayFresh(s: State, es: seq<Event>)
    requires Started(s)
    ensures FreshAfter(s, es)
  {
    if es != [] {
      StampsStayFresh(s, es[..|es| - 1]);
      TimestampsAreOfReceivePasses(s, es[..|es| - 1]);
      if Ends(s, es, ServiceRuns) {
        ServiceKeepsFresh(s, es);
      } else {
        OthersKeepFresh(s, es);
      }
    }
  }

  /** In every run: by the time a pass marks a receive buffer or gives the receive
      semaphore, _lastRxTime is that of a handler run no older than the latest one when
      the pass read the flags. */
  lemma MarkedFramesAreStamped(s: State, es: seq<Event>)
    requires Started(s)
    requires var v := After(s, es).service; Marks(v) || Gives(v)
    ensures RunsAtRead(s, es) <= After(s, es).clock.rxRun
    ensures After(s, es).clock.lastRx == TimeOf(HandlerTimes(s, es), RunsAtStamp(s, es))
  {
    StampsStayFresh(s, es);
    TimestampsAreOfReceivePasses(s, es);
    NoReceiveWakeupIsLost(s, es);
    EitherRx(After(s, es).service.intFlag);
  }
}
