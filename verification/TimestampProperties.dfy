/** Which interrupt a received frame's timestamp comes from. */
module TimestampProperties {
  import opened Registers
  import opened Protocol
  import opened InterruptProperties
  import opened ReceiveProperties

  /** The time of the n-th run of the interrupt handler; zero before the first. */
  function TimeOf(runs: seq<nat>, n: nat): nat
    requires n <= |runs|
  {
    if n == 0 then 0 else runs[n - 1]
  }

  predicate Ordered(runs: seq<nat>) {
    forall i, j :: 0 <= i <= j < |runs| ==> runs[i] <= runs[j]
  }

  predicate TimesAreOfRuns(c: Clock) {
    && Ordered(c.runs) && (forall i :: 0 <= i < |c.runs| ==> c.runs[i] <= c.now)
    && c.lastInt == TimeOf(c.runs, |c.runs|)
    && c.rxRun <= |c.runs| && c.lastRx == TimeOf(c.runs, c.rxRun)
  }

  predicate StampsAreOfRuns(c: Clock) {
    && (forall i :: 0 <= i < |c.stamps| ==>
          c.stamps[i].run <= c.rxRun <= |c.runs| && c.stamps[i].time == TimeOf(c.runs, c.stamps[i].run))
    && (forall i, j :: 0 <= i <= j < |c.stamps| ==> c.stamps[i].run <= c.stamps[j].run)
  }

  lemma StepKeepsTimes(s: State, e: Event)
    requires Enabled(s, e) && TimesAreOfRuns(s.clock) && StampsAreOfRuns(s.clock)
    ensures TimesAreOfRuns(Step(s, e).clock) && StampsAreOfRuns(Step(s, e).clock)
  {}

  /** Under any schedule with a clock that never runs backwards: every timestamp
      handed out is the time of the handler run it names, successive reads name
      runs in order, so their timestamps never decrease and are never in the future. */
  lemma TimestampsAreHandlerRuns(s: State, es: seq<Event>)
    requires Started(s)
    ensures TimesAreOfRuns(After(s, es).clock) && StampsAreOfRuns(After(s, es).clock)
    ensures var c := After(s, es).clock;
            forall i, j :: 0 <= i <= j < |c.stamps| ==> c.stamps[i].time <= c.stamps[j].time <= c.now
  {
    TimesStayOfRuns(s, es);
  }

  lemma {:induction false} TimesStayOfRuns(s: State, es: seq<Event>)
    requires Started(s)
    ensures TimesAreOfRuns(After(s, es).clock) && StampsAreOfRuns(After(s, es).clock)
  {
    if es != [] {
      var t, e := After(s, es[..|es| - 1]), es[|es| - 1];
      TimesStayOfRuns(s, es[..|es| - 1]);
      if Enabled(t, e) {
        StepKeepsTimes(t, e);
      }
    }
  }

  // ----- Is it a handler run at all?

  /** The service stamps a received frame before the handler has ever run. */
  predicate StampsEarly(s: State, e: Event) {
    e.ServiceRuns? && s.service.pc.Stamp? && Has(s.service.intFlag, RX0IF | RX1IF) && s.clock.runs == []
  }

  predicate NeverStampsEarly(s: State, es: seq<Event>) {
    es == [] ||
    var t, e := After(s, es[..|es| - 1]), es[|es| - 1];
    NeverStampsEarly(s, es[..|es| - 1]) && (Enabled(t, e) ==> !StampsEarly(t, e))
  }

  /** Past the stamp of a pass that saw a receive flag. */
  predicate HasStamped(v: Service) {
    InPass(v.pc) && !InErrorBranch(v.pc) && !v.pc.Stamp? && Has(v.intFlag, RX0IF | RX1IF)
  }

  /** Whoever holds or will get a receive token comes after a stamp. */
  predicate TokensAreStamped(s: State) {
    && (HasStamped(s.service) || s.rx.sem > 0 || s.rx.reader.CopyStamp? ==> s.clock.rxRun > 0)
    && forall i :: 0 <= i < |s.clock.stamps| ==> s.clock.stamps[i].run > 0
  }

  lemma EitherRx(f: bv8)
    ensures Has(f, RX0IF) || Has(f, RX1IF) <==> Has(f, RX0IF | RX1IF)
  {}

  lemma StepKeepsTokensStamped(s: State, e: Event)
    requires Enabled(s, e) && TokensAreStamped(s) && !StampsEarly(s, e)
    ensures TokensAreStamped(Step(s, e))
  {
    EitherRx(s.service.intFlag);
    if ChipEvent(e) {
      ChipRaises(s, e);
    }
  }

  /** If the service never stamps before the handler's first run, every timestamp is
      the time of a handler run. */
  lemma {:induction false} LateStampsAreReal(s: State, es: seq<Event>)
    requires Started(s) && NeverStampsEarly(s, es)
    ensures TokensAreStamped(After(s, es))
  {
    if es != [] {
      var t, e := After(s, es[..|es| - 1]), es[|es| - 1];
      LateStampsAreReal(s, es[..|es| - 1]);
      if Enabled(t, e) {
        StepKeepsTokensStamped(t, e);
      }
    }
  }

  // ----- The exact condition

  /** The handler has run, and the reader is about to hand out a time that is no run's. */
  predicate HandsOutUnreal(s: State) {
    && s.rx.reader.CopyStamp? && s.clock.runs != []
    && var stamps := ReaderStep(s).clock.stamps; stamps[|stamps| - 1].run == 0
  }

  ghost predicate CanHandOutUnreal(s: State) {
    exists es :: HandsOutUnreal(After(s, es))
  }

  /** In a pass that saw a receive flag, past its stamp and up to its first give. */
  predicate BeforeGive(v: Service) {
    && !v.pc.Stamp?
    && (((UpToClearTx0(v.pc) || v.pc.UnmarkTx0? || v.pc.GiveRx0?) && Has(v.intFlag, RX0IF | RX1IF))
        || (v.pc.GiveRx1? && Has(v.intFlag, RX1IF)))
  }

  /** The first edge still waits for its handler. */
  predicate NoRunYet(s: State) {
    s.clock.runs == [] && s.clock.rxRun == 0 && s.line.edge && s.line.irq.IrqIdle?
  }

  lemma BeforeGiveNext(s: State)
    requires BeforeGive(s.service) && NoRunYet(s)
    ensures var t := ServiceStep(s);
            NoRunYet(t) && t.rx.reader == s.rx.reader
            && (t.rx.sem > 0 || (BeforeGive(t.service) && Remaining(t.service.pc) < Remaining(s.service.pc)))
  {
    EitherRx(s.service.intFlag);
  }

  /** Left alone, such a pass gives a receive token, and the handler has still not run. */
  lemma {:induction false} PassGives(s: State) returns (es: seq<Event>)
    requires BeforeGive(s.service) && NoRunYet(s)
    ensures var t := After(s, es); t.rx.sem > 0 && NoRunYet(t)
    decreases Remaining(s.service.pc)
  {
    AfterOne(s, ServiceRuns);
    BeforeGiveNext(s);
    es := [ServiceRuns];
    if ServiceStep(s).rx.sem == 0 {
      var rest := PassGives(ServiceStep(s));
      AfterConcat(s, es, rest);
      es := es + rest;
    }
  }

  /** With a token stored the reader, left alone, comes to copy a stamp. */
  lemma {:induction false} ReaderComesToCopy(s: State) returns (es: seq<Event>)
    requires s.rx.sem > 0 && NoRunYet(s)
    ensures var t := After(s, es); t.rx.reader.CopyStamp? && NoRunYet(t)
    decreases StepsTo(COPY_STAMP, s.rx.reader)
  {
    if s.rx.reader.CopyStamp? {
      es := [];
    } else {
      var e := if s.rx.reader.ReaderIdle? then StartRead else ReaderRuns;
      AfterOne(s, e);
      es := [e];
      if !s.rx.reader.TakeRx? {
        var rest := ReaderComesToCopy(Step(s, e));
        AfterConcat(s, es, rest);
        es := es + rest;
      }
    }
  }

  lemma EarlyStampIsHandedOut(s: State) returns (es: seq<Event>)
    requires BeforeGive(s.service) && NoRunYet(s)
    ensures HandsOutUnreal(After(s, es))
  {
    var pass := PassGives(s);
    var copy := ReaderComesToCopy(After(s, pass));
    AfterConcat(s, pass, copy);
    AfterOne(After(s, pass + copy), IrqRuns);
    AfterConcat(s, pass + copy, [IrqRuns]);
    es := pass + copy + [IrqRuns];
  }

  /** Until the handler has run, a service that has seen INT low left the edge latched. */
  predicate FirstEdgeWaits(s: State) {
    && s.clock.rxRun <= |s.clock.runs|
    && (s.clock.runs == [] ==>
          s.line.irq.IrqIdle? && (IntLow(s.regs) || InPass(s.service.pc) || s.service.pc.ReadFlags? ==> s.line.edge))
  }

  lemma FewerFlags(x: bv8, mask: bv8)
    ensures Has(Without(x, mask), ENABLED) ==> Has(x, ENABLED)
  {}

  lemma StepKeepsFirstEdge(s: State, e: Event)
    requires Enabled(s, e) && FirstEdgeWaits(s)
    ensures FirstEdgeWaits(Step(s, e))
  {
    if ChipEvent(e) {
      ChipRaises(s, e);
    } else if e.ServiceRuns? {
      ServiceClears(s.service, s.regs);
      FewerFlags(Flags(s), Clears(s.service));
    } else if !e.IrqRuns? {
      UsersLeaveFlags(s, e);
    }
  }

  lemma {:induction false} FirstEdgeStays(s: State, es: seq<Event>)
    requires Started(s)
    ensures FirstEdgeWaits(After(s, es))
  {
    if es != [] {
      var t, e := After(s, es[..|es| - 1]), es[|es| - 1];
      FirstEdgeStays(s, es[..|es| - 1]);
      if Enabled(t, e) {
        StepKeepsFirstEdge(t, e);
      }
    }
  }

  lemma {:induction false} StampedRunStays(s: State, es: seq<Event>)
    requires s.clock.rxRun > 0 && s.clock.runs != []
    ensures After(s, es).clock.rxRun > 0 && After(s, es).clock.runs != []
  {
    if es != [] {
      StampedRunStays(s, es[..|es| - 1]);
    }
  }

  /** In every run, at a stamp for a received frame: from here on, a timestamp that is
      no handler run's can be handed out after the handler has run if and only if the
      handler has not run by the time of the stamp. */
  lemma EarlyStampsAreUnreal(s0: State, es0: seq<Event>)
    requires Started(s0)
    requires var s := After(s0, es0); s.service.pc.Stamp? && Has(s.service.intFlag, RX0IF | RX1IF)
    ensures var s := After(s0, es0); CanHandOutUnreal(ServiceStep(s)) <==> s.clock.runs == []
  {
    var s := After(s0, es0);
    var t := ServiceStep(s);
    FirstEdgeStays(s0, es0);
    if s.clock.runs == [] {
      var es := EarlyStampIsHandedOut(t);
    } else {
      forall es
        ensures !HandsOutUnreal(After(t, es))
      {
        StampedRunStays(t, es);
      }
    }
  }

  /** A frame for RXB0 arrives and the service gets to its stamp before the handler. */
  lemma Rx0ReachesStamp(s: State, image: seq<bv8>) returns (es: seq<Event>)
    requires Started(s) && |image| == 13 && LowNibble(image[DLC - SIDH]) <= 8
    ensures var t := After(s, es); t.service.pc.Stamp? && Has(t.service.intFlag, RX0IF | RX1IF) && NoRunYet(t)
  {
    var s1 := ReceiveStep(s, Rx0, image);
    ArrivalLowersInt(Flags(s));
    ChipRaises(s, Receive(Rx0, image));
    var s2 := ServiceStep(s1);
    ServiceClears(s1.service, s1.regs);
    AfterOne(s, Receive(Rx0, image));
    AfterOne(s1, ServiceRuns);
    AfterOne(s2, ServiceRuns);
    AfterConcat(s, [Receive(Rx0, image)], [ServiceRuns]);
    AfterConcat(s, [Receive(Rx0, image)] + [ServiceRuns], [ServiceRuns]);
    es := [Receive(Rx0, image)] + [ServiceRuns] + [ServiceRuns];
  }

  lemma ArrivalLowersInt(f: bv8)
    requires !Has(f, ENABLED)
    ensures !Has(f, RX0IF) && Has(With(f, RX0IF), RX0IF | RX1IF) && Has(With(f, RX0IF), ENABLED)
            && !Has(With(f, RX0IF), ERRORS)
  {}

  /** From every start, for any frame: a run in which the handler has run before the
      reader copies its timestamp, and the timestamp handed out is 0 and no run's. */
  lemma TimestampCanBeUnreal(s: State, image: seq<bv8>) returns (es: seq<Event>)
    requires Started(s) && |image| == 13 && LowNibble(image[DLC - SIDH]) <= 8
    ensures var t := After(s, es);
            && t.rx.reader.CopyStamp? && t.clock.runs != []
            && ReaderStep(t).clock.stamps == t.clock.stamps + [Stamped(0, 0)]
  {
    var arrival := Rx0ReachesStamp(s, image);
    var s1 := After(s, arrival);
    AfterOne(s1, ServiceRuns);
    AfterConcat(s, arrival, [ServiceRuns]);
    var read := EarlyStampIsHandedOut(ServiceStep(s1));
    AfterConcat(s, arrival + [ServiceRuns], read);
    es := arrival + [ServiceRuns] + read;
    TimesStayOfRuns(s, es);
  }
}
