/** The interrupt side of the protocol: no falling edge of INT is ever lost on a
    service that goes to sleep, and draining the flags terminates. */
module InterruptProperties {
  import opened Registers
  import opened CanFrame
  import opened Protocol

  function Flags(s: State): bv8 {
    Get(s.regs, CANINTF)
  }

  lemma NoHandledFlag(f: bv8)
    requires !Has(f, ENABLED)
    ensures !Has(f, RX0IF) && !Has(f, RX1IF) && !Has(f, TX0IF) && !Has(f, ERRORS)
  {}

  // ----- What each kind of step does to the flags

  predicate ChipEvent(e: Event) {
    e.Receive? || e.Transmitted? || e.Error?
  }

  /** The flags a chip event sets. */
  function Raised(e: Event): bv8
    requires ChipEvent(e)
  {
    match e
    case Receive(b, _) => b.Flag()
    case Transmitted => TX0IF
    case Error(flags, _) => flags
  }

  lemma RaisesFlags(s: State, mask: bv8)
    ensures var t := RaiseFlags(s, mask);
            && Flags(t) == With(Flags(s), mask) && t.service == s.service
            && t.line == s.line.(edge := s.line.edge || (!IntLow(s.regs) && IntLow(t.regs)),
                                 flagsSet := s.line.flagsSet + EnabledCount(Without(mask, Flags(s))))
  {}

  lemma ChipRaises(s: State, e: Event)
    requires ChipEvent(e) && Enabled(s, e)
    ensures Flags(Step(s, e)) == With(Flags(s), Raised(e))
    ensures Step(s, e).service == s.service
    ensures Step(s, e).line == s.line.(edge := s.line.edge || (!IntLow(s.regs) && IntLow(Step(s, e).regs)),
                                       flagsSet := s.line.flagsSet + EnabledCount(Without(Raised(e), Flags(s))))
  {
    match e
    case Receive(b, image) =>
      var regs' := WithImage(s.regs, b.Base(), image);
      RaisesFlags(s.(regs := regs', rx := Arrived(s.rx, b, OnWire(regs', b.Base()))), b.Flag());
    case Transmitted =>
      var regs' := s.regs[TXB0CTRL := Without(Get(s.regs, TXB0CTRL), TXREQ)];
      RaisesFlags(s.(regs := regs', tx := s.tx.(transmitted := s.tx.transmitted + [OnWire(s.regs, TXB0CTRL)])), TX0IF);
    case Error(flags, eflg) => RaisesFlags(s.(regs := s.regs[EFLG := eflg]), flags);
  }

  lemma UsersLeaveFlags(s: State, e: Event)
    requires Enabled(s, e) && !ChipEvent(e) && !e.ServiceRuns? && !e.IrqRuns?
    ensures Flags(Step(s, e)) == Flags(s) && Step(s, e).service == s.service && Step(s, e).line == s.line
  {}

  lemma ModifiedClears(x: bv8, mask: bv8)
    ensures Modified(x, mask, 0) == Without(x, mask)
    ensures Without(x, 0) == x
  {}

  function FlagsAfter(v: Service, f: bv8): bv8 {
    if Clears(v) == 0 then f else Without(f, Clears(v))
  }

  lemma ServiceClears(v: Service, regs: Regs)
    ensures Get(ServiceRegs(v, regs), CANINTF) == FlagsAfter(v, Get(regs, CANINTF))
  {}

  /** Each handled flag is cleared at one place and nowhere else. */
  lemma FlagsAfterStep(v: Service, f: bv8)
    ensures Has(FlagsAfter(v, f), RX0IF) == (Has(f, RX0IF) && !(v.pc.ClearRx0? && Has(v.intFlag, RX0IF)))
    ensures Has(FlagsAfter(v, f), RX1IF) == (Has(f, RX1IF) && !(v.pc.ClearRx1? && Has(v.intFlag, RX1IF)))
    ensures Has(FlagsAfter(v, f), TX0IF) == (Has(f, TX0IF) && !(v.pc.ClearTx0? && Has(v.intFlag, TX0IF)))
    ensures Has(FlagsAfter(v, f), ERRORS) == (Has(f, ERRORS) && !v.pc.ClearErrors?)
  {}

  // ----- No lost interrupt

  predicate Awake(s: State) {
    s.service.pc.TakeInt? && IntLow(s.regs) ==> s.line.sem || s.line.edge || s.line.irq.IrqGive?
  }

  lemma StepStaysAwake(s: State, e: Event)
    requires Enabled(s, e) && Awake(s)
    ensures Awake(Step(s, e))
  {
    if ChipEvent(e) {
      ChipRaises(s, e);
    } else if e.ServiceRuns? {
      ServiceClears(s.service, s.regs);
    } else if !e.IrqRuns? {
      UsersLeaveFlags(s, e);
    }
  }

  /** Whenever the service has seen INT high and is at, or blocked on, the take
      of the interrupt semaphore while INT is low, a wake-up is on its way. */
  lemma {:induction false} NoInterruptIsLost(s: State, es: seq<Event>)
    requires Started(s)
    ensures Awake(After(s, es))
  {
    if es != [] {
      var t, e := After(s, es[..|es| - 1]), es[|es| - 1];
      NoInterruptIsLost(s, es[..|es| - 1]);
      if Enabled(t, e) {
        StepStaysAwake(t, e);
      }
    }
  }

  // ----- Draining

  predicate InErrorBranch(pc: ServicePc) {
    pc.ReadEflg? || pc.ClearErrors? || pc.EnterConfig? || pc.LeaveConfig? || pc.ErrorUnmark? || pc.ErrorGive?
  }

  predicate InPass(pc: ServicePc) {
    !pc.TestPin? && !pc.ReadFlags? && !pc.TakeInt?
  }

  predicate UpToClearRx0(pc: ServicePc) { pc.Stamp? || pc.ClearRx0? }
  predicate UpToClearRx1(pc: ServicePc) { UpToClearRx0(pc) || pc.MarkRx0? || pc.ClearRx1? }
  predicate UpToClearTx0(pc: ServicePc) { UpToClearRx1(pc) || pc.MarkRx1? || pc.ClearTx0? }

  /** Statements to the end of the pass under way and back to sleep, at most. */
  function Rank(pc: ServicePc): nat {
    match pc
    case Stamp => 13 case ClearRx0 => 12 case MarkRx0 => 11 case ClearRx1 => 10 case MarkRx1 => 9
    case ClearTx0 => 8 case UnmarkTx0 => 7 case GiveRx0 => 6 case GiveRx1 => 5 case GiveTx => 4
    case ReadEflg => 9 case ClearErrors => 8 case EnterConfig => 7 case LeaveConfig => 6 case ErrorUnmark => 5
    case ErrorGive => 4
    case TestPin => 3 case ReadFlags => 2 case TakeInt => 2
  }

  /** Statements to the end of the pass under way, or of the one about to begin. */
  function Remaining(pc: ServicePc): nat {
    if pc.TestPin? || pc.ReadFlags? then 12 + Rank(pc) else Rank(pc)
  }

  /** Which branch the service is in follows from its local copy of the flags. */
  predicate BranchFacts(f: bv8, v: Service) {
    && (v.pc.ReadFlags? ==> Has(f, ENABLED))
    && (InErrorBranch(v.pc) ==> Has(v.intFlag, ERRORS))
    && (v.pc.ReadEflg? || v.pc.ClearErrors? ==> Has(f, ERRORS))
    && (InPass(v.pc) && !InErrorBranch(v.pc) ==> !Has(v.intFlag, ERRORS) && Has(v.intFlag, ENABLED))
  }

  /** Only the service clears flags, so those it has read and not cleared yet still stand. */
  predicate HeldFacts(f: bv8, v: Service) {
    && (UpToClearRx0(v.pc) && Has(v.intFlag, RX0IF) ==> Has(f, RX0IF))
    && (UpToClearRx1(v.pc) && Has(v.intFlag, RX1IF) ==> Has(f, RX1IF))
    && (UpToClearTx0(v.pc) && Has(v.intFlag, TX0IF) ==> Has(f, TX0IF))
  }

  predicate PassFacts(f: bv8, v: Service) {
    BranchFacts(f, v) && HeldFacts(f, v)
  }

  /** The current pass has flags to clear and has not cleared any yet. */
  predicate OwesClear(v: Service) {
    match v.pc
    case ReadEflg => true case ClearErrors => true case Stamp => true case ClearRx0 => true
    case ClearRx1 => !Has(v.intFlag, RX0IF)
    case ClearTx0 => !Has(v.intFlag, RX0IF) && !Has(v.intFlag, RX1IF)
    case _ => false
  }

  /** Every pass but the current one has paid for itself with a cleared flag, and
      flags standing and flags cleared add up to flags set. */
  predicate PassesPaid(s: State, s0: State) {
    && PassFacts(Flags(s), s.service)
    && PassBalance(s) <= PassBalance(s0)
    && FlagBalance(s) == FlagBalance(s0)
  }

  lemma BitWith(x: bv8, mask: bv8, bit: bv8)
    requires bit == RX0IF || bit == RX1IF || bit == TX0IF || bit == ERRIF || bit == WAKIF || bit == MERRF
    ensures Bit(With(x, mask), bit) == Bit(x, bit) + Bit(Without(mask, x), bit)
  {}

  lemma CountedWith(x: bv8, mask: bv8)
    ensures EnabledCount(With(x, mask)) == EnabledCount(x) + EnabledCount(Without(mask, x))
  {
    BitWith(x, mask, RX0IF);
    BitWith(x, mask, RX1IF);
    BitWith(x, mask, TX0IF);
    BitWith(x, mask, ERRIF);
    BitWith(x, mask, WAKIF);
    BitWith(x, mask, MERRF);
  }

  lemma CountedWithout(x: bv8, mask: bv8)
    ensures EnabledCount(x) == EnabledCount(Without(x, mask)) + EnabledCount(Only(x, mask))
    ensures Has(x, mask) && Without(mask, ENABLED) == 0 ==> EnabledCount(Only(x, mask)) > 0
  {}

  lemma ServiceKeepsBranchFacts(v: Service, regs: Regs)
    requires BranchFacts(Get(regs, CANINTF), v)
    ensures BranchFacts(FlagsAfter(v, Get(regs, CANINTF)), NextService(v, regs))
  {}

  lemma ServiceKeepsHeldFacts(v: Service, regs: Regs)
    requires HeldFacts(Get(regs, CANINTF), v)
    ensures HeldFacts(FlagsAfter(v, Get(regs, CANINTF)), NextService(v, regs))
  {}

  function FlagBalance(s: State): int {
    EnabledCount(Flags(s)) + s.line.flagsCleared - s.line.flagsSet
  }

  function PassBalance(s: State): int {
    s.line.passes - s.line.flagsCleared - if OwesClear(s.service) then 1 else 0
  }

  lemma ServicePays(s: State)
    requires PassFacts(Flags(s), s.service)
    ensures FlagBalance(ServiceStep(s)) == FlagBalance(s)
    ensures PassBalance(ServiceStep(s)) <= PassBalance(s)
  {
    ServiceClears(s.service, s.regs);
    CountedWithout(Flags(s), Clears(s.service));
    ModifiedClears(Flags(s), Clears(s.service));
  }

  lemma ServiceKeepsPassesPaid(s: State, s0: State)
    requires PassesPaid(s, s0)
    ensures PassesPaid(ServiceStep(s), s0)
  {
    ServiceClears(s.service, s.regs);
    ServiceKeepsBranchFacts(s.service, s.regs);
    ServiceKeepsHeldFacts(s.service, s.regs);
    ServicePays(s);
  }

  lemma ChipKeepsPassesPaid(s: State, e: Event, s0: State)
    requires ChipEvent(e) && Enabled(s, e) && PassesPaid(s, s0)
    ensures PassesPaid(Step(s, e), s0)
  {
    ChipRaises(s, e);
    CountedWith(Flags(s), Raised(e));
  }

  lemma StepKeepsPassesPaid(s: State, e: Event, s0: State)
    requires Enabled(s, e) && PassesPaid(s, s0)
    ensures PassesPaid(Step(s, e), s0)
  {
    if ChipEvent(e) {
      ChipKeepsPassesPaid(s, e, s0);
    } else if e.ServiceRuns? {
      ServiceKeepsPassesPaid(s, s0);
    } else if !e.IrqRuns? {
      UsersLeaveFlags(s, e);
    }
  }

  lemma {:induction false} PassesStayPaid(s0: State, es: seq<Event>)
    requires s0.service.pc.TestPin?
    ensures PassesPaid(After(s0, es), s0)
  {
    if es != [] {
      var t, e := After(s0, es[..|es| - 1]), es[|es| - 1];
      PassesStayPaid(s0, es[..|es| - 1]);
      if Enabled(t, e) {
        StepKeepsPassesPaid(t, e, s0);
      }
    }
  }

  /** From any state at the head of the loop, under any schedule: no more passes
      than flags standing at the start plus flags the chip has set since. */
  lemma PassesAreBounded(s0: State, es: seq<Event>)
    requires s0.service.pc.TestPin?
    ensures After(s0, es).line.passes - s0.line.passes
            <= EnabledCount(Flags(s0)) + (After(s0, es).line.flagsSet - s0.line.flagsSet)
  {
    var s := After(s0, es);
    PassesStayPaid(s0, es);
    if OwesClear(s.service) {
      assert EnabledCount(Flags(s)) >= 1;
    }
  }

  // ----- Two passes are enough

  /** Where n quiet passes can have brought the flags.  An error pass clears the
      error flags only; any other pass clears everything it read. */
  predicate Progress(f: bv8, v: Service, n: int) {
    && 0 <= n <= 2
    && (!InPass(v.pc) ==> n == 0 || (n == 1 && !Has(f, ERRORS)) || !Has(f, ENABLED))
    && (InPass(v.pc) ==> n >= 1)
    && (InErrorBranch(v.pc) ==> n == 1 && (v.pc.ReadEflg? || v.pc.ClearErrors? || !Has(f, ERRORS)))
    && (InPass(v.pc) && !InErrorBranch(v.pc) ==>
          && !Has(f, ERRORS)
          && (Has(f, RX0IF) ==> UpToClearRx0(v.pc) && Has(v.intFlag, RX0IF))
          && (Has(f, RX1IF) ==> UpToClearRx1(v.pc) && Has(v.intFlag, RX1IF))
          && (Has(f, TX0IF) ==> UpToClearTx0(v.pc) && Has(v.intFlag, TX0IF)))
  }

  predicate QuietProgress(s: State, s0: State) {
    && BranchFacts(Flags(s), s.service)
    && s.line.flagsSet >= s0.line.flagsSet
    && (s.line.flagsSet == s0.line.flagsSet ==> Progress(Flags(s), s.service, s.line.passes - s0.line.passes))
  }

  lemma SetFlagsStay(x: bv8, mask: bv8)
    requires EnabledCount(Without(mask, x)) == 0 && Without(mask, ENABLED) == 0
    ensures With(x, mask) == x
  {}

  lemma ServiceProgresses(v: Service, regs: Regs, n: int)
    requires BranchFacts(Get(regs, CANINTF), v) && Progress(Get(regs, CANINTF), v, n)
    ensures Progress(FlagsAfter(v, Get(regs, CANINTF)), NextService(v, regs), if v.pc.ReadFlags? then n + 1 else n)
  {}

  lemma ChipKeepsQuietProgress(s: State, e: Event, s0: State)
    requires ChipEvent(e) && Enabled(s, e) && QuietProgress(s, s0)
    ensures QuietProgress(Step(s, e), s0)
  {
    ChipRaises(s, e);
    if Step(s, e).line.flagsSet == s0.line.flagsSet {
      SetFlagsStay(Flags(s), Raised(e));
    }
  }

  lemma ServiceKeepsQuietProgress(s: State, s0: State)
    requires QuietProgress(s, s0)
    ensures QuietProgress(ServiceStep(s), s0)
  {
    ServiceClears(s.service, s.regs);
    ServiceKeepsBranchFacts(s.service, s.regs);
    if s.line.flagsSet == s0.line.flagsSet {
      ServiceProgresses(s.service, s.regs, s.line.passes - s0.line.passes);
    }
  }

  lemma SameProgress(s: State, t: State, s0: State)
    requires QuietProgress(s, s0) && Flags(t) == Flags(s) && t.service == s.service
    requires t.line.flagsSet == s.line.flagsSet && t.line.passes == s.line.passes
    ensures QuietProgress(t, s0)
  {}

  lemma StepKeepsQuietProgress(s: State, e: Event, s0: State)
    requires Enabled(s, e) && QuietProgress(s, s0)
    ensures QuietProgress(Step(s, e), s0)
  {
    if ChipEvent(e) {
      ChipKeepsQuietProgress(s, e, s0);
    } else if e.ServiceRuns? {
      ServiceKeepsQuietProgress(s, s0);
    } else {
      if !e.IrqRuns? {
        UsersLeaveFlags(s, e);
      }
      SameProgress(s, Step(s, e), s0);
    }
  }

  /** From the head of the loop, as long as the chip sets no new flag: at most two
      passes, and after the second one INT is high. */
  lemma {:induction false} TwoQuietPassesAreEnough(s0: State, es: seq<Event>)
    requires s0.service.pc.TestPin?
    ensures QuietProgress(After(s0, es), s0)
    ensures After(s0, es).line.flagsSet == s0.line.flagsSet ==>
              && After(s0, es).line.passes <= s0.line.passes + 2
              && (After(s0, es).line.passes == s0.line.passes + 2 && !InPass(After(s0, es).service.pc) ==>
                    !IntLow(After(s0, es).regs))
  {
    if es != [] {
      var t, e := After(s0, es[..|es| - 1]), es[|es| - 1];
      TwoQuietPassesAreEnough(s0, es[..|es| - 1]);
      if Enabled(t, e) {
        StepKeepsQuietProgress(t, e, s0);
      }
    }
  }
}
