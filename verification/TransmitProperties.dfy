/** The transmit side of the protocol under any schedule and any errors: no sender
    sleeps for ever, sends are bounded by completions, and transmission is requested
    only of a frame loaded whole. */
module TransmitProperties {
  import opened Registers
  import opened CanFrame
  import opened Protocol
  import opened InterruptProperties

  predicate Marked(tx: SendSide) {
    Has(tx.pending, 0x01)
  }

  /** In a pass that saw TX0IF, at or before the named statement. */
  predicate ToUnmark(pc: ServicePc) { UpToClearTx0(pc) || pc.UnmarkTx0? }
  predicate ToGive(pc: ServicePc) { pc.GiveRx0? || pc.GiveRx1? || pc.GiveTx? }

  /** The current pass will still clear the pending bit (give the token). */
  predicate OwesUnmark(v: Service) {
    (InErrorBranch(v.pc) && !v.pc.ErrorGive?) || (ToUnmark(v.pc) && Has(v.intFlag, TX0IF))
  }
  predicate OwesGive(v: Service) {
    InErrorBranch(v.pc) || ((ToUnmark(v.pc) || ToGive(v.pc)) && Has(v.intFlag, TX0IF))
  }

  // ----- No lost wake-up

  /** Something is under way that ends in a token for the sender. */
  predicate WakeupComing(regs: Regs, v: Service, tx: SendSide) {
    TxRequested(regs) || Has(Get(regs, CANINTF), TX0IF) || Has(Get(regs, CANINTF), ERRORS) || OwesGive(v) || tx.sem
  }

  predicate SenderMayWait(tx: SendSide) {
    tx.sender.TakeTx? || (Marked(tx) && !tx.sender.MarkTx? && !tx.sender.Loading?)
  }

  predicate Backed(s: State) {
    SenderMayWait(s.tx) ==> WakeupComing(s.regs, s.service, s.tx)
  }

  lemma ServiceKeepsCtrl(v: Service, regs: Regs)
    ensures Get(ServiceRegs(v, regs), TXB0CTRL) == Get(regs, TXB0CTRL)
  {}

  lemma OwesNext(v: Service, regs: Regs)
    ensures OwesGive(NextService(v, regs)) <==>
              (OwesGive(v) && !v.pc.ErrorGive? && !v.pc.GiveTx?)
              || (v.pc.ReadFlags? && (Has(Get(regs, CANINTF), ERRORS) || Has(Get(regs, CANINTF), TX0IF)))
    ensures OwesUnmark(NextService(v, regs)) <==>
              (OwesUnmark(v) && !v.pc.ErrorUnmark? && !v.pc.UnmarkTx0?)
              || (v.pc.ReadFlags? && (Has(Get(regs, CANINTF), ERRORS) || Has(Get(regs, CANINTF), TX0IF)))
  {}

  /** What a service step does to the send side. */
  lemma TxNext(v: Service, regs: Regs, tx: SendSide)
    ensures var tx' := ServiceTx(v, regs, tx);
            && tx'.sender == tx.sender && tx'.requests == tx.requests && tx'.transmitted == tx.transmitted
            && tx'.sem == (tx.sem || v.pc.ErrorGive? || (v.pc.GiveTx? && Has(v.intFlag, TX0IF)))
            && tx'.pending == if v.pc.ErrorUnmark? || v.pc.UnmarkTx0? then Without(tx.pending, 0x01) else tx.pending
  {}

  lemma UnmarkedBit(x: bv8)
    ensures !Has(Without(x, 0x01), 0x01) && Has(With(x, 0x01), 0x01)
  {}

  lemma ServiceKeepsWakeup(v: Service, regs: Regs, tx: SendSide)
    requires WakeupComing(regs, v, tx)
    ensures WakeupComing(ServiceRegs(v, regs), NextService(v, regs), ServiceTx(v, regs, tx))
  {
    var f := Get(regs, CANINTF);
    ServiceKeepsCtrl(v, regs);
    ServiceClears(v, regs);
    FlagsAfterStep(v, f);
    OwesNext(v, regs);
    TxNext(v, regs, tx);
  }

  lemma ServiceKeepsBacked(s: State)
    requires Backed(s)
    ensures Backed(ServiceStep(s))
  {
    TxNext(s.service, s.regs, s.tx);
    UnmarkedBit(s.tx.pending);
    if SenderMayWait(s.tx) {
      ServiceKeepsWakeup(s.service, s.regs, s.tx);
    }
  }

  lemma SenderLeavesFlags(pc: SenderPc, regs: Regs)
    ensures Get(SenderRegs(pc, regs), CANINTF) == Get(regs, CANINTF)
    ensures Get(SenderRegs(pc, regs), TXB0CTRL) ==
            if pc.Loading? && pc.k == SendSize(pc.r) - 1 then TXREQ else Get(regs, TXB0CTRL)
  {}

  /** A load in progress is inside its plan. */
  predicate InPlan(tx: SendSide) {
    tx.sender.Loading? ==> tx.sender.k < SendSize(tx.sender.r)
  }

  lemma SenderKeepsBacked(s: State)
    requires Backed(s) && InPlan(s.tx)
    ensures Backed(SenderStep(s))
  {}

  lemma ChipKeepsBacked(s: State, e: Event)
    requires ChipEvent(e) && Enabled(s, e) && Backed(s)
    ensures Backed(Step(s, e))
  {}

  lemma StepKeepsBacked(s: State, e: Event)
    requires Enabled(s, e) && Backed(s) && InPlan(s.tx)
    ensures Backed(Step(s, e)) && InPlan(Step(s, e).tx)
  {
    if ChipEvent(e) {
      ChipKeepsBacked(s, e);
    } else if e.ServiceRuns? {
      TxNext(s.service, s.regs, s.tx);
      ServiceKeepsBacked(s);
    } else if e.SenderRuns? {
      SenderKeepsBacked(s);
    }
  }

  /** Under any schedule and any errors: a sender that waits on an empty semaphore
      waits for a frame in flight, a TX0IF or error flag that is set, or a service
      pass that still owes the give. */
  lemma {:induction false} NoTransmitWakeupIsLost(s: State, es: seq<Event>)
    requires Started(s)
    ensures Backed(After(s, es)) && InPlan(After(s, es).tx)
    ensures var t := After(s, es);
            t.tx.sender.TakeTx? && !t.tx.sem ==>
              TxRequested(t.regs) || Has(Flags(t), TX0IF) || Has(Flags(t), ERRORS) || OwesGive(t.service)
  {
    if es != [] {
      var t, e := After(s, es[..|es| - 1]), es[|es| - 1];
      NoTransmitWakeupIsLost(s, es[..|es| - 1]);
      if Enabled(t, e) {
        StepKeepsBacked(t, e);
      }
    }
  }

  // ----- Admission

  /** Sends admitted, a token stored, a token taken and not yet used, and an
      unmarked buffer: all are paid for by unmarkings and gives, or the first send. */
  predicate Admitted(tx: SendSide) {
    && |tx.requests| + (if tx.sem then 1 else 0) + (if tx.sender.MarkTx? && tx.sender.token then 1 else 0)
       + (if Marked(tx) then 0 else 1) <= 1 + tx.unmarks + tx.gives
    && (tx.sender.MarkTx? && !tx.sender.token ==> !Marked(tx))
  }

  /** Each pass that saw an error or TX0IF unmarks once and gives once. */
  predicate Accounted(v: Service, tx: SendSide) {
    && (v.pc.UnmarkTx0? ==> Has(v.intFlag, TX0IF))
    && tx.unmarks + (if OwesUnmark(v) then 1 else 0) == tx.events
    && tx.gives + (if OwesGive(v) then 1 else 0) == tx.events
  }

  lemma UnmarkKeepsAdmitted(tx: SendSide)
    requires Admitted(tx)
    ensures Admitted(UnmarkTx(tx))
  {}

  lemma GiveKeepsAdmitted(tx: SendSide)
    requires Admitted(tx)
    ensures Admitted(GiveTxSem(tx))
  {}

  lemma ServiceKeepsAdmitted(v: Service, regs: Regs, tx: SendSide)
    requires Admitted(tx)
    ensures Admitted(ServiceTx(v, regs, tx))
  {
    UnmarkKeepsAdmitted(tx);
    GiveKeepsAdmitted(tx);
  }

  lemma SenderKeepsAdmitted(tx: SendSide)
    requires Admitted(tx) && (tx.sender.TakeTx? ==> tx.sem)
    ensures Admitted(SenderTx(tx))
  {}

  lemma EitherFlag(f: bv8)
    ensures Has(f, ERRORS | TX0IF) <==> Has(f, ERRORS) || Has(f, TX0IF)
  {}

  lemma ServiceKeepsAccounted(v: Service, regs: Regs, tx: SendSide)
    requires Accounted(v, tx)
    ensures Accounted(NextService(v, regs), ServiceTx(v, regs, tx))
  {
    EitherFlag(Get(regs, CANINTF));
    OwesNext(v, regs);
  }

  lemma StepKeepsAdmission(s: State, e: Event)
    requires Enabled(s, e) && Admitted(s.tx) && Accounted(s.service, s.tx)
    ensures Admitted(Step(s, e).tx) && Accounted(Step(s, e).service, Step(s, e).tx)
  {
    if e.ServiceRuns? {
      ServiceKeepsAdmitted(s.service, s.regs, s.tx);
      ServiceKeepsAccounted(s.service, s.regs, s.tx);
    } else if e.SenderRuns? {
      SenderKeepsAdmitted(s.tx);
    }
  }

  /** Under any schedule: after E passes that saw a completion or an error, at most
      1 + 2E sends have been admitted. */
  lemma {:induction false} SendsAreBounded(s: State, es: seq<Event>)
    requires Started(s)
    ensures Admitted(After(s, es).tx) && Accounted(After(s, es).service, After(s, es).tx)
    ensures |After(s, es).tx.requests| <= 1 + 2 * After(s, es).tx.events
  {
    if es != [] {
      var t, e := After(s, es[..|es| - 1]), es[|es| - 1];
      SendsAreBounded(s, es[..|es| - 1]);
      if Enabled(t, e) {
        StepKeepsAdmission(t, e);
      }
    }
  }

  // ----- Only whole frames are requested

  /** What the load in progress has written still stands. */
  predicate LoadStands(s: State) {
    InPlan(s.tx) && (s.tx.sender.Loading? ==> Landed(s.regs, s.tx.sender.r, s.tx.sender.k))
  }

  predicate SameLoadArea(regs: Regs, regs': Regs) {
    forall a: Addr :: TXB0CTRL < a <= TXB0CTRL + 13 ==> Get(regs, a) == Get(regs', a)
  }

  lemma ServiceLeavesLoad(v: Service, regs: Regs)
    ensures SameLoadArea(regs, ServiceRegs(v, regs))
  {}

  lemma OthersLeaveLoad(s: State, e: Event)
    requires Enabled(s, e) && !e.SenderRuns?
    ensures SameLoadArea(s.regs, Step(s, e).regs)
  {
    if e.ServiceRuns? {
      ServiceLeavesLoad(s.service, s.regs);
    }
  }

  lemma SameLoadStillLanded(regs: Regs, regs': Regs, r: Request, k: nat)
    requires SameLoadArea(regs, regs') && k < SendSize(r) && Landed(regs, r, k)
    ensures Landed(regs', r, k)
  {}

  lemma StepKeepsLoad(s: State, e: Event)
    requires Enabled(s, e) && LoadStands(s)
    ensures LoadStands(Step(s, e))
  {
    if e.SenderRuns? {
      if s.tx.sender.Loading? {
        NextWriteLands(s.regs, s.tx.sender.r, s.tx.sender.k);
      }
    } else {
      OthersLeaveLoad(s, e);
      assert e.StartSend? || Step(s, e).tx.sender == s.tx.sender by {
        TxNext(s.service, s.regs, s.tx);
      }
      if s.tx.sender.Loading? {
        SameLoadStillLanded(s.regs, Step(s, e).regs, s.tx.sender.r, s.tx.sender.k);
      }
    }
  }

  lemma {:induction false} LoadsStand(s: State, es: seq<Event>)
    requires Started(s)
    ensures LoadStands(After(s, es))
  {
    if es != [] {
      var t, e := After(s, es[..|es| - 1]), es[|es| - 1];
      LoadsStand(s, es[..|es| - 1]);
      if Enabled(t, e) {
        StepKeepsLoad(t, e);
      }
    }
  }

  /** Under any schedule: the step that sets TXREQ finds, and leaves, TXB0 standing
      for exactly the caller's identifier, length and payload, in a data frame of lowest
      priority; and no step of a load
      touches a register outside 0x30..0x3D. */
  lemma RequestedFrameIsWhole(s: State, es: seq<Event>)
    requires Started(s) && After(s, es).tx.sender.Loading?
    ensures var t, t' := After(s, es), SenderStep(After(s, es));
            t'.tx.sender.SenderIdle? ==> Get(t'.regs, 0x30) == 0x08 && Get(t'.regs, 0x35) & 0xF0 == 0
    ensures var t, t' := After(s, es), SenderStep(After(s, es));
            && (forall a: Addr :: !(0x30 <= a <= 0x3D) ==> Get(t'.regs, a) == Get(t.regs, a))
            && (Get(t'.regs, TXB0CTRL) != Get(t.regs, TXB0CTRL) ==> t'.tx.sender.SenderIdle?)
            && (t'.tx.sender.SenderIdle? ==>
                  TxRequested(t'.regs)
                      && OnWire(t.regs, TXB0CTRL) == OnWire(t'.regs, TXB0CTRL) == Requested(t.tx.sender.r))
  {
    var t := After(s, es);
    var r, k := t.tx.sender.r, t.tx.sender.k;
    LoadsStand(s, es);
    SendStaysInBuffer(r, k);
    NextWriteLands(t.regs, r, k);
    if k == SendSize(r) - 1 {
      LandedIsRequested(r, t.regs);
      LandedIsRequested(r, SenderStep(t).regs);
      LandedIsData(r, SenderStep(t).regs);
    }
  }
}
