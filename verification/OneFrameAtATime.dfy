/** One frame at a time.  A transmit token can outlive the send that earned it.  As long
    as no send takes such a token, TXB0 is never rewritten under an outstanding TXREQ;
    and for every send the exact condition under which it can be is stated. */
module OneFrameAtATime {
  import opened Registers
  import opened CanFrame
  import opened Protocol
  import opened InterruptProperties
  import opened TransmitProperties
  import opened Settling

  /** The service has unmarked TXB0 and its give is still to come. */
  predicate GiveComing(v: Service) {
    ToGive(v.pc) && Has(v.intFlag, TX0IF)
  }

  predicate TokenAround(s: State) {
    s.tx.sem || GiveComing(s.service)
  }

  /** A send tests the pending bit, finds it set, and a token is around. */
  predicate StaleToken(s: State) {
    s.tx.sender.TestTx? && Marked(s.tx) && TokenAround(s)
  }

  predicate Disciplined(s: State, e: Event) {
    !e.Error? && (e.SenderRuns? ==> !StaleToken(s))
  }

  predicate DisciplinedRun(s: State, es: seq<Event>) {
    es == [] ||
    var t, e := After(s, es[..|es| - 1]), es[|es| - 1];
    DisciplinedRun(s, es[..|es| - 1]) && (Enabled(t, e) ==> Disciplined(t, e))
  }

  // ----- The invariant

  /** Where an admitted frame is: in flight, completed and flagged, or in the hands
      of the service. */
  function Stage(regs: Regs, v: Service): nat {
    (if TxRequested(regs) then 1 else 0) + Bit(Get(regs, CANINTF), TX0IF) + (if v.pc.UnmarkTx0? then 1 else 0)
  }

  predicate Loads(pc: SenderPc) {
    pc.MarkTx? || pc.Loading?
  }

  predicate Single(regs: Regs, v: Service, tx: SendSide) {
    && !Has(Get(regs, CANINTF), ERRORS) && !InErrorBranch(v.pc)
    && (UpToClearTx0(v.pc) && Has(v.intFlag, TX0IF) ==> Has(Get(regs, CANINTF), TX0IF))
    && (v.pc.UnmarkTx0? ==> Has(v.intFlag, TX0IF))
    && Stage(regs, v) == (if Marked(tx) && !Loads(tx.sender) then 1 else 0)
    && (tx.sender.MarkTx? ==> !Marked(tx)) && (tx.sender.Loading? ==> Marked(tx))
    && (tx.sender.TakeTx? && Marked(tx) ==> !tx.sem && !GiveComing(v))
  }

  predicate HeldTx(f: bv8, v: Service) {
    (UpToClearTx0(v.pc) && Has(v.intFlag, TX0IF) ==> Has(f, TX0IF)) && (v.pc.UnmarkTx0? ==> Has(v.intFlag, TX0IF))
  }

  lemma HeldTxNext(v: Service, regs: Regs)
    requires HeldTx(Get(regs, CANINTF), v)
    ensures HeldTx(FlagsAfter(v, Get(regs, CANINTF)), NextService(v, regs))
    ensures NextService(v, regs).pc.UnmarkTx0? <==> v.pc.ClearTx0? && Has(v.intFlag, TX0IF)
  {}

  lemma StageNext(v: Service, regs: Regs)
    requires HeldTx(Get(regs, CANINTF), v)
    ensures Stage(ServiceRegs(v, regs), NextService(v, regs)) == Stage(regs, v) - (if v.pc.UnmarkTx0? then 1 else 0)
  {
    ServiceKeepsCtrl(v, regs);
    ServiceClears(v, regs);
    FlagsAfterStep(v, Get(regs, CANINTF));
    HeldTxNext(v, regs);
  }

  lemma ErrorFreeNext(v: Service, regs: Regs)
    requires !Has(Get(regs, CANINTF), ERRORS) && !InErrorBranch(v.pc)
    ensures !Has(FlagsAfter(v, Get(regs, CANINTF)), ERRORS) && !InErrorBranch(NextService(v, regs).pc)
  {}

  lemma GiveComingNext(v: Service, regs: Regs)
    requires v.pc.UnmarkTx0? ==> Has(v.intFlag, TX0IF)
    ensures GiveComing(NextService(v, regs)) <==> v.pc.UnmarkTx0? || (GiveComing(v) && !v.pc.GiveTx?)
  {}

  lemma ServiceKeepsSingle(v: Service, regs: Regs, tx: SendSide)
    requires Single(regs, v, tx)
    ensures Single(ServiceRegs(v, regs), NextService(v, regs), ServiceTx(v, regs, tx))
  {
    ServiceClears(v, regs);
    HeldTxNext(v, regs);
    StageNext(v, regs);
    ErrorFreeNext(v, regs);
    GiveComingNext(v, regs);
    TxNext(v, regs, tx);
    UnmarkedBit(tx.pending);
  }

  lemma TransmittedKeepsSingle(s: State)
    requires TxRequested(s.regs) && Single(s.regs, s.service, s.tx)
    ensures Single(TransmittedStep(s).regs, s.service, TransmittedStep(s).tx)
  {}

  lemma CompletedBits(ctrl: bv8, f: bv8)
    ensures !Has(Without(ctrl, TXREQ), TXREQ)
    ensures Has(With(f, TX0IF), TX0IF) && Has(With(f, TX0IF), ERRORS) == Has(f, ERRORS)
    ensures Has(With(f, RX0IF), TX0IF) == Has(f, TX0IF) && Has(With(f, RX0IF), ERRORS) == Has(f, ERRORS)
    ensures Has(With(f, RX1IF), TX0IF) == Has(f, TX0IF) && Has(With(f, RX1IF), ERRORS) == Has(f, ERRORS)
  {}

  lemma ReceiveKeepsSingle(s: State, b: Buffer, image: seq<bv8>)
    requires |image| == 13 && Single(s.regs, s.service, s.tx)
    ensures Single(ReceiveStep(s, b, image).regs, s.service, s.tx)
  {}

  lemma SenderKeepsSingle(regs: Regs, v: Service, tx: SendSide)
    requires Single(regs, v, tx) && InPlan(tx)
    requires tx.sender.TakeTx? ==> tx.sem
    requires tx.sender.TestTx? && Marked(tx) ==> !tx.sem && !GiveComing(v)
    ensures Single(SenderRegs(tx.sender, regs), v, SenderTx(tx))
  {}

  lemma StepKeepsSingle(s: State, e: Event)
    requires Enabled(s, e) && Disciplined(s, e) && Single(s.regs, s.service, s.tx) && InPlan(s.tx)
    ensures Single(Step(s, e).regs, Step(s, e).service, Step(s, e).tx)
  {
    match e
    case ServiceRuns => ServiceKeepsSingle(s.service, s.regs, s.tx);
    case SenderRuns => SenderKeepsSingle(s.regs, s.service, s.tx);
    case Transmitted => TransmittedKeepsSingle(s);
    case Receive(b, image) => ReceiveKeepsSingle(s, b, image);
    case StartSend(_) => case StartRead => case ReaderRuns => case IrqRuns => case Tick(_) =>
  }

  // ----- What goes on the bus

  /** Frames leave in the order asked for, once each; at most one send is loaded
      but not yet on the bus. */
  predicate InOrder(regs: Regs, tx: SendSide) {
    && |tx.requests| == |tx.transmitted| + (if TxRequested(regs) || tx.sender.Loading? then 1 else 0)
    && (forall i :: 0 <= i < |tx.transmitted| ==> tx.transmitted[i] == Requested(tx.requests[i]))
    && (tx.sender.Loading? ==> tx.requests[|tx.requests| - 1] == tx.sender.r)
    && (TxRequested(regs) ==> OnWire(regs, TXB0CTRL) == Requested(tx.requests[|tx.requests| - 1]))
  }

  lemma OthersKeepOrder(s: State, e: Event)
    requires Enabled(s, e) && !e.SenderRuns? && !e.Transmitted? && Single(s.regs, s.service, s.tx)
    requires InOrder(s.regs, s.tx)
    ensures InOrder(Step(s, e).regs, Step(s, e).tx)
  {
    var s' := Step(s, e);
    OthersLeaveLoad(s, e);
    assert Get(s'.regs, TXB0CTRL) == Get(s.regs, TXB0CTRL) by {
      ServiceKeepsCtrl(s.service, s.regs);
    }
    assert s'.tx.requests == s.tx.requests && s'.tx.transmitted == s.tx.transmitted
        && (e.StartSend? || s'.tx.sender == s.tx.sender) by {
      TxNext(s.service, s.regs, s.tx);
    }
    if TxRequested(s.regs) {
      SameLoadSameFrame(s.regs, s'.regs);
    }
  }

  lemma SameLoadSameFrame(regs: Regs, regs': Regs)
    requires SameLoadArea(regs, regs') && DataLength(regs, TXB0CTRL) <= 8
    ensures OnWire(regs', TXB0CTRL) == OnWire(regs, TXB0CTRL)
  {}

  lemma TransmittedKeepsOrder(s: State)
    requires TxRequested(s.regs) && Single(s.regs, s.service, s.tx) && InOrder(s.regs, s.tx)
    ensures InOrder(TransmittedStep(s).regs, TransmittedStep(s).tx)
  {}

  lemma SenderKeepsOrder(s: State)
    requires Single(s.regs, s.service, s.tx) && InOrder(s.regs, s.tx) && LoadStands(s)
    ensures InOrder(SenderStep(s).regs, SenderStep(s).tx)
  {
    SenderLeavesFlags(s.tx.sender, s.regs);
    match s.tx.sender
    case SenderIdle => case TestTx(_) => case TakeTx(_) => case MarkTx(_, _) =>
    case Loading(r, k) =>
      if k == SendSize(r) - 1 {
        NextWriteLands(s.regs, r, k);
        LandedIsRequested(r, SenderStep(s).regs);
      }
  }

  // ----- Whole runs

  predicate Orderly(s: State) {
    Single(s.regs, s.service, s.tx) && InOrder(s.regs, s.tx) && LoadStands(s)
  }

  lemma StepKeepsOrderly(s: State, e: Event)
    requires Enabled(s, e) && Disciplined(s, e) && Orderly(s)
    ensures Orderly(Step(s, e))
  {
    StepKeepsSingle(s, e);
    StepKeepsLoad(s, e);
    if e.SenderRuns? {
      SenderKeepsOrder(s);
    } else if e.Transmitted? {
      TransmittedKeepsOrder(s);
    } else {
      OthersKeepOrder(s, e);
    }
  }

  lemma StartIsOrderly(s: State)
    requires Started(s)
    ensures Orderly(s)
  {}

  /** In every disciplined run: TXB0 is never rewritten while its TXREQ stands, and
      the frames on the bus are those asked for, once each and in order, all but
      the last one at most. */
  lemma {:induction false} FramesLeaveOnceInOrder(s: State, es: seq<Event>)
    requires Started(s) && DisciplinedRun(s, es)
    ensures Orderly(After(s, es))
    ensures After(s, es).tx.sender.Loading? ==> !TxRequested(After(s, es).regs)
  {
    if es == [] {
      StartIsOrderly(s);
    } else {
      var t, e := After(s, es[..|es| - 1]), es[|es| - 1];
      FramesLeaveOnceInOrder(s, es[..|es| - 1]);
      if Enabled(t, e) {
        StepKeepsOrderly(t, e);
      }
    }
  }

  // ----- When a send can rewrite TXB0

  predicate ErrorFree(es: seq<Event>) {
    forall e :: e in es ==> !e.Error?
  }

  /** The n-th send is writing TXB0 while a TXREQ stands. */
  predicate Rewriting(s: State, n: nat) {
    s.tx.sender.Loading? && |s.tx.requests| == n && TxRequested(s.regs)
  }

  /** Some error-free continuation has the send now at its test rewrite TXB0. */
  ghost predicate CanRewrite(s: State) {
    exists es :: ErrorFree(es) && Rewriting(After(s, es), |s.tx.requests| + 1)
  }

  /** Some continuation, errors included, has it rewrite TXB0. */
  ghost predicate CanRewriteAmidErrors(s: State) {
    exists es :: Rewriting(After(s, es), |s.tx.requests| + 1)
  }

  /** A token is stored, or what has happened already ends in one. */
  predicate TokenComing(s: State) {
    s.tx.sem || Has(Flags(s), TX0IF) || Has(Flags(s), ERRORS) || OwesGive(s.service)
  }

  predicate InCall(pc: SenderPc) {
    pc.TestTx? || pc.TakeTx? || pc.MarkTx?
  }

  /** Holds along every continuation of a call that starts with no TXREQ standing. */
  predicate ClearCall(s: State, n: nat) {
    && InPlan(s.tx) && |s.tx.requests| >= n
    && (|s.tx.requests| == n ==> InCall(s.tx.sender) && !TxRequested(s.regs))
    && (|s.tx.requests| == n + 1 && s.tx.sender.Loading? ==> !TxRequested(s.regs))
  }

  lemma ClearCallStep(s: State, e: Event, n: nat)
    requires Enabled(s, e) && ClearCall(s, n)
    ensures ClearCall(Step(s, e), n)
  {
    TxNext(s.service, s.regs, s.tx);
    ServiceKeepsCtrl(s.service, s.regs);
    SenderLeavesFlags(s.tx.sender, s.regs);
  }

  lemma {:induction false} ClearCallStays(s: State, es: seq<Event>, n: nat)
    requires ClearCall(s, n)
    ensures ClearCall(After(s, es), n)
  {
    if es != [] {
      var t, e := After(s, es[..|es| - 1]), es[|es| - 1];
      ClearCallStays(s, es[..|es| - 1], n);
      if Enabled(t, e) {
        ClearCallStep(t, e, n);
      }
    }
  }

  /** Holds along every error-free continuation of a call that starts with the buffer
      marked and no token coming: while the frame is in flight, the call waits. */
  predicate WaitingCall(s: State, n: nat) {
    && (s.service.pc.UnmarkTx0? ==> Has(s.service.intFlag, TX0IF))
    && Waits(s.tx, TxRequested(s.regs), TokenComing(s), n)
  }

  predicate Waits(tx: SendSide, standing: bool, coming: bool, n: nat) {
    && InPlan(tx) && |tx.requests| >= n
    && (|tx.requests| == n ==> InCall(tx.sender) && (standing ==> Marked(tx) && !coming && !tx.sender.MarkTx?))
    && (|tx.requests| == n + 1 && tx.sender.Loading? ==> !standing)
  }

  lemma ServiceKeepsWaiting(s: State, n: nat)
    requires WaitingCall(s, n)
    ensures WaitingCall(ServiceStep(s), n)
  {
    TxNext(s.service, s.regs, s.tx);
    OwesNext(s.service, s.regs);
    ServiceKeepsCtrl(s.service, s.regs);
    ServiceClears(s.service, s.regs);
    FlagsAfterStep(s.service, Flags(s));
    assert NextService(s.service, s.regs).pc.UnmarkTx0? ==> Has(s.service.intFlag, TX0IF);
  }

  lemma SenderKeepsWaits(tx: SendSide, standing: bool, coming: bool, n: nat, standing': bool, coming': bool)
    requires Waits(tx, standing, coming, n) && (tx.sender.TakeTx? ==> tx.sem) && (tx.sem ==> coming)
    requires standing' == (standing || (tx.sender.Loading? && tx.sender.k == SendSize(tx.sender.r) - 1))
    requires coming' ==> coming
    ensures Waits(SenderTx(tx), standing', coming', n)
  {}

  lemma SenderKeepsWaiting(s: State, n: nat)
    requires WaitingCall(s, n) && (s.tx.sender.TakeTx? ==> s.tx.sem)
    ensures WaitingCall(SenderStep(s), n)
  {
    SenderLeavesFlags(s.tx.sender, s.regs);
    RequestBit();
    SenderKeepsWaits(s.tx, TxRequested(s.regs), TokenComing(s), n, TxRequested(SenderStep(s).regs),
        TokenComing(SenderStep(s)));
  }

  lemma RequestBit()
    ensures Has(TXREQ, TXREQ)
  {}

  lemma ReceiveLeavesTx(s: State, b: Buffer, image: seq<bv8>)
    requires |image| == 13
    ensures var t := ReceiveStep(s, b, image);
            && t.tx == s.tx && t.service == s.service && TxRequested(t.regs) == TxRequested(s.regs)
            && Has(Flags(t), TX0IF) == Has(Flags(s), TX0IF) && Has(Flags(t), ERRORS) == Has(Flags(s), ERRORS)
  {}

  lemma ReceiveKeepsWaiting(s: State, b: Buffer, image: seq<bv8>, n: nat)
    requires |image| == 13 && WaitingCall(s, n)
    ensures WaitingCall(ReceiveStep(s, b, image), n)
  {
    ReceiveLeavesTx(s, b, image);
  }

  lemma TransmittedKeepsWaiting(s: State, n: nat)
    requires WaitingCall(s, n)
    ensures WaitingCall(TransmittedStep(s), n)
  {
    CompletedBits(Get(s.regs, TXB0CTRL), Flags(s));
  }

  lemma ReceivingKeepsWaiting(s: State, e: Event, n: nat)
    requires Enabled(s, e) && (e.IrqRuns? || e.ReaderRuns? || e.StartRead? || e.Tick?) && WaitingCall(s, n)
    ensures WaitingCall(Step(s, e), n)
  {
    var t := Step(s, e);
    assert t.tx == s.tx && t.service == s.service && t.regs == s.regs;
  }

  lemma WaitingCallStep(s: State, e: Event, n: nat)
    requires Enabled(s, e) && !e.Error? && WaitingCall(s, n)
    ensures WaitingCall(Step(s, e), n)
  {
    match e
    case ServiceRuns => ServiceKeepsWaiting(s, n);
    case SenderRuns => SenderKeepsWaiting(s, n);
    case Receive(b, image) => ReceiveKeepsWaiting(s, b, image, n);
    case Transmitted => TransmittedKeepsWaiting(s, n);
    case StartSend(_) =>
    case _ => ReceivingKeepsWaiting(s, e, n);
  }

  lemma {:induction false} WaitingCallStays(s: State, es: seq<Event>, n: nat)
    requires WaitingCall(s, n) && ErrorFree(es)
    ensures WaitingCall(After(s, es), n)
  {
    if es != [] {
      var t, e := After(s, es[..|es| - 1]), es[|es| - 1];
      WaitingCallStays(s, es[..|es| - 1], n);
      if Enabled(t, e) {
        WaitingCallStep(t, e, n);
      }
    }
  }

  /** Steps of the receiving half leave the send as it is, and a coming token coming. */
  predicate SameSend(s: State, t: State) {
    && t.tx.sender == s.tx.sender && t.tx.requests == s.tx.requests && TxRequested(t.regs) == TxRequested(s.regs)
    && (TokenComing(s) ==> TokenComing(t))
  }

  lemma ServiceKeepsSend(s: State)
    ensures SameSend(s, ServiceStep(s))
  {
    TxNext(s.service, s.regs, s.tx);
    OwesNext(s.service, s.regs);
    ServiceKeepsCtrl(s.service, s.regs);
    ServiceClears(s.service, s.regs);
    FlagsAfterStep(s.service, Flags(s));
  }

  lemma ReceiverStepKeepsSend(s: State, e: Event)
    requires ByReceiver(e) && Enabled(s, e)
    ensures SameSend(s, Step(s, e))
  {
    if e.ServiceRuns? {
      ServiceKeepsSend(s);
    }
  }

  lemma {:induction false} ReceiverKeepsSend(s: State, es: seq<Event>)
    requires ReceiverOnly(es)
    ensures SameSend(s, After(s, es))
  {
    if es != [] {
      var t, e := After(s, es[..|es| - 1]), es[|es| - 1];
      ReceiverKeepsSend(s, es[..|es| - 1]);
      assert e in es;
      if Enabled(t, e) {
        ReceiverStepKeepsSend(t, e);
      }
    }
  }

  /** A coming token comes, without errors and with TXREQ left as it is. */
  lemma TokenArrives(s0: State, es0: seq<Event>) returns (es: seq<Event>)
    requires Started(s0) && TokenComing(After(s0, es0))
    ensures ErrorFree(es)
    ensures SameSend(After(s0, es0), After(After(s0, es0), es)) && After(After(s0, es0), es).tx.sem
  {
    PassesStayPaid(s0, es0);
    es := Settles(After(s0, es0));
    ReceiverKeepsSend(After(s0, es0), es);
    AfterConcat(s0, es0, es);
    NoInterruptIsLost(s0, es0 + es);
    NoHandledFlag(Flags(After(s0, es0 + es)));
  }

  /** With a token stored, the test, take and mark lead straight into the load. */
  lemma StaleTokenIsTaken(s: State) returns (es: seq<Event>)
    requires s.tx.sender.TestTx? && Marked(s.tx) && s.tx.sem && TxRequested(s.regs)
    ensures ErrorFree(es) && Rewriting(After(s, es), |s.tx.requests| + 1)
    ensures var t := After(s, es);
            t.tx.sender == Loading(s.tx.sender.r, 0) && t.tx.requests == s.tx.requests + [s.tx.sender.r]
                && t.regs == s.regs
  {
    var s1 := SenderStep(s);
    var s2 := SenderStep(s1);
    es := [SenderRuns, SenderRuns, SenderRuns];
    AfterOne(s, SenderRuns);
    AfterOne(s1, SenderRuns);
    AfterOne(s2, SenderRuns);
    AfterConcat(s, [SenderRuns], [SenderRuns]);
    AfterConcat(s, [SenderRuns] + [SenderRuns], [SenderRuns]);
    assert es == [SenderRuns] + [SenderRuns] + [SenderRuns];
  }

  /** A send that finds the buffer unmarked, or a token, goes straight to its load. */
  lemma TestLeadsToLoad(s: State) returns (es: seq<Event>)
    requires s.tx.sender.TestTx? && (Marked(s.tx) ==> s.tx.sem) && TxRequested(s.regs)
    ensures ErrorFree(es) && Rewriting(After(s, es), |s.tx.requests| + 1)
    ensures After(s, es).tx.sender == Loading(s.tx.sender.r, 0)
  {
    if Marked(s.tx) {
      es := StaleTokenIsTaken(s);
    } else {
      AfterOne(s, SenderRuns);
      AfterOne(SenderStep(s), SenderRuns);
      AfterConcat(s, [SenderRuns], [SenderRuns]);
      es := [SenderRuns] + [SenderRuns];
    }
  }

  /** The test finds the buffer unmarked, or will find a token. */
  predicate PassesTest(s: State) {
    !Marked(s.tx) || TokenComing(s)
  }

  /** Such a send comes to its load with TXREQ still standing. */
  lemma CallReachesLoad(s0: State, es0: seq<Event>) returns (es: seq<Event>)
    requires Started(s0) && After(s0, es0).tx.sender.TestTx?
    requires TxRequested(After(s0, es0).regs) && PassesTest(After(s0, es0))
    ensures var s, t := After(s0, es0), After(After(s0, es0), es);
            ErrorFree(es) && Rewriting(t, |s.tx.requests| + 1) && t.tx.sender == Loading(s.tx.sender.r, 0)
  {
    var s := After(s0, es0);
    var token: seq<Event> := [];
    if Marked(s.tx) {
      token := TokenArrives(s0, es0);
    }
    var load := TestLeadsToLoad(After(s, token));
    AfterConcat(s, token, load);
    es := token + load;
  }

  /** After any run at all, errors included: a send at its test can come to rewrite TXB0
      under an outstanding TXREQ, with no error to come, if and only if a TXREQ stands and
      the buffer is unmarked, a token is stored, TX0IF or an error flag is set, or the
      service is in a pass that still owes its give. */
  lemma RewriteNeedsToken(s0: State, es0: seq<Event>)
    requires Started(s0) && After(s0, es0).tx.sender.TestTx?
    ensures var s := After(s0, es0);
            CanRewrite(s) <==>
              && TxRequested(s.regs)
              && (!Marked(s.tx) || s.tx.sem || Has(Flags(s), TX0IF) || Has(Flags(s), ERRORS) || OwesGive(s.service))
  {
    var s := After(s0, es0);
    if TxRequested(s.regs) && PassesTest(s) {
      var es := CallReachesLoad(s0, es0);
    } else {
      forall es | ErrorFree(es)
        ensures !Rewriting(After(s, es), |s.tx.requests| + 1)
      {
        if TxRequested(s.regs) {
          SendsAreBounded(s0, es0);
          WaitingCallStays(s, es, |s.tx.requests|);
        } else {
          ClearCallStays(s, es, |s.tx.requests|);
        }
      }
    }
  }

  lemma SingleFlight(regs: Regs, v: Service, tx: SendSide)
    requires Single(regs, v, tx) && TxRequested(regs) && tx.sender.TestTx?
    ensures Marked(tx) && !Has(Get(regs, CANINTF), TX0IF) && !Has(Get(regs, CANINTF), ERRORS)
    ensures OwesGive(v) <==> GiveComing(v)
  {}

  /** After a disciplined run there is less to ask: a TXREQ stands and a token is stored
      or about to be given. */
  lemma DisciplinedRewriteNeedsStaleToken(s0: State, es0: seq<Event>)
    requires Started(s0) && DisciplinedRun(s0, es0) && After(s0, es0).tx.sender.TestTx?
    ensures var s := After(s0, es0); CanRewrite(s) <==> TxRequested(s.regs) && TokenAround(s)
  {
    var s := After(s0, es0);
    RewriteNeedsToken(s0, es0);
    FramesLeaveOnceInOrder(s0, es0);
    if TxRequested(s.regs) {
      SingleFlight(s.regs, s.service, s.tx);
    }
  }

  // ----- With errors to come

  lemma ErrorBits(f: bv8)
    ensures Without(ERRIF, ERRORS) == 0 && Has(With(f, ERRIF), ERRORS)
  {}

  /** An error brings a token, whatever stands. */
  lemma ErrorBringsToken(s0: State, es0: seq<Event>) returns (es: seq<Event>)
    requires Started(s0)
    ensures var s, t := After(s0, es0), After(After(s0, es0), es);
            t.tx.sem && t.tx.sender == s.tx.sender && t.tx.requests == s.tx.requests
                && TxRequested(t.regs) == TxRequested(s.regs)
  {
    var s := After(s0, es0);
    var error := Error(ERRIF, 0);
    ErrorBits(Flags(s));
    ChipRaises(s, error);
    AfterOne(s, error);
    AfterConcat(s0, es0, [error]);
    var token := TokenArrives(s0, es0 + [error]);
    AfterConcat(s, [error], token);
    es := [error] + token;
  }

  /** After any run at all: a send at its test can come to rewrite TXB0 under an
      outstanding TXREQ, errors permitting, if and only if a TXREQ stands. */
  lemma RewriteAmidErrors(s0: State, es0: seq<Event>)
    requires Started(s0) && After(s0, es0).tx.sender.TestTx?
    ensures var s := After(s0, es0); CanRewriteAmidErrors(s) <==> TxRequested(s.regs)
  {
    var s := After(s0, es0);
    if TxRequested(s.regs) {
      var token := ErrorBringsToken(s0, es0);
      var load := TestLeadsToLoad(After(s, token));
      AfterConcat(s, token, load);
    } else {
      forall es
        ensures !Rewriting(After(s, es), |s.tx.requests| + 1)
      {
        ClearCallStays(s, es, |s.tx.requests|);
      }
    }
  }

  // ----- The failing run: send, completion, send, send

  /** A send that finds the buffer unmarked runs to its end undisturbed. */
  lemma SendRuns(s: State, r: Request) returns (es: seq<Event>)
    requires s.tx.sender.SenderIdle? && !Marked(s.tx)
    ensures ErrorFree(es)
    ensures var t := After(s, es);
            && t.tx.sender.SenderIdle? && Marked(t.tx) && TxRequested(t.regs)
            && t.tx.sem == s.tx.sem && t.tx.requests == s.tx.requests + [r]
            && t.service == s.service && Flags(t) == Flags(s) && OnWire(t.regs, TXB0CTRL) == Requested(r)
  {
    var s1 := Step(s, StartSend(r));
    var s2 := SenderStep(s1);
    var s3 := SenderStep(s2);
    AfterOne(s, StartSend(r));
    AfterOne(s1, SenderRuns);
    AfterOne(s2, SenderRuns);
    AfterConcat(s, [StartSend(r)], [SenderRuns]);
    AfterConcat(s, [StartSend(r)] + [SenderRuns], [SenderRuns]);
    UnmarkedBit(s.tx.pending);
    var load := LoadRuns(s3);
    AfterConcat(s, [StartSend(r)] + [SenderRuns] + [SenderRuns], load);
    es := [StartSend(r)] + [SenderRuns] + [SenderRuns] + load;
  }

  lemma {:induction false} LoadRuns(s: State) returns (es: seq<Event>)
    requires s.tx.sender.Loading? && LoadStands(s)
    ensures ErrorFree(es)
    ensures var t := After(s, es);
            && t.tx == s.tx.(sender := SenderIdle) && TxRequested(t.regs) && t.service == s.service
            && Flags(t) == Flags(s)
            && OnWire(t.regs, TXB0CTRL) == Requested(s.tx.sender.r)
    decreases SendSize(s.tx.sender.r) - s.tx.sender.k
  {
    AfterOne(s, SenderRuns);
    SenderLeavesFlags(s.tx.sender, s.regs);
    NextWriteLands(s.regs, s.tx.sender.r, s.tx.sender.k);
    es := [SenderRuns];
    if s.tx.sender.k + 1 == SendSize(s.tx.sender.r) {
      LandedIsRequested(s.tx.sender.r, SenderStep(s).regs);
    }
    if s.tx.sender.k + 1 < SendSize(s.tx.sender.r) {
      var rest := LoadRuns(SenderStep(s));
      AfterConcat(s, es, rest);
      es := es + rest;
    }
  }

  /** The service is in, or about to start, a pass for TX0IF and nothing else. */
  predicate CompletionPass(f: bv8, v: Service) {
    && !Has(f, ERRORS) && !InErrorBranch(v.pc) && !v.pc.TakeInt?
    && (v.pc.TestPin? || v.pc.ReadFlags? ==> Has(f, TX0IF) && Has(f, ENABLED))
    && (!v.pc.TestPin? && !v.pc.ReadFlags? ==> Has(v.intFlag, TX0IF))
  }

  lemma CompletionPassNext(v: Service, regs: Regs)
    requires CompletionPass(Get(regs, CANINTF), v) && !v.pc.GiveTx?
    ensures CompletionPass(FlagsAfter(v, Get(regs, CANINTF)), NextService(v, regs))
    ensures Remaining(NextPc(v, regs)) < Remaining(v.pc)
    ensures ToGive(NextPc(v, regs)) ==> v.pc.UnmarkTx0? || ToGive(v.pc)
  {}

  /** Left alone, the service ends such a pass with the buffer unmarked and a token stored. */
  lemma {:induction false} PassRuns(s: State) returns (es: seq<Event>)
    requires CompletionPass(Flags(s), s.service) && (ToGive(s.service.pc) ==> !Marked(s.tx))
    ensures ErrorFree(es)
    ensures var t := After(s, es);
            t.service.pc.TestPin? && t.tx.sem && !Marked(t.tx) && t.tx.sender == s.tx.sender
                && t.tx.requests == s.tx.requests
    decreases Remaining(s.service.pc)
  {
    var t := ServiceStep(s);
    AfterOne(s, ServiceRuns);
    TxNext(s.service, s.regs, s.tx);
    UnmarkedBit(s.tx.pending);
    es := [ServiceRuns];
    if !s.service.pc.GiveTx? {
      ServiceClears(s.service, s.regs);
      CompletionPassNext(s.service, s.regs);
      var rest := PassRuns(t);
      AfterConcat(s, es, rest);
      es := es + rest;
    }
  }

  /** A first send, completed and handled, leaves its token in the semaphore. */
  lemma CompletedSendLeavesToken(s: State, r: Request) returns (es: seq<Event>)
    requires Started(s)
    ensures ErrorFree(es)
    ensures var t := After(s, es);
            t.tx.sender.SenderIdle? && !Marked(t.tx) && t.tx.sem && t.tx.requests == [r]
  {
    var first := SendRuns(s, r);
    var s1 := After(s, first);
    AfterOne(s1, Transmitted);
    var s2 := TransmittedStep(s1);
    NoHandledFlag(Flags(s));
    CompletedBits(Get(s1.regs, TXB0CTRL), Flags(s1));
    AnyFlag(Flags(s2));
    var pass := PassRuns(s2);
    AfterConcat(s, first, [Transmitted]);
    AfterConcat(s, first + [Transmitted], pass);
    es := first + [Transmitted] + pass;
  }

  /** Send, completion, send: a TXREQ stands for the second send, and the first one's
      token is still stored. */
  lemma SecondSendRuns(s: State, r: Request) returns (es: seq<Event>)
    requires Started(s)
    ensures ErrorFree(es)
    ensures var t := After(s, es);
            && t.tx.sender.SenderIdle? && Marked(t.tx) && t.tx.sem && t.tx.requests == [r, r]
            && TxRequested(t.regs) && OnWire(t.regs, TXB0CTRL) == Requested(r)
  {
    var first := CompletedSendLeavesToken(s, r);
    var second := SendRuns(After(s, first), r);
    AfterConcat(s, first, second);
    es := first + second;
  }

  /** From every start: after send, completion, send a third send can rewrite TXB0. */
  lemma ThirdSendCanRewrite(s: State, r: Request) returns (es: seq<Event>)
    requires Started(s)
    ensures ErrorFree(es)
    ensures After(s, es).tx.sender.TestTx? && |After(s, es).tx.requests| == 2
    ensures TxRequested(After(s, es).regs) && After(s, es).tx.sem
    ensures CanRewrite(After(s, es))
  {
    var two := SecondSendRuns(s, r);
    AfterOne(After(s, two), StartSend(r));
    AfterConcat(s, two, [StartSend(r)]);
    es := two + [StartSend(r)];
    var third := StaleTokenIsTaken(After(s, es));
    assert Rewriting(After(After(s, es), third), |After(s, es).tx.requests| + 1);
  }

  lemma AnyFlag(f: bv8)
    requires Has(f, TX0IF)
    ensures Has(f, ENABLED)
  {}
}
